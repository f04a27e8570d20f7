/**
 * The order in which constructors and methods are listed (`sortMethods`):
 * constructors first, by parameter count; then methods by their name with a
 * leading "set"/"get" or "is" removed and lower-cased, ties broken by the
 * full name and then by parameter count; methods whose stripped name starts
 * with "build" go last, compared by stripped name only.
 */
module MethodOrder {
  import opened JavaStrings
  import opened JavaAst
  import Sorting

  /** `Integer.compare`. */
  function IntegerCompare(x: int, y: int): (r: int)
    ensures r < 0 <==> x < y
    ensures r == 0 <==> x == y
    ensures -1 <= r <= 1
  {
    if x < y then -1 else if x == y then 0 else 1
  }

  /** The comparison name: "set"/"get" (3 characters) or else "is" (2 characters) stripped, then lower-cased. */
  function StrippedName(name: string): (r: string)
    ensures StartsWith(name, "set") || StartsWith(name, "get") ==> |r| == |name| - 3 && r == ToLower(name[3..])
    ensures !(StartsWith(name, "set") || StartsWith(name, "get")) && StartsWith(name, "is") ==> |r| == |name| - 2 && r == ToLower(name[2..])
    ensures !(StartsWith(name, "set") || StartsWith(name, "get") || StartsWith(name, "is")) ==> r == ToLower(name)
  {
    ToLower(if StartsWith(name, "set") || StartsWith(name, "get") then name[3..]
            else if StartsWith(name, "is") then name[2..]
            else name)
  }

  predicate IsBuildMethod(c: Callable) {
    c.kind.Method? && StartsWith(StrippedName(c.name), "build")
  }

  /** 0 for constructors, 1 for ordinary methods, 2 for build methods. */
  function Rank(c: Callable): nat {
    if c.kind.Constructor? then 0 else if IsBuildMethod(c) then 2 else 1
  }

  /** `sortMethods(c1, c2)`. */
  function SortMethods(c1: Callable, c2: Callable): (r: int)
    ensures Rank(c1) < Rank(c2) ==> r < 0
    ensures c1.kind.Constructor? && c2.kind.Constructor? ==> (r < 0 <==> |c1.parameters| < |c2.parameters|)
    ensures IsBuildMethod(c1) && IsBuildMethod(c2) ==> r == CompareTo(StrippedName(c1.name), StrippedName(c2.name))
  {
    var paramCountCompare := IntegerCompare(|c1.parameters|, |c2.parameters|);
    if c1.kind.Constructor? then
      if c2.kind.Constructor? then paramCountCompare else -1
    else if c2.kind.Constructor? then 1
    else
      var s1 := StrippedName(c1.name);
      var s2 := StrippedName(c2.name);
      if StartsWith(s1, "build") then
        if StartsWith(s2, "build") then CompareTo(s1, s2) else 1
      else if StartsWith(s2, "build") then -1
      else
        var nameCompare := CompareTo(s1, s2);
        if nameCompare == 0 then
          var fullNameCompare := CompareTo(c1.name, c2.name);
          if fullNameCompare == 0 then paramCountCompare else fullNameCompare
        else nameCompare
  }

  /**
   * Between two ordinary methods: by stripped name, then by full name, then
   * by parameter count.
   */
  lemma OrdinaryMethodOrder(c1: Callable, c2: Callable)
    requires Rank(c1) == 1 && Rank(c2) == 1
    ensures SortMethods(c1, c2) < 0 <==>
              || CompareTo(StrippedName(c1.name), StrippedName(c2.name)) < 0
              || (StrippedName(c1.name) == StrippedName(c2.name) && CompareTo(c1.name, c2.name) < 0)
              || (c1.name == c2.name && |c1.parameters| < |c2.parameters|)
    ensures SortMethods(c1, c2) == 0 <==> c1.name == c2.name && |c1.parameters| == |c2.parameters|
  {
    CompareToZero(StrippedName(c1.name), StrippedName(c2.name));
    CompareToZero(c1.name, c2.name);
  }

  /** Swapping the operands flips the sign of the comparison. */
  lemma SortMethodsAntisymmetric(c1: Callable, c2: Callable)
    ensures SortMethods(c1, c2) < 0 <==> SortMethods(c2, c1) > 0
    ensures SortMethods(c1, c2) == 0 <==> SortMethods(c2, c1) == 0
  {
    var s1, s2 := StrippedName(c1.name), StrippedName(c2.name);
    CompareToAntisymmetric(s1, s2);
    CompareToAntisymmetric(c1.name, c2.name);
  }

  lemma RankOrder(c1: Callable, c2: Callable)
    requires SortMethods(c1, c2) <= 0
    ensures Rank(c1) <= Rank(c2)
  {
    if Rank(c2) < Rank(c1) {
      SortMethodsAntisymmetric(c2, c1);
    }
  }

  /** A comparison of at most 0 is transitive. */
  lemma SortMethodsTransitive(a: Callable, b: Callable, c: Callable)
    requires SortMethods(a, b) <= 0 && SortMethods(b, c) <= 0
    ensures SortMethods(a, c) <= 0
  {
    RankOrder(a, b);
    RankOrder(b, c);
    if Rank(a) == Rank(c) {
      var sa, sb, sc := StrippedName(a.name), StrippedName(b.name), StrippedName(c.name);
      if Rank(a) == 2 {
        CompareToTransitive(sa, sb, sc);
      } else if Rank(a) == 1 {
        OrdinaryMethodOrder(a, b);
        OrdinaryMethodOrder(b, c);
        OrdinaryMethodOrder(a, c);
        CompareToZero(sa, sb);
        CompareToZero(sb, sc);
        CompareToZero(sa, sc);
        CompareToZero(a.name, b.name);
        CompareToZero(b.name, c.name);
        if CompareTo(sa, sb) < 0 && CompareTo(sb, sc) < 0 {
          CompareToStrictTransitive(sa, sb, sc);
        } else if sa == sb && sb == sc && CompareTo(a.name, b.name) < 0 && CompareTo(b.name, c.name) < 0 {
          CompareToStrictTransitive(a.name, b.name, c.name);
        }
      }
    }
  }

  /** `sortMethods` is a total preorder, so Java's stable sort is well defined on it. */
  lemma SortMethodsTotalPreorder()
    ensures Sorting.TotalPreorder(SortMethods)
  {
    forall a, b ensures SortMethods(a, b) < 0 <==> SortMethods(b, a) > 0 {
      SortMethodsAntisymmetric(a, b);
    }
    forall a, b, c | SortMethods(a, b) <= 0 && SortMethods(b, c) <= 0 ensures SortMethods(a, c) <= 0 {
      SortMethodsTransitive(a, b, c);
    }
  }

  /** `callables.stream().sorted(this::sortMethods)`. */
  function SortCallables(cs: seq<Callable>): seq<Callable> {
    Sorting.SortBy(cs, SortMethods)
  }

  /**
   * In the sorted list every constructor precedes every method, every
   * ordinary method precedes every build method, and constructors appear by
   * non-decreasing parameter count; nothing is lost or duplicated.
   */
  lemma SortedCallablesOrder(cs: seq<Callable>)
    ensures multiset(SortCallables(cs)) == multiset(cs)
    ensures forall i, j :: 0 <= i < j < |SortCallables(cs)| ==>
              && Rank(SortCallables(cs)[i]) <= Rank(SortCallables(cs)[j])
              && (Rank(SortCallables(cs)[j]) == 0 ==>
                    |SortCallables(cs)[i].parameters| <= |SortCallables(cs)[j].parameters|)
  {
    var r := SortCallables(cs);
    SortMethodsTotalPreorder();
    Sorting.SortBySorted(cs, SortMethods);
    forall i, j | 0 <= i < j < |r|
      ensures Rank(r[i]) <= Rank(r[j])
      ensures Rank(r[j]) == 0 ==> |r[i].parameters| <= |r[j].parameters|
    {
      RankOrder(r[i], r[j]);
    }
  }

  /**
   * Callables the comparator ties keep their declaration order: constructors
   * with the same parameter count, overloads of one method with the same
   * parameter count, build methods with the same stripped name.
   */
  lemma SortedCallablesStable(cs: seq<Callable>, c: Callable)
    ensures Sorting.Ties(SortCallables(cs), c, SortMethods) == Sorting.Ties(cs, c, SortMethods)
  {
    SortMethodsTotalPreorder();
    Sorting.SortByStable(cs, c, SortMethods);
  }

  /** A public method with no parameters, for the worked example below. */
  function PlainMethod(name: string): Callable {
    Callable(Method(VoidType), name, name, Public, [], [], [], [], [])
  }

  /**
   * Worked example: `acquire`, `getName`, `setName`, `isReady` and `buildA`
   * compare in exactly that order. `getName` and `setName` tie on the
   * stripped name "name" and are separated by their full names; `buildA`
   * goes last.
   */
  lemma MethodOrderExample()
    ensures SortMethods(PlainMethod("acquire"), PlainMethod("getName")) < 0
    ensures SortMethods(PlainMethod("getName"), PlainMethod("setName")) < 0
    ensures SortMethods(PlainMethod("setName"), PlainMethod("isReady")) < 0
    ensures SortMethods(PlainMethod("isReady"), PlainMethod("buildA")) < 0
  {
    ExampleStrippedNames();
    ExampleOrdinaryPair("acquire", "getName", "acquire", "name");
    ExampleOrdinaryPair("getName", "setName", "name", "name");
    ExampleOrdinaryPair("setName", "isReady", "name", "ready");
    assert IsBuildMethod(PlainMethod("buildA")) && !IsBuildMethod(PlainMethod("isReady"));
  }

  /** Two ordinary methods with no parameters, given their stripped names. */
  lemma ExampleOrdinaryPair(n1: string, n2: string, s1: string, s2: string)
    requires StrippedName(n1) == s1 && StrippedName(n2) == s2
    requires !StartsWith(s1, "build") && !StartsWith(s2, "build")
    requires 0 < |n1| && 0 < |n2| && 0 < |s1| && 0 < |s2|
    requires (s1[0] < s2[0] && s2[0] as int < 0x1_0000) || (s1 == s2 && n1[0] < n2[0] && n2[0] as int < 0x1_0000)
    ensures SortMethods(PlainMethod(n1), PlainMethod(n2)) < 0
  {
    if s1 == s2 {
      CompareToZero(s1, s2);
      CompareToFirstChar(n1, n2);
    } else {
      CompareToFirstChar(s1, s2);
    }
  }

  lemma NotPrefix(s: string, p: string)
    requires 0 < |p| && 0 < |s| && s[0] != p[0]
    ensures !StartsWith(s, p)
  {
  }

  lemma ExampleStrippedNames()
    ensures StrippedName("acquire") == "acquire" && !StartsWith("acquire", "build")
    ensures StrippedName("getName") == "name" && StrippedName("setName") == "name"
    ensures StrippedName("isReady") == "ready" && !StartsWith("ready", "build") && !StartsWith("name", "build")
    ensures StrippedName("buildA") == "builda" && StartsWith("builda", "build")
  {
    ExampleAccessors();
    ExampleAcquire();
    ExampleBuilder();
    NotPrefix("ready", "build");
    NotPrefix("name", "build");
  }

  lemma ExampleAcquire()
    ensures StrippedName("acquire") == "acquire" && !StartsWith("acquire", "build")
  {
    NotPrefix("acquire", "set");
    NotPrefix("acquire", "get");
    NotPrefix("acquire", "is");
    NotPrefix("acquire", "build");
    var r := ToLower("acquire");
    assert forall i :: 0 <= i < |r| ==> r[i] == "acquire"[i];
  }

  lemma ExampleBuilder()
    ensures StrippedName("buildA") == "builda" && StartsWith("builda", "build")
  {
    NotPrefix("buildA", "set");
    NotPrefix("buildA", "get");
    NotPrefix("buildA", "is");
    var r := ToLower("buildA");
    assert r[5] == 'a';
    assert forall i :: 0 <= i < 5 ==> r[i] == "buildA"[i];
    assert "build" <= "builda";
  }

  lemma ExampleAccessors()
    ensures StrippedName("getName") == "name" && StrippedName("setName") == "name"
    ensures StrippedName("isReady") == "ready"
  {
    NotPrefix("getName", "set");
    NotPrefix("isReady", "set");
    NotPrefix("isReady", "get");
    assert "getName"[3..] == "Name" && StartsWith("getName", "get");
    assert "setName"[3..] == "Name" && StartsWith("setName", "set");
    assert "isReady"[2..] == "Ready" && StartsWith("isReady", "is");
    assert ToLower("Name") == "name";
    assert ToLower("Ready") == "ready";
  }
}
