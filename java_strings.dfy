/**
 * The few `java.lang.String` operations the analyser relies on, with the
 * meaning Java gives them: `startsWith`, `endsWith`, `contains`,
 * `lastIndexOf`, `toLowerCase` (ASCII letters only) and `compareTo`.
 * A Dafny `char` is a Unicode scalar value while a Java `String` holds
 * UTF-16 code units, so `compareTo` is modelled on the UTF-16 encoding of
 * its operands: a supplementary character counts as its two surrogates.
 */
module JavaStrings {

  predicate StartsWith(s: string, prefix: string) {
    prefix <= s
  }

  predicate EndsWith(s: string, suffix: string) {
    |suffix| <= |s| && s[|s| - |suffix|..] == suffix
  }

  /** `s.contains(sub)`: `sub` occurs somewhere in `s` (the empty string occurs everywhere). */
  predicate Contains(s: string, sub: string)
    decreases |s|
  {
    StartsWith(s, sub) || (|s| > 0 && Contains(s[1..], sub))
  }

  /** `s.lastIndexOf(c)`: the last position holding `c`, or -1. */
  function LastIndexOf(s: string, c: char): (r: int)
    ensures -1 <= r < |s|
    ensures r >= 0 ==> s[r] == c && c !in s[r + 1..]
    ensures r == -1 <==> c !in s
  {
    if |s| == 0 then -1
    else if s[|s| - 1] == c then |s| - 1
    else
      var r := LastIndexOf(s[..|s| - 1], c);
      assert s == s[..|s| - 1] + [s[|s| - 1]];
      r
  }

  /** `Character.toLowerCase` on an ASCII letter; every other character is kept. */
  function ToLowerChar(c: char): (r: char)
    ensures 'A' <= c <= 'Z' ==> 'a' <= r <= 'z' && r as int - c as int == 'a' as int - 'A' as int
    ensures !('A' <= c <= 'Z') ==> r == c
  {
    if 'A' <= c <= 'Z' then (c as int + 32) as char else c
  }

  /** `s.toLowerCase()` restricted to ASCII letters. */
  function ToLower(s: string): (r: string)
    ensures |r| == |s|
    ensures forall i :: 0 <= i < |s| ==> r[i] == ToLowerChar(s[i])
  {
    seq(|s|, i requires 0 <= i < |s| => ToLowerChar(s[i]))
  }

  /** Lower-casing leaves no upper-case ASCII letter behind, so doing it twice changes nothing. */
  lemma ToLowerIdempotent(s: string)
    ensures forall i :: 0 <= i < |s| ==> !('A' <= ToLower(s)[i] <= 'Z')
    ensures ToLower(ToLower(s)) == ToLower(s)
  {
  }

  /**
   * The UTF-16 code units of one character: the character itself below
   * U+10000, else its high and low surrogates.
   */
  function Utf16Char(c: char): (r: seq<int>)
    ensures 1 <= |r| <= 2
    ensures |r| == 1 <==> c as int < 0x1_0000
    ensures forall k :: 0 <= k < |r| ==> 0 <= r[k] < 0x1_0000
  {
    if c as int < 0x1_0000 then [c as int]
    else [0xD800 + (c as int - 0x1_0000) / 0x400, 0xDC00 + (c as int - 0x1_0000) % 0x400]
  }

  /** The UTF-16 code units of a string, which is what a Java `String` holds. */
  function Utf16(s: string): (r: seq<int>)
    ensures |r| >= |s|
  {
    if s == [] then [] else Utf16Char(s[0]) + Utf16(s[1..])
  }

  /** Encoding a concatenation encodes the parts one after the other. */
  lemma {:induction false} Utf16Append(a: string, b: string)
    ensures Utf16(a + b) == Utf16(a) + Utf16(b)
  {
    if a != [] {
      assert (a + b)[0] == a[0] && (a + b)[1..] == a[1..] + b;
      Utf16Append(a[1..], b);
      assert Utf16(a + b) == Utf16Char(a[0]) + (Utf16(a[1..]) + Utf16(b));
    } else {
      assert a + b == b;
    }
  }

  /** The first code unit tells a surrogate pair from a single unit, so one character decodes uniquely. */
  lemma Utf16CharHead(c: char, d: char, x: seq<int>, y: seq<int>)
    requires Utf16Char(c) + x == Utf16Char(d) + y
    ensures c == d && x == y
  {
    var u, v := Utf16Char(c), Utf16Char(d);
    assert u[0] == (u + x)[0] == (v + y)[0] == v[0];
    if |u| == 1 {
      assert |v| == 1;
    } else {
      assert |v| == 2;
      assert u[1] == (u + x)[1] == (v + y)[1] == v[1];
    }
    assert x == (u + x)[|u|..] == (v + y)[|v|..] == y;
  }

  /** Distinct strings have distinct UTF-16 encodings. */
  lemma {:induction false} Utf16Injective(a: string, b: string)
    requires Utf16(a) == Utf16(b)
    ensures a == b
  {
    if a != [] && b != [] {
      Utf16CharHead(a[0], b[0], Utf16(a[1..]), Utf16(b[1..]));
      Utf16Injective(a[1..], b[1..]);
      assert a == [a[0]] + a[1..] && b == [b[0]] + b[1..];
    }
  }

  /**
   * `compareTo` on the code units of two strings: the difference of the
   * first differing units, or else the difference of the lengths.
   */
  function CompareUnits(a: seq<int>, b: seq<int>): int {
    if a == [] || b == [] then |a| - |b|
    else if a[0] != b[0] then a[0] - b[0]
    else CompareUnits(a[1..], b[1..])
  }

  /** `a.compareTo(b)`, which compares UTF-16 code units, not code points. */
  function CompareTo(a: string, b: string): int {
    CompareUnits(Utf16(a), Utf16(b))
  }

  lemma {:induction false} CompareUnitsAntisymmetric(a: seq<int>, b: seq<int>)
    ensures CompareUnits(a, b) == -CompareUnits(b, a)
  {
    if a != [] && b != [] && a[0] == b[0] {
      CompareUnitsAntisymmetric(a[1..], b[1..]);
    }
  }

  lemma {:induction false} CompareUnitsZero(a: seq<int>, b: seq<int>)
    ensures CompareUnits(a, b) == 0 <==> a == b
  {
    if a != [] && b != [] && a[0] == b[0] {
      CompareUnitsZero(a[1..], b[1..]);
      assert a == [a[0]] + a[1..] && b == [b[0]] + b[1..];
    }
  }

  lemma {:induction false} CompareUnitsStrictTransitive(a: seq<int>, b: seq<int>, c: seq<int>)
    requires CompareUnits(a, b) < 0 && CompareUnits(b, c) < 0
    ensures CompareUnits(a, c) < 0
  {
    if a != [] && b != [] && c != [] && a[0] == b[0] && b[0] == c[0] {
      CompareUnitsStrictTransitive(a[1..], b[1..], c[1..]);
    }
  }

  lemma {:induction false} CompareUnitsPrefix(a: seq<int>, b: seq<int>)
    requires a < b
    ensures CompareUnits(a, b) < 0
  {
    if a != [] {
      CompareUnitsPrefix(a[1..], b[1..]);
    }
  }

  /** Swapping the operands of `compareTo` negates the result. */
  lemma CompareToAntisymmetric(a: string, b: string)
    ensures CompareTo(a, b) == -CompareTo(b, a)
  {
    CompareUnitsAntisymmetric(Utf16(a), Utf16(b));
  }

  /** `compareTo` returns 0 exactly on equal strings. */
  lemma CompareToZero(a: string, b: string)
    ensures CompareTo(a, b) == 0 <==> a == b
  {
    CompareUnitsZero(Utf16(a), Utf16(b));
    if Utf16(a) == Utf16(b) {
      Utf16Injective(a, b);
    }
  }

  /** Strict `compareTo` order is transitive. */
  lemma CompareToStrictTransitive(a: string, b: string, c: string)
    requires CompareTo(a, b) < 0 && CompareTo(b, c) < 0
    ensures CompareTo(a, c) < 0
  {
    CompareUnitsStrictTransitive(Utf16(a), Utf16(b), Utf16(c));
  }

  /** Non-strict `compareTo` order is transitive. */
  lemma CompareToTransitive(a: string, b: string, c: string)
    requires CompareTo(a, b) <= 0 && CompareTo(b, c) <= 0
    ensures CompareTo(a, c) <= 0
  {
    CompareToZero(a, b);
    CompareToZero(b, c);
    if CompareTo(a, b) < 0 && CompareTo(b, c) < 0 {
      CompareToStrictTransitive(a, b, c);
    }
  }

  /** `compareTo` orders a proper prefix first. */
  lemma CompareToPrefix(a: string, b: string)
    requires a < b
    ensures CompareTo(a, b) < 0
  {
    var rest := b[|a|..];
    assert b == a + rest;
    Utf16Append(a, rest);
    assert Utf16(a) < Utf16(b);
    CompareUnitsPrefix(Utf16(a), Utf16(b));
  }

  /**
   * Strings whose first characters differ and lie below U+10000 compare as
   * those characters do.
   */
  lemma CompareToFirstChar(a: string, b: string)
    requires a != [] && b != [] && a[0] != b[0]
    requires a[0] as int < 0x1_0000 && b[0] as int < 0x1_0000
    ensures CompareTo(a, b) == a[0] as int - b[0] as int
  {
  }

  /**
   * Below U+10000 code units and code points agree, but a supplementary
   * character sorts before U+FF41 because its high surrogate is smaller.
   */
  lemma CompareToSurrogateOrder()
    ensures '\U{1D41A}' as int > '\U{FF41}' as int
    ensures CompareTo("\U{1D41A}", "\U{FF41}") < 0
  {
    assert Utf16("\U{1D41A}") == [0xD835, 0xDC1A] by {
      assert "\U{1D41A}"[1..] == [];
    }
    assert Utf16("\U{FF41}") == [0xFF41] by {
      assert "\U{FF41}"[1..] == [];
    }
  }

  function DigitChar(d: nat): (c: char)
    requires d < 10
    ensures '0' <= c <= '9'
    ensures c as int - '0' as int == d
  {
    ('0' as int + d) as char
  }

  /** `Integer.toString` of a non-negative counter: its decimal digits. */
  function NatToString(n: nat): (r: string)
    ensures 1 <= |r|
    ensures n >= 10 ==> 2 <= |r|
    ensures forall i :: 0 <= i < |r| ==> '0' <= r[i] <= '9'
  {
    if n < 10 then [DigitChar(n)] else NatToString(n / 10) + [DigitChar(n % 10)]
  }

  /** Distinct counters print differently. */
  lemma {:induction false} NatToStringInjective(m: nat, n: nat)
    requires NatToString(m) == NatToString(n)
    ensures m == n
  {
    var s, t := NatToString(m), NatToString(n);
    if m < 10 && n < 10 {
      assert DigitChar(m) == s[0] == t[0] == DigitChar(n);
    } else if m >= 10 && n >= 10 {
      var sm, sn := NatToString(m / 10), NatToString(n / 10);
      assert s == sm + [DigitChar(m % 10)];
      assert t == sn + [DigitChar(n % 10)];
      assert DigitChar(m % 10) == s[|s| - 1] == t[|t| - 1] == DigitChar(n % 10);
      assert sm == s[..|s| - 1] == t[..|t| - 1] == sn;
      NatToStringInjective(m / 10, n / 10);
    }
  }
}
