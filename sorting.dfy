/**
 * The stable sort behind `Stream.sorted(comparator)` and
 * `List.sort(comparator)`: elements are inserted in input order, each after
 * every element it does not compare below, so equal elements keep their
 * input order. For a comparator that is a total preorder the result is
 * sorted and is a permutation of the input.
 */
module Sorting {

  /** The comparator contract Java's sorts rely on. */
  ghost predicate TotalPreorder<T(!new)>(cmp: (T, T) -> int) {
    && (forall a, b :: cmp(a, b) < 0 <==> cmp(b, a) > 0)
    && (forall a, b, c :: cmp(a, b) <= 0 && cmp(b, c) <= 0 ==> cmp(a, c) <= 0)
  }

  ghost predicate Sorted<T>(s: seq<T>, cmp: (T, T) -> int) {
    forall i, j :: 0 <= i < j < |s| ==> cmp(s[i], s[j]) <= 0
  }

  /** Insert `x` before the first element that compares strictly above it. */
  function Insert<T(==)>(x: T, s: seq<T>, cmp: (T, T) -> int): (r: seq<T>)
    ensures multiset(r) == multiset(s) + multiset{x}
  {
    if s == [] then [x]
    else if cmp(x, s[0]) < 0 then [x] + s
    else
      assert s == [s[0]] + s[1..];
      [s[0]] + Insert(x, s[1..], cmp)
  }

  /** Inserting into a sorted sequence keeps it sorted. */
  lemma {:induction false} InsertSorted<T(!new)>(x: T, s: seq<T>, cmp: (T, T) -> int)
    requires TotalPreorder(cmp) && Sorted(s, cmp)
    ensures Sorted(Insert(x, s, cmp), cmp)
  {
    if s == [] {
    } else if cmp(x, s[0]) < 0 {
      HeadBound(x, s, cmp);
      SortedCons(x, s, cmp);
    } else {
      assert cmp(s[0], x) <= 0;
      SortedTail(s, cmp);
      InsertSorted(x, s[1..], cmp);
      InsertLowerBound(s[0], x, s[1..], cmp);
      SortedCons(s[0], Insert(x, s[1..], cmp), cmp);
    }
  }

  lemma SortedTail<T>(s: seq<T>, cmp: (T, T) -> int)
    requires s != [] && Sorted(s, cmp)
    ensures Sorted(s[1..], cmp)
    ensures forall k :: 0 <= k < |s[1..]| ==> cmp(s[0], s[1..][k]) <= 0
  {
    assert forall k :: 0 <= k < |s[1..]| ==> s[1..][k] == s[k + 1];
  }

  /** An upper bound of a sorted sequence may go after it. */
  lemma SortedSnoc<T>(s: seq<T>, x: T, cmp: (T, T) -> int)
    requires Sorted(s, cmp)
    requires forall k :: 0 <= k < |s| ==> cmp(s[k], x) <= 0
    ensures Sorted(s + [x], cmp)
  {
    var r := s + [x];
    forall i, j | 0 <= i < j < |r| ensures cmp(r[i], r[j]) <= 0 {
      assert r[i] == s[i];
      if j < |s| {
        assert r[j] == s[j];
      }
    }
  }

  lemma SortedInit<T>(s: seq<T>, cmp: (T, T) -> int)
    requires s != [] && Sorted(s, cmp)
    ensures Sorted(s[..|s| - 1], cmp)
    ensures forall k :: 0 <= k < |s| - 1 ==> cmp(s[k], s[|s| - 1]) <= 0
  {
  }

  /** An element not above the head of a sorted sequence is not above any of its elements. */
  lemma HeadBound<T(!new)>(x: T, s: seq<T>, cmp: (T, T) -> int)
    requires TotalPreorder(cmp) && Sorted(s, cmp) && s != [] && cmp(x, s[0]) <= 0
    ensures forall k :: 0 <= k < |s| ==> cmp(x, s[k]) <= 0
  {
    forall k | 0 <= k < |s| ensures cmp(x, s[k]) <= 0 {
      if k > 0 {
        assert cmp(s[0], s[k]) <= 0;
      }
    }
  }

  /** A lower bound of a sorted sequence may go in front of it. */
  lemma SortedCons<T>(x: T, s: seq<T>, cmp: (T, T) -> int)
    requires Sorted(s, cmp)
    requires forall k :: 0 <= k < |s| ==> cmp(x, s[k]) <= 0
    ensures Sorted([x] + s, cmp)
  {
    var r := [x] + s;
    forall i, j | 0 <= i < j < |r| ensures cmp(r[i], r[j]) <= 0 {
      assert r[j] == s[j - 1];
      if i > 0 {
        assert r[i] == s[i - 1];
      }
    }
  }

  /** A lower bound of `x` and of every element of `s` is a lower bound of every element of the insertion. */
  lemma {:induction false} InsertLowerBound<T>(a: T, x: T, s: seq<T>, cmp: (T, T) -> int)
    requires cmp(a, x) <= 0
    requires forall k :: 0 <= k < |s| ==> cmp(a, s[k]) <= 0
    ensures forall j :: 0 <= j < |Insert(x, s, cmp)| ==> cmp(a, Insert(x, s, cmp)[j]) <= 0
  {
    if s != [] && cmp(x, s[0]) >= 0 {
      InsertLowerBound(a, x, s[1..], cmp);
      var rest := Insert(x, s[1..], cmp);
      assert Insert(x, s, cmp) == [s[0]] + rest;
    }
  }

  /** Insert the elements one by one, in input order. */
  function SortBy<T(==)>(s: seq<T>, cmp: (T, T) -> int): (r: seq<T>)
    ensures multiset(r) == multiset(s)
  {
    if s == [] then []
    else
      assert s == s[..|s| - 1] + [s[|s| - 1]];
      Insert(s[|s| - 1], SortBy(s[..|s| - 1], cmp), cmp)
  }

  lemma {:induction false} SortByLength<T>(s: seq<T>, cmp: (T, T) -> int)
    ensures |SortBy(s, cmp)| == |s|
  {
    assert |multiset(SortBy(s, cmp))| == |multiset(s)|;
  }

  /** With a total-preorder comparator the result is sorted. */
  lemma {:induction false} SortBySorted<T(!new)>(s: seq<T>, cmp: (T, T) -> int)
    requires TotalPreorder(cmp)
    ensures Sorted(SortBy(s, cmp), cmp)
  {
    if s != [] {
      SortBySorted(s[..|s| - 1], cmp);
      InsertSorted(s[|s| - 1], SortBy(s[..|s| - 1], cmp), cmp);
    }
  }

  /** `h` when it compares equal to `x`, else nothing. */
  function Tie<T>(h: T, x: T, cmp: (T, T) -> int): seq<T> {
    if cmp(h, x) == 0 then [h] else []
  }

  /** The elements of `s` that compare equal to `x`, in their order in `s`. */
  function Ties<T>(s: seq<T>, x: T, cmp: (T, T) -> int): (r: seq<T>)
    ensures |r| <= |s|
    ensures forall k :: 0 <= k < |r| ==> cmp(r[k], x) == 0
  {
    if s == [] then [] else Tie(s[0], x, cmp) + Ties(s[1..], x, cmp)
  }

  lemma {:induction false} TiesSnoc<T>(s: seq<T>, h: T, x: T, cmp: (T, T) -> int)
    ensures Ties(s + [h], x, cmp) == Ties(s, x, cmp) + Tie(h, x, cmp)
  {
    if s == [] {
      assert (s + [h])[1..] == [];
    } else {
      assert (s + [h])[0] == s[0] && (s + [h])[1..] == s[1..] + [h];
      TiesSnoc(s[1..], h, x, cmp);
    }
  }

  lemma {:induction false} TiesNone<T>(s: seq<T>, x: T, cmp: (T, T) -> int)
    requires forall k :: 0 <= k < |s| ==> cmp(s[k], x) != 0
    ensures Ties(s, x, cmp) == []
  {
    if s != [] {
      assert forall k :: 0 <= k < |s[1..]| ==> s[1..][k] == s[k + 1];
      TiesNone(s[1..], x, cmp);
    }
  }

  /** An element at or above one strictly above `y` is not tied with anything `y` is tied with. */
  lemma AboveNotTied<T(!new)>(y: T, a: T, b: T, x: T, cmp: (T, T) -> int)
    requires TotalPreorder(cmp) && cmp(y, a) < 0 && cmp(a, b) <= 0 && cmp(y, x) == 0
    ensures cmp(b, x) != 0
  {
    // b at or before x would put a at or before y, but y is strictly before a.
    assert cmp(x, y) <= 0 && cmp(a, y) > 0;
    assert cmp(a, b) <= 0 && cmp(b, x) <= 0 ==> cmp(a, x) <= 0;
    assert cmp(a, x) <= 0 && cmp(x, y) <= 0 ==> cmp(a, y) <= 0;
  }

  /** Inserting `y` into a sorted sequence puts it after every element tied with it. */
  lemma {:induction false} InsertTies<T(!new)>(y: T, t: seq<T>, x: T, cmp: (T, T) -> int)
    requires TotalPreorder(cmp) && Sorted(t, cmp)
    ensures Ties(Insert(y, t, cmp), x, cmp) == Ties(t, x, cmp) + Tie(y, x, cmp)
  {
    if t == [] {
      assert Insert(y, t, cmp)[1..] == [];
    } else if cmp(y, t[0]) < 0 {
      InsertTiesFront(y, t, x, cmp);
    } else {
      SortedTail(t, cmp);
      InsertTies(y, t[1..], x, cmp);
      InsertTiesStep(y, t, x, cmp);
    }
  }

  /** `y` goes in front of `t`, whose elements are all strictly above it and so tied with nothing it is tied with. */
  lemma InsertTiesFront<T(!new)>(y: T, t: seq<T>, x: T, cmp: (T, T) -> int)
    requires TotalPreorder(cmp) && Sorted(t, cmp) && t != [] && cmp(y, t[0]) < 0
    ensures Ties(Insert(y, t, cmp), x, cmp) == Ties(t, x, cmp) + Tie(y, x, cmp)
  {
    var r := Insert(y, t, cmp);
    assert r[0] == y && r[1..] == t;
    if cmp(y, x) == 0 {
      forall k | 0 <= k < |t| ensures cmp(t[k], x) != 0 {
        AboveNotTied(y, t[0], t[k], x, cmp);
      }
      TiesNone(t, x, cmp);
    }
  }

  /** `y` goes past the head of `t`. */
  lemma InsertTiesStep<T>(y: T, t: seq<T>, x: T, cmp: (T, T) -> int)
    requires t != [] && cmp(y, t[0]) >= 0
    requires Ties(Insert(y, t[1..], cmp), x, cmp) == Ties(t[1..], x, cmp) + Tie(y, x, cmp)
    ensures Ties(Insert(y, t, cmp), x, cmp) == Ties(t, x, cmp) + Tie(y, x, cmp)
  {
    var rest := Insert(y, t[1..], cmp);
    InsertPastHead(y, t, cmp);
    TiesCons(t[0], rest, x, cmp);
    TiesHead(t, x, cmp);
    ConcatShift(Ties(Insert(y, t, cmp), x, cmp), Ties(rest, x, cmp), Tie(t[0], x, cmp),
                Ties(t[1..], x, cmp), Tie(y, x, cmp), Ties(t, x, cmp));
  }

  lemma ConcatShift<T>(p: seq<T>, q: seq<T>, a: seq<T>, b: seq<T>, c: seq<T>, u: seq<T>)
    requires p == a + q && q == b + c && u == a + b
    ensures p == u + c
  {
    assert a + (b + c) == (a + b) + c;
  }

  lemma InsertPastHead<T>(y: T, t: seq<T>, cmp: (T, T) -> int)
    requires t != [] && cmp(y, t[0]) >= 0
    ensures Insert(y, t, cmp) == [t[0]] + Insert(y, t[1..], cmp)
  {
  }

  lemma TiesHead<T>(s: seq<T>, x: T, cmp: (T, T) -> int)
    requires s != []
    ensures Ties(s, x, cmp) == Tie(s[0], x, cmp) + Ties(s[1..], x, cmp)
  {
  }

  lemma TiesCons<T>(h: T, s: seq<T>, x: T, cmp: (T, T) -> int)
    ensures Ties([h] + s, x, cmp) == Tie(h, x, cmp) + Ties(s, x, cmp)
  {
    assert ([h] + s)[0] == h && ([h] + s)[1..] == s;
  }

  /**
   * Stability: the elements that compare equal to any `x` come out in the
   * order they went in.
   */
  lemma {:induction false} SortByStable<T(!new)>(s: seq<T>, x: T, cmp: (T, T) -> int)
    requires TotalPreorder(cmp)
    ensures Ties(SortBy(s, cmp), x, cmp) == Ties(s, x, cmp)
  {
    if s != [] {
      var init, last := s[..|s| - 1], s[|s| - 1];
      SortByStable(init, x, cmp);
      SortBySorted(init, cmp);
      InsertTies(last, SortBy(init, cmp), x, cmp);
      SortByLast(s, cmp);
      SplitLast(s);
      TiesSnoc(init, last, x, cmp);
    }
  }

  lemma SortByLast<T>(s: seq<T>, cmp: (T, T) -> int)
    requires s != []
    ensures SortBy(s, cmp) == Insert(s[|s| - 1], SortBy(s[..|s| - 1], cmp), cmp)
  {
  }

  lemma SplitLast<T>(s: seq<T>)
    requires s != []
    ensures s == s[..|s| - 1] + [s[|s| - 1]]
  {
  }
}
