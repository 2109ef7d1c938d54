/** Sorting by insertion, and the ascending arrangement of a list of integers. */
module Sorting {
  function Insert<T>(x: T, s: seq<T>, before: (T, T) -> bool): seq<T> {
    if s == [] || before(x, s[0]) then [x] + s else [s[0]] + Insert(x, s[1..], before)
  }

  function Sort<T>(s: seq<T>, before: (T, T) -> bool): seq<T> {
    if s == [] then [] else Insert(s[0], Sort(s[1..], before), before)
  }

  lemma {:induction false} InsertKeepsElements<T>(x: T, s: seq<T>, before: (T, T) -> bool)
    ensures multiset(Insert(x, s, before)) == multiset(s) + multiset{x}
  {
    if s != [] && !before(x, s[0]) {
      InsertKeepsElements(x, s[1..], before);
      assert s == [s[0]] + s[1..];
    }
  }

  lemma {:induction false} SortKeepsElements<T>(s: seq<T>, before: (T, T) -> bool)
    ensures multiset(Sort(s, before)) == multiset(s)
  {
    if s != [] {
      SortKeepsElements(s[1..], before);
      InsertKeepsElements(s[0], Sort(s[1..], before), before);
      assert s == [s[0]] + s[1..];
    }
  }

  // ---- integers ----

  predicate NotAbove(a: int, b: int) { a <= b }

  predicate Ascending(s: seq<int>) {
    |s| >= 2 ==> s[0] <= s[1] && Ascending(s[1..])
  }

  lemma {:induction false} InsertKeepsOrder(x: int, s: seq<int>)
    requires Ascending(s)
    ensures Ascending(Insert(x, s, NotAbove))
  {
    var r := Insert(x, s, NotAbove);
    if s == [] || x <= s[0] {
      assert r[1..] == s;
    } else {
      InsertKeepsOrder(x, s[1..]);
      assert r[1..] == Insert(x, s[1..], NotAbove);
    }
  }

  lemma {:induction false} SortIsSorted(s: seq<int>)
    ensures Ascending(Sort(s, NotAbove)) && multiset(Sort(s, NotAbove)) == multiset(s)
  {
    SortKeepsElements(s, NotAbove);
    if s != [] {
      SortIsSorted(s[1..]);
      InsertKeepsOrder(s[0], Sort(s[1..], NotAbove));
    }
  }

  lemma {:induction false} HeadIsLeast(s: seq<int>, x: int)
    requires Ascending(s) && x in multiset(s)
    ensures s[0] <= x
  {
    assert s == [s[0]] + s[1..];
    if x != s[0] { HeadIsLeast(s[1..], x); }
  }

  lemma SameRest(a: seq<int>, b: seq<int>)
    requires a != [] && b != [] && a[0] == b[0] && multiset(a) == multiset(b)
    ensures multiset(a[1..]) == multiset(b[1..])
  {
    assert a == [a[0]] + a[1..] && b == [b[0]] + b[1..];
    assert multiset(a[1..]) == multiset(a) - multiset{a[0]};
    assert multiset(b[1..]) == multiset(b) - multiset{a[0]};
  }

  /** A collection has one ascending arrangement. */
  lemma {:induction false} SortedUnique(a: seq<int>, b: seq<int>)
    requires Ascending(a) && Ascending(b) && multiset(a) == multiset(b)
    ensures a == b
  {
    assert |a| == |multiset(a)| && |b| == |multiset(b)|;
    if a != [] {
      assert a[0] in multiset(b) && b[0] in multiset(a);
      HeadIsLeast(a, b[0]);
      HeadIsLeast(b, a[0]);
      SameRest(a, b);
      SortedUnique(a[1..], b[1..]);
      assert a == [a[0]] + a[1..] && b == [b[0]] + b[1..];
    }
  }
}
