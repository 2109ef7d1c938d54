/** Majorities, and the overlap argument behind single-server membership changes. */
module Quorums {
  import opened Types

  /** `q` holds more than half of `voters` (servers of `q` outside `voters` do not count). */
  predicate Majority(q: set<NodeId>, voters: set<NodeId>) {
    |q * voters| * 2 > |voters|
  }

  /** The two sets differ by exactly one server. */
  predicate OneApart(a: set<NodeId>, b: set<NodeId>) {
    |(a - b) + (b - a)| == 1
  }

  predicate Close(a: set<NodeId>, b: set<NodeId>) {
    a == b || OneApart(a, b)
  }

  lemma SubsetSize(a: set<NodeId>, b: set<NodeId>)
    requires a <= b
    ensures |a| <= |b|
  {
    assert b == a + (b - a);
  }

  /** Majorities of two configurations that are equal or one server apart share a server. */
  lemma MajoritiesMeet(q: set<NodeId>, a: set<NodeId>, r: set<NodeId>, b: set<NodeId>)
    requires Majority(q, a) && Majority(r, b) && Close(a, b)
    ensures exists v :: v in q && v in r && v in a && v in b
  {
    var x, y := q * a, r * b;
    SizeOfCommonPart(a, b);
    SizeOfUnion(a, b);
    assert |x| + |y| > |a + b|;
    SizeOfUnion(x, y);
    SubsetSize(x + y, a + b);
    assert |x * y| > 0;
    var v :| v in x * y;
    assert v in q && v in r && v in a && v in b;
  }

  lemma SizeOfUnion(a: set<NodeId>, b: set<NodeId>)
    ensures |a + b| + |a * b| == |a| + |b|
    ensures |a + b| == |a * b| + |(a - b) + (b - a)|
  {
    var d := (a - b) + (b - a);
    assert a + b == (a * b) + d && (a * b) * d == {};
    SizeOfCommonPart(a, b);
  }

  lemma SizeOfCommonPart(a: set<NodeId>, b: set<NodeId>)
    ensures |a| + |b| == 2 * |a * b| + |(a - b) + (b - a)|
  {
    assert a == (a * b) + (a - b) && (a * b) * (a - b) == {};
    assert b == (a * b) + (b - a) && (a * b) * (b - a) == {};
    assert (a - b) * (b - a) == {};
  }
}
