/** Delta debugging of failing runs: ddmin over fault ordinals, then a binary search for the step budget
    (raftverified/shrink.py). */
module Shrink {
  import opened Types
  import opened Lists

  // ---- sublists ----

  /** The elements of `elements` that are in `keep`, in their order. */
  function Restrict(elements: seq<int>, keep: set<int>): seq<int> {
    if elements == [] then []
    else (if elements[0] in keep then [elements[0]] else []) + Restrict(elements[1..], keep)
  }

  /** `[e for e in kept if e not in sub]` */
  function Minus(kept: seq<int>, sub: seq<int>): seq<int> {
    if kept == [] then []
    else (if kept[0] in sub then [] else [kept[0]]) + Minus(kept[1..], sub)
  }

  /** xs holds some elements of `elements`, in their order. */
  predicate Sublist(xs: seq<int>, elements: seq<int>) {
    Distinct(xs) && xs == Restrict(elements, Elements(xs))
  }

  function Elements(xs: seq<int>): set<int> { set x | x in xs }

  lemma {:induction false} RestrictAll(elements: seq<int>, keep: set<int>)
    requires forall x | x in elements :: x in keep
    ensures Restrict(elements, keep) == elements
  {
    if elements != [] {
      var first := elements[0];
      assert first in elements && elements == [first] + elements[1..];
      RestrictAll(elements[1..], keep);
    }
  }

  lemma {:induction false} RestrictMembers(elements: seq<int>, keep: set<int>)
    ensures forall x :: x in Restrict(elements, keep) <==> x in elements && x in keep
    ensures Distinct(elements) ==> Distinct(Restrict(elements, keep))
  {
    if elements != [] {
      RestrictMembers(elements[1..], keep);
      assert elements == [elements[0]] + elements[1..];
      if Distinct(elements) {
        assert elements[0] !in elements[1..];
        DistinctTail(elements);
        DistinctCons(elements[0], Restrict(elements[1..], keep));
      }
    }
  }

  lemma DistinctTail(xs: seq<int>)
    requires Distinct(xs) && xs != []
    ensures Distinct(xs[1..])
  {
    forall a, b | 0 <= a < b < |xs[1..]| ensures xs[1..][a] != xs[1..][b] { assert xs[a + 1] != xs[b + 1]; }
  }

  lemma DistinctCons(x: int, xs: seq<int>)
    requires Distinct(xs) && x !in xs
    ensures Distinct([x] + xs)
  {}

  lemma {:induction false} MinusRestricts(elements: seq<int>, keep: set<int>, sub: seq<int>)
    ensures Minus(Restrict(elements, keep), sub) == Restrict(elements, keep - Elements(sub))
  {
    if elements != [] {
      var rest := Restrict(elements[1..], keep);
      MinusRestricts(elements[1..], keep, sub);
      MinusConcat(if elements[0] in keep then [elements[0]] else [], rest, sub);
    }
  }

  lemma {:induction false} MinusOther(kept: seq<int>, sub: seq<int>)
    requires forall x | x in kept :: x !in sub
    ensures Minus(kept, sub) == kept
  {
    if kept != [] {
      var first := kept[0];
      assert first in kept && kept == [first] + kept[1..];
      MinusOther(kept[1..], sub);
    }
  }

  lemma {:induction false} MinusConcat(a: seq<int>, b: seq<int>, sub: seq<int>)
    ensures Minus(a + b, sub) == Minus(a, sub) + Minus(b, sub)
  {
    if a == [] {
      assert a + b == b;
    } else {
      assert (a + b)[1..] == a[1..] + b;
      MinusConcat(a[1..], b, sub);
    }
  }

  lemma {:induction false} MinusSelf(sub: seq<int>, all: seq<int>)
    requires forall x | x in sub :: x in all
    ensures Minus(sub, all) == []
  {
    if sub != [] {
      var first := sub[0];
      assert first in sub;
      MinusSelf(sub[1..], all);
    }
  }

  lemma SliceIsElsewhere(kept: seq<int>, i: nat, j: nat, a: nat)
    requires Distinct(kept) && i <= j <= |kept| && a < |kept| && !(i <= a < j)
    ensures kept[a] !in kept[i..j]
  {
    forall b | 0 <= b < |kept[i..j]| ensures kept[i..j][b] != kept[a] { assert kept[i..j][b] == kept[i + b]; }
  }

  /** Removing a slice of a list of distinct elements leaves what is before and after it. */
  lemma MinusSlice(kept: seq<int>, i: nat, j: nat)
    requires Distinct(kept) && i <= j <= |kept|
    ensures Minus(kept, kept[i..j]) == kept[..i] + kept[j..]
  {
    hide Minus, Distinct;
    var low, sub, high := kept[..i], kept[i..j], kept[j..];
    assert kept == low + (sub + high);
    MinusConcat(low, sub + high, sub);
    MinusConcat(sub, high, sub);
    MinusSelf(sub, sub);
    forall x | x in low ensures x !in sub {
      var a :| 0 <= a < i && kept[a] == x;
      SliceIsElsewhere(kept, i, j, a);
    }
    forall x | x in high ensures x !in sub {
      var a :| j <= a < |kept| && kept[a] == x;
      SliceIsElsewhere(kept, i, j, a);
    }
    MinusOther(low, sub);
    MinusOther(high, sub);
  }

  // ---- ddmin ----

  function WithoutAt(kept: seq<int>, i: nat): seq<int>
    requires i < |kept|
  {
    kept[..i] + kept[i + 1..]
  }

  /** No single remaining element can be removed. */
  ghost predicate OneMinimal(kept: seq<int>, reproduces: seq<int> -> bool) {
    forall i | 0 <= i < |kept| :: !reproduces(WithoutAt(kept, i))
  }

  function Chunk(size: nat, n: nat): (chunk: nat)
    requires n > 0
    ensures chunk > 0 && (n >= size ==> chunk == 1) && (n >= 2 ==> chunk == 1 || 2 * chunk <= size)
  {
    HalfAtMost(size, n);
    if size / n == 0 then 1 else size / n
  }

  lemma HalfAtMost(size: nat, n: nat)
    requires n > 0
    ensures n >= 2 ==> 2 * (size / n) <= size
  {
    var q := size / n;
    assert size == q * n + size % n;
    if n >= 2 { assert q * n == q * 2 + q * (n - 2) && q * (n - 2) >= 0; }
  }

  function SliceEnd(i: nat, chunk: nat, size: nat): nat { if i + chunk <= size then i + chunk else size }

  /** Without its c-th slice of this size the list does not reproduce. */
  predicate Stays(elements: seq<int>, c: nat, chunk: nat, reproduces: seq<int> -> bool) {
    var i := c * chunk;
    i < |elements| ==> !reproduces(Minus(elements, elements[i..SliceEnd(i, chunk, |elements|)]))
  }

  /** No slice can be removed, at n slices or more: every round doubles their number up to single elements. */
  ghost predicate NoSliceCanGo(elements: seq<int>, n: nat, reproduces: seq<int> -> bool)
    requires n >= 2
    decreases |elements| - n
  {
    && (forall c: nat :: Stays(elements, c, Chunk(|elements|, n), reproduces))
    && (n < |elements| ==> NoSliceCanGo(elements, Finer(n, |elements|), reproduces))
  }

  function Finer(n: nat, size: nat): nat { if n * 2 < size then n * 2 else size }

  /** The first complement of a slice that still reproduces, if any. */
  method FirstComplement(kept: seq<int>, chunk: nat, reproduces: seq<int> -> bool) returns (found: Option<seq<int>>, i: nat)
    requires Distinct(kept) && 0 < chunk < |kept|
    ensures found.Some? ==> found.value != [] && reproduces(found.value)
                            && i < |kept| && found.value == Minus(kept, kept[i..SliceEnd(i, chunk, |kept|)])
    ensures found.None? <==> forall c: nat :: Stays(kept, c, chunk, reproduces)
    ensures found.None? && chunk == 1 ==> OneMinimal(kept, reproduces)
  {
    hide Minus, Distinct;
    i := 0;
    ghost var c: nat := 0;
    while i < |kept|
      invariant i == c * chunk
      invariant forall x | 0 <= x < c :: Stays(kept, x, chunk, reproduces)
      decreases |kept| - i
    {
      var sub := kept[i..SliceEnd(i, chunk, |kept|)];
      var complement := Minus(kept, sub);
      MinusSlice(kept, i, SliceEnd(i, chunk, |kept|));
      if complement != [] && reproduces(complement) {
        assert !Stays(kept, c, chunk, reproduces);
        return Some(complement), i;
      }
      i, c := i + chunk, c + 1;
    }
    found := None;
    forall x: nat ensures Stays(kept, x, chunk, reproduces) {
      if x >= c { Later(c, x, chunk); }
    }
    if chunk == 1 { SinglesStay(kept, reproduces); }
  }

  lemma Later(c: nat, x: nat, chunk: nat)
    requires c <= x
    ensures c * chunk <= x * chunk
  {
    assert x * chunk == c * chunk + (x - c) * chunk;
  }

  lemma SinglesStay(kept: seq<int>, reproduces: seq<int> -> bool)
    requires Distinct(kept) && forall c: nat :: Stays(kept, c, 1, reproduces)
    ensures OneMinimal(kept, reproduces)
  {
    hide Minus, Distinct;
    forall i | 0 <= i < |kept| ensures !reproduces(WithoutAt(kept, i)) {
      assert Stays(kept, i, 1, reproduces);
      MinusSlice(kept, i, i + 1);
    }
  }

  /** Delta debugging. Whatever the (deterministic) predicate, the result is a sublist from which no single
      element can be removed, and it reproduces if the whole list does. Nothing is removed exactly when nothing that
      is tried on the whole list reproduces. */
  method Ddmin(elements: seq<int>, reproduces: seq<int> -> bool) returns (kept: seq<int>)
    requires Distinct(elements)
    ensures Sublist(kept, elements)
    ensures reproduces(elements) ==> reproduces(kept)
    ensures kept != elements ==> reproduces(kept)
    ensures OneMinimal(kept, reproduces)
    ensures kept == elements <==> elements == [] || (!reproduces([]) && (|elements| >= 2 ==> NoSliceCanGo(elements, 2, reproduces)))
  {
    hide Sublist, Minus, OneMinimal, Distinct, Chunk, Stays;
    if reproduces([]) {
      NothingMinimal(reproduces);
      NothingIsSublist(elements);
      return [];
    }
    kept := elements;
    var n := 2;
    AllIsSublist(elements);
    while |kept| >= 2
      invariant n >= 2 && Sublist(kept, elements)
      invariant kept == elements && |kept| >= 2 ==> (NoSliceCanGo(elements, 2, reproduces) <==> NoSliceCanGo(elements, n, reproduces))
      invariant kept != elements ==> reproduces(kept) && |elements| >= 2 && !NoSliceCanGo(elements, 2, reproduces)
      decreases |kept|, if n < |kept| then |kept| - n else 0
    {
      var chunk := Chunk(|kept|, n);
      SublistDistinct(kept, elements);
      var found, i := FirstComplement(kept, chunk, reproduces);
      if found.Some? {
        Reduced(elements, kept, i, SliceEnd(i, chunk, |kept|));
        kept := found.value;
        n := if n - 1 > 2 then n - 1 else 2;
      } else {
        if n >= |kept| {
          assert chunk == 1;
          return;
        }
        n := if n * 2 < |kept| then n * 2 else |kept|;
      }
    }
    OneIsMinimal(kept, reproduces);
  }

  lemma NothingMinimal(reproduces: seq<int> -> bool)
    ensures OneMinimal([], reproduces)
  {}

  lemma AllIsSublist(elements: seq<int>)
    requires Distinct(elements)
    ensures Sublist(elements, elements)
  {
    RestrictAll(elements, Elements(elements));
  }

  lemma NothingIsSublist(elements: seq<int>)
    ensures Sublist([], elements)
  {
    RestrictNothing(elements);
  }

  lemma SublistDistinct(kept: seq<int>, elements: seq<int>)
    requires Sublist(kept, elements)
    ensures Distinct(kept)
  {}

  /** A single element is minimal if nothing at all does not reproduce. */
  lemma OneIsMinimal(kept: seq<int>, reproduces: seq<int> -> bool)
    requires |kept| <= 1 && !reproduces([])
    ensures OneMinimal(kept, reproduces)
  {
    if |kept| == 1 { assert WithoutAt(kept, 0) == []; }
  }

  lemma {:induction false} RestrictNothing(elements: seq<int>)
    ensures Restrict(elements, Elements([])) == []
  {
    if elements != [] { RestrictNothing(elements[1..]); }
  }

  lemma Reduced(elements: seq<int>, kept: seq<int>, i: nat, j: nat)
    requires i < j <= |kept| && Sublist(kept, elements)
    ensures var less := Minus(kept, kept[i..j]);
            |less| < |kept| && Sublist(less, elements)
  {
    hide Restrict, Minus, Elements;
    MinusSlice(kept, i, j);
    MinusRestricts(elements, Elements(kept), kept[i..j]);
    RestrictAgain(elements, Elements(kept) - Elements(kept[i..j]));
  }

  /** A restriction is the restriction to its own elements. */
  lemma RestrictAgain(elements: seq<int>, keep: set<int>)
    ensures Restrict(elements, keep) == Restrict(elements, Elements(Restrict(elements, keep)))
  {
    RestrictMembers(elements, keep);
    RestrictBy(elements, keep, Elements(Restrict(elements, keep)));
  }

  lemma {:induction false} RestrictBy(elements: seq<int>, a: set<int>, b: set<int>)
    requires forall x | x in elements :: x in a <==> x in b
    ensures Restrict(elements, a) == Restrict(elements, b)
  {
    if elements != [] {
      var first := elements[0];
      assert first in elements;
      RestrictBy(elements[1..], a, b);
    }
  }

  // ---- the step budget ----

  ghost predicate Monotone(reproduces: int -> bool) {
    forall a: int, b: int | a <= b && reproduces(a) :: reproduces(b)
  }

  /** `_min_steps`: a budget that still reproduces, the least one if reproduction is monotone. */
  method MinSteps(steps: nat, reproduces: int -> bool) returns (lo: nat)
    ensures 1 <= lo && (steps >= 1 ==> lo <= steps)
    ensures steps >= 1 && reproduces(steps) ==> reproduces(lo)
    ensures Monotone(reproduces) ==> forall m | 1 <= m < lo :: !reproduces(m)
  {
    var hi := steps;
    lo := 1;
    while lo < hi
      invariant 1 <= lo && (steps >= 1 ==> lo <= hi <= steps)
      invariant hi == steps || reproduces(hi)
      invariant Monotone(reproduces) ==> forall m | 1 <= m < lo :: !reproduces(m)
    {
      var mid := (lo + hi) / 2;
      if reproduces(mid) {
        hi := mid;
      } else {
        lo := mid + 1;
      }
    }
  }

  /** Failing with a step budget means failing with any larger one. */
  ghost predicate MonotoneIn(fails: (set<int>, int) -> bool, mask: set<int>) {
    forall a: int, b: int | a <= b && fails(mask, a) :: fails(mask, b)
  }

  // ---- the composition ----

  /** `fails(mask, steps)`: the run with these fault ordinals suppressed shows the target failure. */
  datatype Reduction = Reduction(suppressed: set<int>, steps: nat)

  function UpTo(n: nat): (xs: seq<int>)
    ensures |xs| == n && forall x | 0 <= x < n :: xs[x] == x
  {
    seq(n, i => i)
  }

  lemma UpToMembers(n: nat)
    ensures Distinct(UpTo(n)) && forall x :: x in UpTo(n) <==> 0 <= x < n
  {
    forall x | 0 <= x < n ensures x in UpTo(n) { assert UpTo(n)[x] == x; }
  }

  function Mask(total: nat, kept: seq<int>): set<int> { Elements(UpTo(total)) - Elements(kept) }

  predicate InRange(i: nat, x: int, j: nat) { i <= x < j }

  function Range(i: nat, j: nat): set<int> { set x | 0 <= x < j && InRange(i, x, j) }

  /** Suppressing the c-th of the ranges of this size shows the failure. */
  predicate RangeFails(total: nat, c: nat, chunk: nat, steps: int, fails: (set<int>, int) -> bool) {
    var i := c * chunk;
    i < total && fails(Range(i, SliceEnd(i, chunk, total)), steps)
  }

  /** So does one of the ranges the search begins with: halves, quarters and so on down to single faults. */
  ghost predicate SomeRangeFails(total: nat, n: nat, steps: int, fails: (set<int>, int) -> bool)
    requires n >= 2
    decreases total - n
  {
    || (exists c: nat :: RangeFails(total, c, Chunk(total, n), steps, fails))
    || (n < total && SomeRangeFails(total, Finer(n, total), steps, fails))
  }

  /** What has to fail for the reduced run to fail: the run without any suppression, the one without any fault, or
      one of the first ranges. */
  ghost predicate SomeStartFails(total: nat, steps: int, fails: (set<int>, int) -> bool) {
    fails({}, steps) || fails(Range(0, total), steps) || (total >= 2 && SomeRangeFails(total, 2, steps, fails))
  }

  /** `shrink` of a failing run with `total` faults, started with the faults in `mask` suppressed. With the
      original step budget no single remaining fault can be suppressed, and the reduced run fails the same way exactly
      when one of the first things it can be reduced to does: always without a mask, or if the run also fails without
      any suppression, but not for every mask, since the search starts over from no suppression at all. With the
      reduced budget that is exact too, provided that a failure lasts. */
  method Reduce(total: nat, steps: nat, mask: set<int>, fails: (set<int>, int) -> bool) returns (r: Option<Reduction>)
    ensures r.Some? <==> fails(mask, steps)
    ensures r.Some? ==> 1 <= r.value.steps && (steps >= 1 ==> r.value.steps <= steps) && forall i | i in r.value.suppressed :: 0 <= i < total
    ensures r.Some? ==> (fails(r.value.suppressed, steps) <==> SomeStartFails(total, steps, fails))
    ensures r.Some? && (mask == {} || fails({}, steps)) ==> SomeStartFails(total, steps, fails)
    ensures r.Some? && SomeStartFails(total, steps, fails) && steps >= 1 ==> fails(r.value.suppressed, r.value.steps)
    ensures r.Some? && steps >= 1 && MonotoneIn(fails, r.value.suppressed) ==>
              (fails(r.value.suppressed, r.value.steps) <==> SomeStartFails(total, steps, fails))
    ensures r.Some? && !SomeStartFails(total, steps, fails) ==> r.value.suppressed == {}
    ensures r.Some? ==> forall i | 0 <= i < total && i !in r.value.suppressed :: !fails(r.value.suppressed + {i}, steps)
    ensures r.Some? && MonotoneIn(fails, r.value.suppressed) ==>
              forall m | 1 <= m < r.value.steps :: !fails(r.value.suppressed, m)
  {
    hide SomeRangeFails, NoSliceCanGo, OneMinimal, Sublist;
    if !fails(mask, steps) {
      return None;
    }
    var reproduces := kept => fails(Mask(total, kept), steps);
    UpToMembers(total);
    assert Mask(total, UpTo(total)) == {};
    assert Mask(total, []) == Range(0, total);
    RangesAreSlices(total, 2, steps, fails, reproduces);
    var kept := Ddmin(UpTo(total), reproduces);
    var suppressed := Mask(total, kept);
    NothingSuppressed(total, kept);
    SingleFaults(total, kept, steps, fails);
    var withBudget := s => fails(suppressed, s);
    assert MonotoneIn(fails, suppressed) ==> Monotone(withBudget);
    var budget := MinSteps(steps, withBudget);
    forall m | MonotoneIn(fails, suppressed) && 1 <= m < budget ensures !fails(suppressed, m) { assert !withBudget(m); }
    r := Some(Reduction(suppressed, budget));
  }

  lemma NothingSuppressed(total: nat, kept: seq<int>)
    requires Sublist(kept, UpTo(total))
    ensures Mask(total, kept) == {} <==> kept == UpTo(total)
  {
    UpToMembers(total);
    if Mask(total, kept) == {} {
      forall x | x in UpTo(total) ensures x in Elements(kept) { assert x !in Mask(total, kept); }
      RestrictAll(UpTo(total), Elements(kept));
    }
  }

  lemma {:induction false} RangesAreSlices(total: nat, n: nat, steps: int, fails: (set<int>, int) -> bool, reproduces: seq<int> -> bool)
    requires n >= 2 && forall kept :: reproduces(kept) == fails(Mask(total, kept), steps)
    ensures SomeRangeFails(total, n, steps, fails) <==> !NoSliceCanGo(UpTo(total), n, reproduces)
    decreases total - n
  {
    hide Chunk, Mask, Minus, Range;
    var all := UpTo(total);
    UpToMembers(total);
    forall c: nat ensures RangeFails(total, c, Chunk(total, n), steps, fails) <==> !Stays(all, c, Chunk(total, n), reproduces) {
      var i, chunk := c * Chunk(total, n), Chunk(total, n);
      if i < total { WithoutRange(total, i, SliceEnd(i, chunk, total)); }
    }
    if n < total { RangesAreSlices(total, Finer(n, total), steps, fails, reproduces); }
  }

  lemma WithoutRange(total: nat, i: nat, j: nat)
    requires i < j <= total
    ensures Mask(total, Minus(UpTo(total), UpTo(total)[i..j])) == Range(i, j)
  {
    var all := UpTo(total);
    UpToMembers(total);
    MinusSlice(all, i, j);
    var left := all[..i] + all[j..];
    forall x | x in Elements(all) ensures x in Elements(left) <==> !(i <= x < j) {
      if x < i { assert left[x] == x; }
      if x >= j { assert left[i + (x - j)] == x; }
      if x in left {
        var y :| 0 <= y < |left| && left[y] == x;
        assert left[y] == if y < i then y else j + (y - i);
      }
    }
  }

  /** A run that fails exactly when the first two of its three faults are suppressed comes out as the run with
      nothing suppressed, which does not fail. */
  method LosesTheMask() returns (r: Option<Reduction>)
    ensures OnlyFirstTwo({0, 1}, 10) && !SomeStartFails(3, 10, OnlyFirstTwo)
    ensures r.Some? && r.value.suppressed == {} && !OnlyFirstTwo(r.value.suppressed, r.value.steps)
  {
    NoStartFails();
    r := Reduce(3, 10, {0, 1}, OnlyFirstTwo);
  }

  lemma NoStartFails()
    ensures !SomeStartFails(3, 10, OnlyFirstTwo) && !OnlyFirstTwo({}, 10)
  {
    assert 0 in {0, 1} && 1 in {0, 1} && 2 !in {0, 1} && 2 in Range(0, 3);
    forall c: nat ensures !RangeFails(3, c, 1, 10, OnlyFirstTwo) {
      assert 0 in Range(c, c + 1) ==> 1 !in Range(c, c + 1);
    }
    assert Chunk(3, 2) == 1 && Chunk(3, 3) == 1 && Finer(2, 3) == 3;
  }

  predicate OnlyFirstTwo(suppressed: set<int>, steps: int) { suppressed == {0, 1} }

  lemma SingleFaults(total: nat, kept: seq<int>, steps: int, fails: (set<int>, int) -> bool)
    requires Sublist(kept, UpTo(total))
    requires OneMinimal(kept, k => fails(Mask(total, k), steps))
    ensures forall i | 0 <= i < total && i !in Mask(total, kept) :: !fails(Mask(total, kept) + {i}, steps)
  {
    hide Sublist, Mask, Elements;
    forall i | 0 <= i < total && i !in Mask(total, kept) ensures !fails(Mask(total, kept) + {i}, steps) {
      var x := UnmaskFault(total, kept, i);
      assert !(k => fails(Mask(total, k), steps))(WithoutAt(kept, x));
    }
  }

  /** Suppressing one more fault is dropping one kept element. */
  lemma UnmaskFault(total: nat, kept: seq<int>, i: int) returns (x: nat)
    requires Sublist(kept, UpTo(total)) && 0 <= i < total && i !in Mask(total, kept)
    ensures x < |kept| && Mask(total, WithoutAt(kept, x)) == Mask(total, kept) + {i}
  {
    hide Restrict;
    RestrictMembers(UpTo(total), Elements(kept));
    UpToMembers(total);
    assert i in UpTo(total) && i in kept;
    x :| x < |kept| && kept[x] == i;
    DropsOne(kept, x);
    assert Elements(UpTo(total)) >= Elements(kept);
  }

  lemma DropsOne(kept: seq<int>, x: nat)
    requires Distinct(kept) && x < |kept|
    ensures Elements(WithoutAt(kept, x)) == Elements(kept) - {kept[x]}
  {
    var less := WithoutAt(kept, x);
    forall y | y in Elements(less) ensures y in Elements(kept) && y != kept[x] {
      var z :| 0 <= z < |less| && less[z] == y;
      assert less[z] == kept[if z < x then z else z + 1];
    }
    forall y | y in Elements(kept) && y != kept[x] ensures y in Elements(less) {
      var z :| 0 <= z < |kept| && kept[z] == y;
      assert less[if z < x then z else z - 1] == y;
    }
  }
}
