/** What it means for recorded client operations to be linearizable, and the facts about minimal
    operations that the search rests on (raftverified/linearizability.py). */
module Linearizability {
  import opened Types
  import opened Kv
  import opened Lists

  /** One client operation; `returned` and `observed` are set once it completes. */
  datatype HistoryEntry = HistoryEntry(command: Command, invoked: nat, returned: Option<nat>, observed: string)
  {
    predicate Completed() { returned.Some? }
    function Return(): nat { if returned.Some? then returned.value else 0 }
  }

  type Store = map<string, string>

  /** Each operation sees what a single copy would have answered at its place. */
  predicate Legal(store: Store, lin: seq<HistoryEntry>)
    decreases |lin|
  {
    lin == [] || (Answers(store, lin[0]) && Legal(After(store, lin[0]), lin[1..]))
  }

  /** The sequential reference (`_apply`); an unknown operation does nothing and answers "". */
  function Respond(store: Store, cmd: Command): (Store, string) {
    if cmd.Kv? then Execute(store, cmd) else (store, "")
  }

  predicate Answers(store: Store, e: HistoryEntry) { Respond(store, e.command).1 == e.observed }

  function After(store: Store, e: HistoryEntry): Store { Respond(store, e.command).0 }

  /** No operation comes after one that was invoked only when it had already returned. */
  predicate InRealTime(lin: seq<HistoryEntry>) {
    forall a, b | 0 <= a < b < |lin| :: !(lin[b].Return() < lin[a].invoked)
  }

  predicate IsLinearization(ops: seq<HistoryEntry>, lin: seq<HistoryEntry>) {
    multiset(lin) == multiset(ops) && InRealTime(lin) && Legal(map[], lin)
  }

  ghost predicate Linearizable(ops: seq<HistoryEntry>) {
    exists lin :: IsLinearization(ops, lin)
  }

  /** Operations that never returned are left out. */
  function CompletedOf(history: seq<HistoryEntry>): seq<HistoryEntry> {
    if history == [] then []
    else (if history[0].Completed() then [history[0]] else []) + CompletedOf(history[1..])
  }

  lemma {:induction false} CompletedConcat(a: seq<HistoryEntry>, b: seq<HistoryEntry>)
    ensures CompletedOf(a + b) == CompletedOf(a) + CompletedOf(b)
  {
    if a == [] {
      assert a + b == b;
    } else {
      assert (a + b)[0] == a[0] && (a + b)[1..] == a[1..] + b;
      CompletedConcat(a[1..], b);
    }
  }

  /** Exactly the rows that returned, each as often as it was recorded, in the order of the record. */
  lemma {:induction false} CompletedExactly(history: seq<HistoryEntry>, e: HistoryEntry, k: nat)
    requires k <= |history|
    ensures multiset(CompletedOf(history))[e] == if e.returned.Some? then multiset(history)[e] else 0
    ensures CompletedOf(history) == CompletedOf(history[..k]) + CompletedOf(history[k..])
  {
    if history != [] {
      assert history == [history[0]] + history[1..];
      CompletedExactly(history[1..], e, 0);
    }
    CompletedConcat(history[..k], history[k..]);
    assert history[..k] + history[k..] == history;
  }

  // ---- placing one operation after another ----

  predicate Within(ops: seq<HistoryEntry>, pending: seq<nat>) {
    forall x | 0 <= x < |pending| :: pending[x] < |ops|
  }

  /** The operations at the given positions. */
  function Pick(ops: seq<HistoryEntry>, pending: seq<nat>): (picked: seq<HistoryEntry>)
    requires Within(ops, pending)
    ensures |picked| == |pending| && forall x | 0 <= x < |pending| :: picked[x] == ops[pending[x]]
  {
    if pending == [] then [] else [ops[pending[0]]] + Pick(ops, pending[1..])
  }

  function Without(pending: seq<nat>, p: nat): (rest: seq<nat>)
    ensures |rest| <= |pending| && (p in pending ==> |rest| < |pending|)
    ensures forall x | 0 <= x < |rest| :: rest[x] in pending && rest[x] != p
  {
    if pending == [] then []
    else if pending[0] == p then Without(pending[1..], p)
    else [pending[0]] + Without(pending[1..], p)
  }

  /** p may be placed next: no other pending operation returned before p was invoked. */
  predicate MayBeNext(ops: seq<HistoryEntry>, pending: seq<nat>, p: nat)
    requires Within(ops, pending)
  {
    && p in pending && p < |ops|
    && forall x | 0 <= x < |pending| && pending[x] != p :: ops[p].invoked <= ops[pending[x]].Return()
  }

  /** The pending operations can be placed one after another, starting from `store`. */
  ghost predicate Solvable(ops: seq<HistoryEntry>, store: Store, pending: seq<nat>)
    requires Within(ops, pending)
    decreases |pending|
  {
    pending == [] || exists p: nat :: SolvableBy(ops, store, pending, p)
  }

  ghost predicate SolvableBy(ops: seq<HistoryEntry>, store: Store, pending: seq<nat>, p: nat)
    requires Within(ops, pending)
    decreases |pending|, 0
  {
    && MayBeNext(ops, pending, p) && Answers(store, ops[p])
    && Solvable(ops, After(store, ops[p]), Without(pending, p))
  }

  lemma SolvableNext(ops: seq<HistoryEntry>, store: Store, pending: seq<nat>) returns (p: nat)
    requires Within(ops, pending) && pending != [] && Solvable(ops, store, pending)
    ensures SolvableBy(ops, store, pending, p)
  {
    p :| SolvableBy(ops, store, pending, p);
  }

  ghost predicate Orders(ops: seq<HistoryEntry>, store: Store, pending: seq<nat>, lin: seq<HistoryEntry>)
    requires Within(ops, pending)
  {
    multiset(lin) == multiset(Pick(ops, pending)) && InRealTime(lin) && Legal(store, lin)
  }

  lemma {:induction false} WithoutAbsent(pending: seq<nat>, p: nat)
    requires p !in pending
    ensures Without(pending, p) == pending
  {
    if pending != [] { WithoutAbsent(pending[1..], p); }
  }

  lemma {:induction false} WithoutDistinct(pending: seq<nat>, p: nat)
    requires Distinct(pending)
    ensures Distinct(Without(pending, p))
    ensures p in pending ==> |Without(pending, p)| == |pending| - 1
  {
    if pending != [] {
      assert pending[0] !in pending[1..];
      if pending[0] == p { WithoutAbsent(pending[1..], p); } else { WithoutDistinct(pending[1..], p); }
    }
  }

  lemma PickCons(ops: seq<HistoryEntry>, x: nat, rest: seq<nat>)
    requires x < |ops| && Within(ops, rest)
    ensures Within(ops, [x] + rest)
    ensures multiset(Pick(ops, [x] + rest)) == multiset{ops[x]} + multiset(Pick(ops, rest))
  {
    assert ([x] + rest)[1..] == rest;
  }

  lemma WithoutCons(x: nat, tail: seq<nat>, p: nat)
    ensures Without([x] + tail, p) == if x == p then Without(tail, p) else [x] + Without(tail, p)
  {
    assert ([x] + tail)[1..] == tail;
  }

  lemma {:induction false} PickWithout(ops: seq<HistoryEntry>, pending: seq<nat>, p: nat)
    requires Within(ops, pending) && Distinct(pending) && p in pending
    ensures multiset(Pick(ops, pending)) == multiset(Pick(ops, Without(pending, p))) + multiset{ops[p]}
  {
    hide Pick, Without;
    var x, tail := pending[0], pending[1..];
    assert pending == [x] + tail && x !in tail;
    PickCons(ops, x, tail);
    WithoutCons(x, tail, p);
    if x == p {
      WithoutAbsent(tail, p);
    } else {
      PickWithout(ops, tail, p);
      PickCons(ops, x, Without(tail, p));
    }
  }

  lemma PickedAt(ops: seq<HistoryEntry>, pending: seq<nat>, e: HistoryEntry) returns (p: nat)
    requires Within(ops, pending) && e in multiset(Pick(ops, pending))
    ensures p in pending && ops[p] == e
  {
    var x :| 0 <= x < |pending| && Pick(ops, pending)[x] == e;
    p := pending[x];
  }

  lemma PlacedAt(ops: seq<HistoryEntry>, rest: seq<nat>, lin: seq<HistoryEntry>, q: nat) returns (z: nat)
    requires Within(ops, rest) && multiset(lin) == multiset(Pick(ops, rest)) && q in rest
    ensures z < |lin| && q < |ops| && lin[z] == ops[q]
  {
    hide Pick;
    var y :| 0 <= y < |rest| && rest[y] == q;
    assert Pick(ops, rest)[y] in multiset(lin);
    z :| 0 <= z < |lin| && lin[z] == ops[q];
  }

  lemma FirstMayBeNext(ops: seq<HistoryEntry>, pending: seq<nat>, p: nat, lin: seq<HistoryEntry>)
    requires Within(ops, pending) && Distinct(pending) && p in pending
    requires multiset(lin) == multiset(Pick(ops, Without(pending, p)))
    requires InRealTime([ops[p]] + lin)
    ensures MayBeNext(ops, pending, p)
  {
    hide Pick, Without;
    forall x | 0 <= x < |pending| && pending[x] != p ensures ops[p].invoked <= ops[pending[x]].Return() {
      StillThere(pending, p, x);
      var z := PlacedAt(ops, Without(pending, p), lin, pending[x]);
      FirstBefore(ops[p], lin, z);
    }
  }

  lemma FirstBefore(e: HistoryEntry, lin: seq<HistoryEntry>, z: nat)
    requires InRealTime([e] + lin) && z < |lin|
    ensures e.invoked <= lin[z].Return()
  {
    var whole := [e] + lin;
    assert whole[0] == e && whole[z + 1] == lin[z];
  }

  lemma {:induction false} StillThere(pending: seq<nat>, p: nat, x: nat)
    requires x < |pending| && pending[x] != p
    ensures pending[x] in Without(pending, p)
  {
    if x > 0 { StillThere(pending[1..], p, x - 1); }
  }

  lemma RealTimeTail(e: HistoryEntry, lin: seq<HistoryEntry>)
    requires InRealTime([e] + lin)
    ensures InRealTime(lin)
  {
    var whole := [e] + lin;
    forall a, b | 0 <= a < b < |lin| ensures !(lin[b].Return() < lin[a].invoked) {
      assert whole[a + 1] == lin[a] && whole[b + 1] == lin[b];
    }
  }

  lemma FirstIsMinimal(ops: seq<HistoryEntry>, pending: seq<nat>, p: nat, lin: seq<HistoryEntry>, b: nat)
    requires Within(ops, pending) && MayBeNext(ops, pending, p) && b < |lin|
    requires multiset(lin) == multiset(Pick(ops, Without(pending, p)))
    ensures ops[p].invoked <= lin[b].Return()
  {
    hide Pick, Without;
    assert lin[b] in multiset(lin);
    var q := PickedAt(ops, Without(pending, p), lin[b]);
    assert q in pending && q != p;
  }

  lemma RealTimeCons(ops: seq<HistoryEntry>, pending: seq<nat>, p: nat, lin: seq<HistoryEntry>)
    requires Within(ops, pending) && MayBeNext(ops, pending, p) && InRealTime(lin)
    requires multiset(lin) == multiset(Pick(ops, Without(pending, p)))
    ensures InRealTime([ops[p]] + lin)
  {
    hide Pick, Without;
    var whole := [ops[p]] + lin;
    forall a, b | 0 <= a < b < |whole| ensures !(whole[b].Return() < whole[a].invoked) {
      assert whole[b] == lin[b - 1];
      if a == 0 {
        FirstIsMinimal(ops, pending, p, lin, b - 1);
      } else {
        assert whole[a] == lin[a - 1];
      }
    }
  }

  /** Searching forward finds an order exactly when there is one. */
  lemma {:induction false} OrderSolves(ops: seq<HistoryEntry>, store: Store, pending: seq<nat>, lin: seq<HistoryEntry>)
    requires Within(ops, pending) && Distinct(pending) && Orders(ops, store, pending, lin)
    ensures Solvable(ops, store, pending)
    decreases |pending|
  {
    hide Pick, Without, InRealTime, Answers, After, MayBeNext;
    if pending != [] {
      assert |multiset(lin)| == |multiset(Pick(ops, pending))|;
      var rest := lin[1..];
      assert lin == [lin[0]] + rest;
      assert multiset(lin) == multiset{lin[0]} + multiset(rest);
      var p := PickedAt(ops, pending, lin[0]);
      PickWithout(ops, pending, p);
      WithoutDistinct(pending, p);
      assert multiset(rest) == multiset(lin) - multiset{lin[0]};
      assert multiset(Pick(ops, Without(pending, p))) == multiset(Pick(ops, pending)) - multiset{lin[0]};
      FirstMayBeNext(ops, pending, p, rest);
      RealTimeTail(lin[0], rest);
      OrderSolves(ops, After(store, ops[p]), Without(pending, p), rest);
      assert SolvableBy(ops, store, pending, p);
    }
  }

  lemma NothingInOrder(ops: seq<HistoryEntry>, store: Store)
    ensures Within(ops, []) && Orders(ops, store, [], [])
  {}

  lemma {:induction false} SolvableHasOrder(ops: seq<HistoryEntry>, store: Store, pending: seq<nat>) returns (lin: seq<HistoryEntry>)
    requires Within(ops, pending) && Distinct(pending) && Solvable(ops, store, pending)
    ensures Orders(ops, store, pending, lin)
    decreases |pending|
  {
    hide Pick, Without, InRealTime, After;
    lin := [];
    if pending == [] {
      NothingInOrder(ops, store);
    } else {
      var p := SolvableNext(ops, store, pending);
      WithoutDistinct(pending, p);
      var rest := SolvableHasOrder(ops, After(store, ops[p]), Without(pending, p));
      PickWithout(ops, pending, p);
      RealTimeCons(ops, pending, p, rest);
      lin := [ops[p]] + rest;
      assert lin[1..] == rest;
    }
  }

  function Positions(n: nat): (all: seq<nat>)
    ensures |all| == n && forall x | 0 <= x < n :: all[x] == x
  {
    seq(n, x => x)
  }

  lemma PickAll(ops: seq<HistoryEntry>)
    ensures Within(ops, Positions(|ops|)) && Distinct(Positions(|ops|)) && Pick(ops, Positions(|ops|)) == ops
  {}

  lemma SolvableIsLinearizable(ops: seq<HistoryEntry>)
    ensures Within(ops, Positions(|ops|))
    ensures Solvable(ops, map[], Positions(|ops|)) <==> Linearizable(ops)
  {
    PickAll(ops);
    if Solvable(ops, map[], Positions(|ops|)) {
      var lin := SolvableHasOrder(ops, map[], Positions(|ops|));
      assert IsLinearization(ops, lin);
    }
    if Linearizable(ops) {
      var lin :| IsLinearization(ops, lin);
      OrderSolves(ops, map[], Positions(|ops|), lin);
    }
  }
}
