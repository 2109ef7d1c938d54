/** From places in an agreed history to a linearization: operations that took effect as log entries,
    and reads that were answered after some prefix of the log. */
module Placement {
  import opened Types
  import opened Sorting
  import opened Logs
  import opened Kv
  import opened Recovery
  import opened Requests
  import opened Linearizability

  /** A completed operation and where it took effect: as entry `index` of the history, or answered
      from the state after the first `index` entries. */
  datatype Placed = Placed(row: HistoryEntry, index: nat, read: bool)

  /** The order of effects; reads at one index in the order they returned. */
  predicate Earlier(a: Placed, b: Placed) {
    || a.index < b.index
    || (a.index == b.index && b.read && (!a.read || a.row.Return() < b.row.Return()))
  }

  predicate NotAfter(a: Placed, b: Placed) { !Earlier(b, a) }

  function Rows(ops: seq<Placed>): (rows: seq<HistoryEntry>)
    ensures |rows| == |ops| && forall x | 0 <= x < |ops| :: rows[x] == ops[x].row
  {
    if ops == [] then [] else [ops[0].row] + Rows(ops[1..])
  }

  // ---- sorting ----

  predicate InOrder(ops: seq<Placed>) {
    forall a, b | 0 <= a < b < |ops| :: NotAfter(ops[a], ops[b])
  }

  lemma NotAfterTransitive(a: Placed, b: Placed, c: Placed)
    requires NotAfter(a, b) && NotAfter(b, c)
    ensures NotAfter(a, c)
  {}

  lemma InOrderCons(p: Placed, rest: seq<Placed>)
    requires InOrder(rest) && (rest != [] ==> NotAfter(p, rest[0]))
    ensures InOrder([p] + rest)
  {
    var all := [p] + rest;
    forall a, b | 0 <= a < b < |all| ensures NotAfter(all[a], all[b]) {
      assert all[b] == rest[b - 1];
      if a > 0 { assert all[a] == rest[a - 1]; }
      else if b > 1 { NotAfterTransitive(p, rest[0], rest[b - 1]); }
    }
  }

  lemma {:induction false} InsertKeepsOrder(p: Placed, ops: seq<Placed>)
    requires InOrder(ops)
    ensures InOrder(Insert(p, ops, NotAfter)) && multiset(Insert(p, ops, NotAfter)) == multiset(ops) + multiset{p}
    ensures Insert(p, ops, NotAfter)[0] == p || (ops != [] && Insert(p, ops, NotAfter)[0] == ops[0])
  {
    hide NotAfter;
    if ops == [] || NotAfter(p, ops[0]) {
      InOrderCons(p, ops);
    } else {
      var first, rest := ops[0], ops[1..];
      assert ops == [first] + rest;
      forall a, b | 0 <= a < b < |rest| ensures NotAfter(rest[a], rest[b]) { assert rest[a] == ops[a + 1] && rest[b] == ops[b + 1]; }
      InsertKeepsOrder(p, rest);
      assert NotAfter(first, p) by { TotalOrder(first, p); }
      assert rest != [] ==> NotAfter(first, rest[0]) by { if rest != [] { assert NotAfter(ops[0], ops[1]); } }
      InOrderCons(first, Insert(p, rest, NotAfter));
    }
  }

  lemma TotalOrder(a: Placed, b: Placed)
    ensures NotAfter(a, b) || NotAfter(b, a)
  {}

  lemma {:induction false} SortOrders(ops: seq<Placed>)
    ensures InOrder(Sort(ops, NotAfter)) && multiset(Sort(ops, NotAfter)) == multiset(ops)
  {
    hide InOrder;
    if ops == [] {
      EmptyInOrder();
    } else {
      SortOrders(ops[1..]);
      InsertKeepsOrder(ops[0], Sort(ops[1..], NotAfter));
      assert ops == [ops[0]] + ops[1..];
    }
  }

  lemma EmptyInOrder()
    ensures InOrder([])
  {}

  lemma RowsCons(p: Placed, ops: seq<Placed>)
    ensures Rows([p] + ops) == [p.row] + Rows(ops)
    ensures multiset(Rows([p] + ops)) == multiset(Rows(ops)) + multiset{p.row}
  {
    assert ([p] + ops)[1..] == ops;
  }

  lemma {:induction false} InsertRows(p: Placed, ops: seq<Placed>)
    ensures multiset(Rows(Insert(p, ops, NotAfter))) == multiset(Rows(ops)) + multiset{p.row}
  {
    hide Rows, NotAfter;
    if ops == [] || NotAfter(p, ops[0]) {
      RowsCons(p, ops);
    } else {
      InsertRows(p, ops[1..]);
      RowsCons(ops[0], Insert(p, ops[1..], NotAfter));
      RowsCons(ops[0], ops[1..]);
      assert ops == [ops[0]] + ops[1..];
    }
  }

  lemma {:induction false} SortRows(ops: seq<Placed>)
    ensures multiset(Rows(Sort(ops, NotAfter))) == multiset(Rows(ops))
  {
    hide Rows, Insert;
    if ops != [] {
      SortRows(ops[1..]);
      InsertRows(ops[0], Sort(ops[1..], NotAfter));
      RowsCons(ops[0], ops[1..]);
      assert ops == [ops[0]] + ops[1..];
    }
  }

  predicate DistinctCommands(ops: seq<Placed>) {
    forall a, b | 0 <= a < b < |ops| :: ops[a].row.command != ops[b].row.command
  }

  lemma DistinctCons(p: Placed, ops: seq<Placed>)
    ensures DistinctCommands([p] + ops) <==> DistinctCommands(ops) && forall x | 0 <= x < |ops| :: ops[x].row.command != p.row.command
  {
    var all := [p] + ops;
    if DistinctCommands(all) {
      forall a, b | 0 <= a < b < |ops| ensures ops[a].row.command != ops[b].row.command { assert all[a + 1] == ops[a] && all[b + 1] == ops[b]; }
      forall x | 0 <= x < |ops| ensures ops[x].row.command != p.row.command { assert all[0] == p && all[x + 1] == ops[x]; }
    }
    if DistinctCommands(ops) && forall x | 0 <= x < |ops| :: ops[x].row.command != p.row.command {
      forall a, b | 0 <= a < b < |all| ensures all[a].row.command != all[b].row.command {
        assert all[b] == ops[b - 1];
        if a > 0 { assert all[a] == ops[a - 1]; }
      }
    }
  }

  lemma {:induction false} InsertKeepsDistinct(p: Placed, ops: seq<Placed>)
    requires DistinctCommands([p] + ops)
    ensures DistinctCommands(Insert(p, ops, NotAfter))
  {
    hide DistinctCommands, NotAfter;
    DistinctCons(p, ops);
    if ops != [] && !NotAfter(p, ops[0]) {
      var first, rest := ops[0], ops[1..];
      assert ops == [first] + rest;
      DistinctCons(first, rest);
      assert forall x | 0 <= x < |rest| :: rest[x] == ops[x + 1];
      DistinctCons(p, rest);
      InsertKeepsDistinct(p, rest);
      InsertMembers(p, rest);
      DistinctCons(first, Insert(p, rest, NotAfter));
    }
  }

  lemma {:induction false} InsertMembers(p: Placed, ops: seq<Placed>)
    ensures forall x | 0 <= x < |Insert(p, ops, NotAfter)| :: Insert(p, ops, NotAfter)[x] == p || Insert(p, ops, NotAfter)[x] in ops
  {
    if ops != [] && !NotAfter(p, ops[0]) { InsertMembers(p, ops[1..]); }
  }

  lemma {:induction false} SortKeepsDistinct(ops: seq<Placed>)
    requires DistinctCommands(ops)
    ensures DistinctCommands(Sort(ops, NotAfter))
  {
    hide DistinctCommands, Insert, InOrder;
    if ops == [] {
      assert Sort(ops, NotAfter) == ops;
    } else {
      var p, rest := ops[0], ops[1..];
      assert ops == [p] + rest;
      DistinctCons(p, rest);
      SortKeepsDistinct(rest);
      SortOrders(rest);
      forall x | 0 <= x < |Sort(rest, NotAfter)| ensures Sort(rest, NotAfter)[x].row.command != p.row.command {
        assert Sort(rest, NotAfter)[x] in multiset(Sort(rest, NotAfter));
        assert Sort(rest, NotAfter)[x] in rest;
      }
      DistinctCons(p, Sort(rest, NotAfter));
      InsertKeepsDistinct(p, Sort(rest, NotAfter));
    }
  }

  // ---- the agreed history without duplicates ----

  lemma {:induction false} SessionsBounded(hist: Log, client: int)
    ensures client in StateAfter(hist).sessions ==>
              exists i :: 0 <= i < |hist| && hist[i].command.IsStructured() && hist[i].command.client == client
                          && hist[i].command.req == StateAfter(hist).sessions[client].req
  {
    if hist != [] {
      var front, last := hist[..|hist| - 1], hist[|hist| - 1];
      SessionsBounded(front, client);
      if client in StateAfter(front).sessions {
        var i :| 0 <= i < |front| && front[i].command.IsStructured() && front[i].command.client == client
                 && front[i].command.req == StateAfter(front).sessions[client].req;
        assert hist[i] == front[i];
      }
      assert hist[|hist| - 1] == last;
    }
  }

  /** In a history without duplicate requests every structured command is executed. */
  lemma EntryExecutes(hist: Log, x: nat)
    requires Increasing(hist) && x < |hist|
    ensures var cmd, before := hist[x].command, StateAfter(hist[..x]);
            StateAfter(hist[..x + 1]).store == (if cmd.IsStructured() then Execute(before.store, cmd).0 else before.store)
            && (cmd.IsStructured() ==> Apply(before, cmd).1 == Execute(before.store, cmd).1)
  {
    var cmd := hist[x].command;
    assert hist[..x + 1][..x] == hist[..x];
    if cmd.IsStructured() {
      SessionsBounded(hist[..x], cmd.client);
      hide Execute;
    }
  }

  /** Entry y + 1 changes the store (or is a failed compare-and-set). */
  predicate Writes(hist: Log, y: nat) {
    y < |hist| && hist[y].command.IsStructured() && !hist[y].command.op.Get?
  }

  /** No such entry lies in (lo, hi]. */
  predicate OnlyReads(hist: Log, lo: nat, hi: nat) {
    forall y: nat | lo <= y < hi :: !Writes(hist, y)
  }

  lemma {:induction false} ReadsChangeNothing(hist: Log, lo: nat, hi: nat)
    requires Increasing(hist) && lo <= hi <= |hist| && OnlyReads(hist, lo, hi)
    ensures StateAfter(hist[..hi]).store == StateAfter(hist[..lo]).store
    decreases hi
  {
    hide Increasing, StateAfter, Apply;
    if hi > lo {
      ReadsChangeNothing(hist, lo, hi - 1);
      EntryExecutes(hist, hi - 1);
      assert !Writes(hist, hi - 1);
    }
  }

  // ---- legality ----

  /** The operation really is where it is placed, and answered accordingly. */
  predicate PlacedWell(hist: Log, p: Placed) {
    && p.index <= |hist| && p.row.command.IsStructured()
    && (p.read ==> p.row.command.op.Get? && p.row.observed == ApplyRead(StateAfter(hist[..p.index]), p.row.command))
    && (!p.read ==> p.index > 0 && hist[p.index - 1].command == p.row.command
                    && p.row.observed == Apply(StateAfter(hist[..p.index - 1]), p.row.command).1)
  }

  /** Every such entry above `lo` is among the operations. */
  predicate CoversWrites(hist: Log, lo: nat, ops: seq<Placed>) {
    forall y: nat | lo <= y < |hist| && Writes(hist, y) :: HasEntry(ops, y + 1)
  }

  predicate HasEntry(ops: seq<Placed>, index: nat) {
    exists x :: 0 <= x < |ops| && !ops[x].read && ops[x].index == index
  }

  predicate AllAbove(lo: nat, ops: seq<Placed>) {
    forall x | 0 <= x < |ops| :: ops[x].index >= lo && (!ops[x].read ==> ops[x].index > lo)
  }

  predicate DistinctEntries(ops: seq<Placed>) {
    forall a, b | 0 <= a < b < |ops| && !ops[a].read && !ops[b].read :: ops[a].index != ops[b].index
  }

  /** How far the history has been consumed once p is placed. */
  lemma FirstSkipsReads(hist: Log, lo: nat, ops: seq<Placed>)
    requires ops != [] && InOrder(ops) && CoversWrites(hist, lo, ops) && AllAbove(lo, ops) && ops[0].index <= |hist|
    ensures OnlyReads(hist, lo, if ops[0].read then ops[0].index else ops[0].index - 1)
  {
    var hi := if ops[0].read then ops[0].index else ops[0].index - 1;
    forall y: nat | lo <= y < hi ensures !Writes(hist, y) {
      if Writes(hist, y) {
        var x :| 0 <= x < |ops| && !ops[x].read && ops[x].index == y + 1;
        FirstFirst(ops, x);
      }
    }
  }

  lemma FirstFirst(ops: seq<Placed>, x: nat)
    requires x < |ops| && InOrder(ops)
    ensures NotAfter(ops[0], ops[x])
  {}

  lemma RestAbove(hist: Log, lo: nat, ops: seq<Placed>)
    requires ops != [] && InOrder(ops) && CoversWrites(hist, lo, ops) && AllAbove(lo, ops) && DistinctEntries(ops)
    ensures InOrder(ops[1..]) && CoversWrites(hist, ops[0].index, ops[1..]) && AllAbove(ops[0].index, ops[1..]) && DistinctEntries(ops[1..])
  {
    var rest := ops[1..];
    forall x | 0 <= x < |rest| ensures rest[x].index >= ops[0].index && (!rest[x].read ==> rest[x].index > ops[0].index) {
      assert rest[x] == ops[x + 1] && NotAfter(ops[0], ops[x + 1]);
    }
    forall a, b | 0 <= a < b < |rest| ensures NotAfter(rest[a], rest[b]) { assert rest[a] == ops[a + 1] && rest[b] == ops[b + 1]; }
    forall y: nat | ops[0].index <= y < |hist| && Writes(hist, y) ensures HasEntry(rest, y + 1) {
      var x :| 0 <= x < |ops| && !ops[x].read && ops[x].index == y + 1;
      assert rest[x - 1] == ops[x];
    }
    forall a, b | 0 <= a < b < |rest| && !rest[a].read && !rest[b].read ensures rest[a].index != rest[b].index {
      assert rest[a] == ops[a + 1] && rest[b] == ops[b + 1];
    }
  }

  /** Placing the operations in the order of their effects answers every one of them as observed. */
  lemma {:induction false} OrderIsLegal(hist: Log, lo: nat, ops: seq<Placed>)
    requires Increasing(hist) && lo <= |hist| && InOrder(ops) && DistinctEntries(ops)
    requires CoversWrites(hist, lo, ops) && AllAbove(lo, ops)
    requires forall x | 0 <= x < |ops| :: PlacedWell(hist, ops[x])
    ensures Legal(StateAfter(hist[..lo]).store, Rows(ops))
    decreases |ops|
  {
    hide Increasing, StateAfter, InOrder, CoversWrites, AllAbove, DistinctEntries, OnlyReads, Apply, Execute;
    if ops != [] {
      var p, rest := ops[0], ops[1..];
      var store := StateAfter(hist[..lo]).store;
      assert p.index >= lo && (!p.read ==> p.index > lo) by { FirstAbove(lo, ops); }
      FirstSkipsReads(hist, lo, ops);
      RestAbove(hist, lo, ops);
      OrderIsLegal(hist, p.index, rest);
      StepIsLegal(hist, lo, p);
      assert Rows(ops)[1..] == Rows(rest);
    }
  }

  lemma FirstAbove(lo: nat, ops: seq<Placed>)
    requires ops != [] && AllAbove(lo, ops)
    ensures ops[0].index >= lo && (!ops[0].read ==> ops[0].index > lo)
  {}

  lemma StepIsLegal(hist: Log, lo: nat, p: Placed)
    requires Increasing(hist) && lo <= p.index && (!p.read ==> lo < p.index) && PlacedWell(hist, p)
    requires OnlyReads(hist, lo, if p.read then p.index else p.index - 1)
    ensures Answers(StateAfter(hist[..lo]).store, p.row)
    ensures After(StateAfter(hist[..lo]).store, p.row) == StateAfter(hist[..p.index]).store
  {
    hide Increasing, StateAfter, OnlyReads;
    if p.read {
      ReadsChangeNothing(hist, lo, p.index);
    } else {
      ReadsChangeNothing(hist, lo, p.index - 1);
      EntryExecutes(hist, p.index - 1);
    }
  }

  // ---- the result ----

  /** Real time agrees with the order of effects. */
  predicate TimesAgree(ops: seq<Placed>) {
    forall a, b | 0 <= a < |ops| && 0 <= b < |ops| && ops[a].row.Return() < ops[b].row.invoked :: Earlier(ops[a], ops[b])
  }

  lemma SortedInRealTime(ops: seq<Placed>)
    requires InOrder(ops) && TimesAgree(ops)
    ensures InRealTime(Rows(ops))
  {
    forall a, b | 0 <= a < b < |ops| ensures !(Rows(ops)[b].Return() < Rows(ops)[a].invoked) {
      assert NotAfter(ops[a], ops[b]);
    }
  }

  /** A property of all pairs of operations does not depend on their order. */
  lemma SamePlaced(a: seq<Placed>, b: seq<Placed>, x: nat)
    requires multiset(a) == multiset(b) && x < |a|
    ensures a[x] in b
  {
    assert a[x] in multiset(a);
  }

  lemma PlacedAlsoIn(a: seq<Placed>, b: seq<Placed>, hist: Log)
    requires multiset(a) == multiset(b) && TimesAgree(a) && CoversWrites(hist, 0, a)
    requires forall x | 0 <= x < |a| :: PlacedWell(hist, a[x])
    ensures TimesAgree(b) && CoversWrites(hist, 0, b)
    ensures forall x | 0 <= x < |b| :: PlacedWell(hist, b[x])
    ensures AllAbove(0, b)
  {
    hide Earlier, PlacedWell;
    forall x, y | 0 <= x < |b| && 0 <= y < |b| && b[x].row.Return() < b[y].row.invoked ensures Earlier(b[x], b[y]) {
      SamePlaced(b, a, x);
      SamePlaced(b, a, y);
    }
    forall y: nat | 0 <= y < |hist| && Writes(hist, y) ensures HasEntry(b, y + 1) {
      assert HasEntry(a, y + 1);
      var x :| 0 <= x < |a| && !a[x].read && a[x].index == y + 1;
      SamePlaced(a, b, x);
      var z :| 0 <= z < |b| && b[z] == a[x];
    }
    forall x | 0 <= x < |b| ensures PlacedWell(hist, b[x]) { SamePlaced(b, a, x); }
    forall x | 0 <= x < |b| ensures b[x].index >= 0 && (!b[x].read ==> b[x].index > 0) { WellAbove(hist, b[x]); }
  }

  lemma WellAbove(hist: Log, p: Placed)
    requires PlacedWell(hist, p)
    ensures !p.read ==> p.index > 0
  {}

  lemma EntriesDistinct(hist: Log, ops: seq<Placed>)
    requires DistinctCommands(ops) && forall x | 0 <= x < |ops| :: PlacedWell(hist, ops[x])
    ensures DistinctEntries(ops)
  {
    hide StateAfter, Apply;
  }

  /** Operations with consistent places are linearizable. */
  lemma {:induction false} PlacedLinearizes(hist: Log, ops: seq<Placed>)
    requires Increasing(hist) && TimesAgree(ops) && CoversWrites(hist, 0, ops) && DistinctCommands(ops)
    requires forall x | 0 <= x < |ops| :: PlacedWell(hist, ops[x])
    ensures IsLinearization(Rows(ops), Rows(Sort(ops, NotAfter)))
  {
    hide PlacedWell, TimesAgree, CoversWrites, InOrder, AllAbove, DistinctEntries, DistinctCommands, Increasing, Legal, InRealTime, Rows;
    var sorted := Sort(ops, NotAfter);
    SortOrders(ops);
    PlacedAlsoIn(ops, sorted, hist);
    SortRows(ops);
    SortKeepsDistinct(ops);
    EntriesDistinct(hist, sorted);
    SortedInRealTime(sorted);
    OrderIsLegal(hist, 0, sorted);
    assert StateAfter(hist[..0]).store == map[];
  }
}
