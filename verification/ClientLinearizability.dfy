/** The capstone: every history the clients record is linearizable. Operations that went through the log take
    effect at their log index, reads served by ReadIndex after the prefix they were answered from. */
module ClientLinearizability {
  import opened Types
  import opened Quorums
  import opened Logs
  import opened Kv
  import opened Replicas
  import opened NodeSpec
  import opened Recovery
  import opened Reports
  import opened Cluster
  import opened ClusterSafety
  import opened CommitRule
  import opened LogOrigins
  import opened Requests
  import opened ApplyProgress
  import opened ReadSteps
  import opened ReadIndex
  import opened Linearizability
  import opened Placement
  import opened Clients
  import opened ClientHistory

  // ---- a command is in no log before it is invoked ----

  lemma AppendedWasInvoked(r: Execution, ds: seq<Driver>, k: nat, i: NodeId, x: nat)
    requires Drives(r, ds) && k < |r.events| && At(r, k, i) && At(r, k + 1, i) && i == Actor(r.events[k])
    requires Appends(NodeAt(r, k, i), r.events[k], NodeAt(r, k + 1, i))
    requires x == |LogAt(r, k, i)| && x < |LogAt(r, k + 1, i)| && LogAt(r, k + 1, i)[x].command.IsStructured()
    ensures HasRow(ds[k + 1], LogAt(r, k + 1, i)[x].command)
  {
    hide IsRun, DriverStep, DriverOK, OnReports, NewReports, RowTimes, HasRow, AlreadyAppended, CompletesRows;
    var cmd :| AppendedBy(NodeAt(r, k, i), r.events[k], NodeAt(r, k + 1, i), cmd);
    DriverHolds(r, ds, k);
    var mid := StepBetween(r, ds, k);
    OnReportsCompletes(mid, k, NewReports(r, k));
    HasRowContinues(mid, ds[k + 1], cmd);
  }

  lemma {:induction false} LoggedWasInvoked(r: Execution, ds: seq<Driver>, k: nat, i: NodeId, x: nat)
    requires Drives(r, ds) && At(r, k, i) && x < |LogAt(r, k, i)| && LogAt(r, k, i)[x].command.IsStructured()
    ensures k < |ds| && HasRow(ds[k], LogAt(r, k, i)[x].command)
    decreases k
  {
    hide Starts, StepBy, DriverStep, DriverOK, OnReports, NewReports, RowTimes, HasRow, Continues;
    RunShape(r, ds);
    if k == 0 {
      StartRequests(r.states[0], i);
      assert false;
    } else {
      StepChanges(r, k - 1);
      LogOrigin(r, k - 1, i);
      var cmd := LogAt(r, k, i)[x].command;
      RowsContinue(r, ds, k - 1, k);
      if LogAt(r, k, i) == LogAt(r, k - 1, i) {
        LoggedWasInvoked(r, ds, k - 1, i, x);
        HasRowContinues(ds[k - 1], ds[k], cmd);
      } else if LeaderLogBy(r, k - 1, LogAt(r, k, i)) {
        var j: nat, l, t :| j <= k - 1 && LeaderLogAt(r, j, l, t, LogAt(r, k, i));
        LoggedWasInvoked(r, ds, j, l, x);
        RowsContinue(r, ds, j, k);
        HasRowContinues(ds[j], ds[k], cmd);
      } else if x < |LogAt(r, k - 1, i)| {
        AppendKeepsPrefix(r, k - 1, i);
        LoggedWasInvoked(r, ds, k - 1, i, x);
        HasRowContinues(ds[k - 1], ds[k], cmd);
      } else {
        AppendKeepsPrefix(r, k - 1, i);
        AppendedWasInvoked(r, ds, k - 1, i, x);
      }
    }
  }

  lemma AppendKeepsPrefix(r: Execution, k: nat, i: NodeId)
    requires At(r, k, i) && At(r, k + 1, i) && k < |r.events| && Appends(NodeAt(r, k, i), r.events[k], NodeAt(r, k + 1, i))
    ensures |LogAt(r, k + 1, i)| == |LogAt(r, k, i)| + 1
    ensures forall x | 0 <= x < |LogAt(r, k, i)| :: LogAt(r, k + 1, i)[x] == LogAt(r, k, i)[x]
  {
    hide IsRun, AlreadyAppended;
  }

  /** The row of a command that already had a row at moment t was invoked before t. */
  lemma EarlyRow(r: Execution, ds: seq<Driver>, t: nat, k: nat, j: nat)
    requires Drives(r, ds) && t <= k < |ds| && j < |ds[k].history| && HasRow(ds[t], ds[k].history[j].command)
    ensures ds[k].history[j].invoked < t
  {
    hide IsRun, DriverStep, OnReports, NewReports;
    DriverHolds(r, ds, k);
    DriverHolds(r, ds, t);
    RowsContinue(r, ds, t, k);
    var x :| 0 <= x < |ds[t].history| && ds[t].history[x].command == ds[k].history[j].command;
    assert ds[k].history[x].command == ds[k].history[j].command;
    assert RowTimes(r, ds, t, x);
  }

  lemma NotYetLogged(r: Execution, ds: seq<Driver>, k: nat, j: nat, t: nat, i: NodeId, x: nat)
    requires Drives(r, ds) && k < |ds| && j < |ds[k].history| && t <= ds[k].history[j].invoked
    requires At(r, t, i) && x < |LogAt(r, t, i)|
    ensures LogAt(r, t, i)[x].command != ds[k].history[j].command
  {
    hide IsRun, DriverStep, OnReports, NewReports, HasRow, Backed;
    DriverHolds(r, ds, k);
    assert RowTimes(r, ds, k, j) && RowOK(ds[k], j);
    if LogAt(r, t, i)[x].command == ds[k].history[j].command {
      LoggedWasInvoked(r, ds, t, i, x);
      EarlyRow(r, ds, t, k, j);
    }
  }

  // ---- reads ----

  ghost predicate AskedFor(r: Execution, y: nat, i: NodeId, id: nat, cmd: Command) {
    exists x: nat :: x < y && AskedAt(r, x, i, id, cmd)
  }

  predicate AskedAt(r: Execution, x: nat, i: NodeId, id: nat, cmd: Command) {
    Requested(r, x, i) && ReadId(r, x, i) == id && r.events[x].command == cmd
  }

  lemma AskedLater(r: Execution, y: nat, i: NodeId, id: nat, cmd: Command)
    requires AskedFor(r, y, i, id, cmd)
    ensures AskedFor(r, y + 1, i, id, cmd)
  {
    var x: nat :| x < y && AskedAt(r, x, i, id, cmd);
    assert x < y + 1 && AskedAt(r, x, i, id, cmd);
  }

  lemma PendingWasAsked(r: Execution, y: nat, i: NodeId, id: nat, p: PendingRead)
    requires At(r, y, i) && y < |r.events| && i == Actor(r.events[y])
    requires PendingAfter(NodeAt(r, y, i), r.events[y], id, p)
    requires forall x | x in NodeAt(r, y, i).readTable.pending :: AskedFor(r, y, i, x, NodeAt(r, y, i).readTable.pending[x].command)
    ensures AskedFor(r, y + 1, i, id, p.command)
  {
    hide IsRun, AskedFor;
    if id in NodeAt(r, y, i).readTable.pending && p.command == NodeAt(r, y, i).readTable.pending[id].command {
      AskedLater(r, y, i, id, p.command);
    } else {
      assert AskedAt(r, y, i, id, p.command);
      assert AskedFor(r, y + 1, i, id, p.command) by { AskedNow(r, y, i, id, p.command); }
    }
  }

  lemma AskedNow(r: Execution, y: nat, i: NodeId, id: nat, cmd: Command)
    requires AskedAt(r, y, i, id, cmd)
    ensures AskedFor(r, y + 1, i, id, cmd)
  {}

  /** Every unconfirmed or served read goes back to a request for the same command. */
  lemma {:induction false} ReadsWereAsked(r: Execution, y: nat, i: NodeId)
    requires At(r, y, i)
    ensures forall id | id in NodeAt(r, y, i).readTable.pending :: AskedFor(r, y, i, id, NodeAt(r, y, i).readTable.pending[id].command)
    ensures forall rep | rep in NodeAt(r, y, i).replica.reports && rep.ReadServed? :: AskedFor(r, y, i, rep.readId, rep.command)
    decreases y
  {
    hide Starts, StepBy, ReadStep, ReadsOK, AskedFor, PendingAfter, IdUsed, ReadMessages, ServedAfter, Majority;
    if y == 0 {
      StartNoReads(r.states[0], i);
    } else {
      StepChanges(r, y - 1);
      ReadsWereAsked(r, y - 1, i);
      RunIdsUsed(r, y - 1);
      StepReads(r.states[y - 1], r.events[y - 1], r.states[y]);
      var n, n', e := NodeAt(r, y - 1, i), NodeAt(r, y, i), r.events[y - 1];
      forall id | id in n'.readTable.pending ensures AskedFor(r, y, i, id, n'.readTable.pending[id].command) {
        if i == Actor(e) {
          ReadStepPending(n, e, n', id);
          PendingWasAsked(r, y - 1, i, id, n'.readTable.pending[id]);
        } else {
          AskedLater(r, y - 1, i, id, n'.readTable.pending[id].command);
        }
      }
      forall rep | rep in n'.replica.reports && rep.ReadServed? ensures AskedFor(r, y, i, rep.readId, rep.command) {
        if rep in n.replica.reports {
          AskedLater(r, y - 1, i, rep.readId, rep.command);
        } else {
          ReadStepServed(n, e, n', rep);
          ServedWasAsked(r, y - 1, i, rep);
        }
      }
    }
  }

  lemma ServedWasAsked(r: Execution, y: nat, i: NodeId, rep: Report)
    requires At(r, y, i) && y < |r.events| && i == Actor(r.events[y])
    requires ServedAfter(NodeAt(r, y, i), r.events[y], rep)
    requires forall x | x in NodeAt(r, y, i).readTable.pending :: AskedFor(r, y, i, x, NodeAt(r, y, i).readTable.pending[x].command)
    ensures AskedFor(r, y + 1, i, rep.readId, rep.command)
  {
    hide IsRun, AskedFor, PendingAfter, Majority;
    var p :| ServedFrom(NodeAt(r, y, i), r.events[y], rep, p);
    PendingWasAsked(r, y, i, rep.readId, p);
  }

  lemma StartNoReads(c: Cluster, i: NodeId)
    requires Starts(c) && i in c.nodes
    ensures c.nodes[i].readTable.pending == map[] && c.nodes[i].replica.reports == []
  {}

  // ---- the longest committed history ----

  lemma {:induction false} LongestAt(r: Execution, k: nat, ids: set<NodeId>) returns (g: Log)
    requires IsRun(r) && k < |r.states| && ids <= r.states[k].nodes.Keys
    ensures g == [] || exists i :: i in ids && At(r, k, i) && g == CommittedAt(r, k, i)
    ensures forall i | i in ids :: |CommittedAt(r, k, i)| <= |g|
  {
    hide IsRun, CommittedAt;
    g := [];
    if ids != {} {
      var i :| i in ids;
      g := LongestAt(r, k, ids - {i});
      if |CommittedAt(r, k, i)| > |g| { g := CommittedAt(r, k, i); }
    }
  }

  /** g is the longest committed log of any server up to moment n (or empty). */
  ghost predicate Longest(r: Execution, n: nat, g: Log) {
    && (g == [] || exists k: nat, i :: k <= n && CommittedIs(r, k, i, g))
    && forall k: nat, i | k <= n && At(r, k, i) :: |CommittedAt(r, k, i)| <= |g|
  }

  predicate CommittedIs(r: Execution, k: nat, i: NodeId, g: Log) {
    At(r, k, i) && CommittedAt(r, k, i) == g
  }

  lemma {:induction false} LongestUpTo(r: Execution, n: nat) returns (g: Log)
    requires IsRun(r) && n < |r.states|
    ensures Longest(r, n, g)
  {
    hide IsRun, CommittedAt;
    g := LongestAt(r, n, r.states[n].nodes.Keys);
    if g != [] {
      var i :| i in r.states[n].nodes && At(r, n, i) && g == CommittedAt(r, n, i);
      assert CommittedIs(r, n, i, g);
    }
    if n > 0 {
      var before := LongestUpTo(r, n - 1);
      if |before| > |g| { g := before; }
    }
  }

  lemma LongestContains(r: Execution, n: nat, g: Log, k: nat, i: NodeId)
    requires Longest(r, n, g) && k <= n && At(r, k, i)
    ensures CommittedAt(r, k, i) <= g
  {
    hide IsRun, CommittedAt;
    assert |CommittedAt(r, k, i)| <= |g|;
    if g != [] {
      var j: nat, l :| j <= n && CommittedIs(r, j, l, g);
      CommittedPrefixesAgree(r, k, j, i, l);
    }
  }

  lemma LongestIncreases(r: Execution, n: nat, g: Log)
    requires Longest(r, n, g)
    ensures Increasing(g)
  {
    hide IsRun;
    if g != [] {
      var j: nat, l :| j <= n && CommittedIs(r, j, l, g);
      RequestsIncrease(r, j, l);
    }
  }

  // ---- placing the completed rows ----

  ghost predicate Located(r: Execution, p: Placed) {
    exists i, rep :: LocatedBy(r, p, i, rep)
  }

  predicate LocatedBy(r: Execution, p: Placed, i: NodeId, rep: Report) {
    BackedBy(r, p.row, i, rep) && rep.index == p.index && rep.ReadServed? == p.read
  }

  lemma Locate(r: Execution, row: HistoryEntry) returns (p: Placed)
    requires Backed(r, row)
    ensures p.row == row && Located(r, p)
  {
    hide BackedBy;
    var i, rep :| BackedBy(r, row, i, rep);
    p := Placed(row, rep.index, rep.ReadServed?);
    assert LocatedBy(r, p, i, rep);
  }

  /** One place for each completed row. */
  lemma {:induction false} LocateAll(r: Execution, history: seq<HistoryEntry>) returns (ops: seq<Placed>)
    requires forall j | 0 <= j < |history| && history[j].Completed() :: Backed(r, history[j])
    ensures Rows(ops) == CompletedOf(history)
    ensures forall x | 0 <= x < |ops| :: Located(r, ops[x])
  {
    hide Backed, Located, Rows;
    if history == [] {
      ops := [];
    } else {
      ops := LocateAll(r, history[1..]);
      if history[0].Completed() {
        var p := Locate(r, history[0]);
        RowsCons(p, ops);
        ops := [p] + ops;
      }
    }
  }

  lemma {:induction false} CompletedAreRows(history: seq<HistoryEntry>, x: nat)
    requires x < |CompletedOf(history)|
    ensures CompletedOf(history)[x] in history && CompletedOf(history)[x].Completed()
  {
    if history != [] {
      assert history == [history[0]] + history[1..];
      if history[0].Completed() {
        if x > 0 { CompletedAreRows(history[1..], x - 1); }
      } else {
        CompletedAreRows(history[1..], x);
      }
    }
  }

  lemma {:induction false} RowIsCompleted(history: seq<HistoryEntry>, j: nat)
    requires j < |history| && history[j].Completed()
    ensures history[j] in CompletedOf(history)
  {
    if j > 0 { RowIsCompleted(history[1..], j - 1); }
  }

  predicate DistinctRows(history: seq<HistoryEntry>) {
    forall i, j | 0 <= i < j < |history| :: history[i].command != history[j].command
  }

  lemma {:induction false} CompletedDistinct(history: seq<HistoryEntry>)
    requires DistinctRows(history)
    ensures DistinctRows(CompletedOf(history))
  {
    if history != [] {
      var tail, done := history[1..], CompletedOf(history[1..]);
      assert DistinctRows(tail);
      CompletedDistinct(tail);
      if history[0].Completed() {
        forall x | 0 <= x < |done| ensures done[x].command != history[0].command { CompletedAreRows(tail, x); }
        assert CompletedOf(history) == [history[0]] + done;
      }
    }
  }

  lemma RowsDistinct(ops: seq<Placed>)
    requires DistinctRows(Rows(ops))
    ensures DistinctCommands(ops)
  {
    assert forall x | 0 <= x < |ops| :: Rows(ops)[x] == ops[x].row;
  }

  lemma LocatedFits(r: Execution, n: nat, g: Log, p: Placed, i: NodeId, rep: Report)
    requires Longest(r, n, g) && LocatedBy(r, p, i, rep) && p.row.Return() + 1 <= n
    ensures Fits(g, rep) && p.index <= |CommittedAt(r, p.row.Return() + 1, i)| <= |g|
  {
    hide IsRun, Fits, CommittedAt;
    LongestContains(r, n, g, p.row.Return() + 1, i);
    FitsLonger(CommittedAt(r, p.row.Return() + 1, i), g, rep);
    FitsWithin(CommittedAt(r, p.row.Return() + 1, i), rep);
  }

  lemma FitsWithin(g: Log, rep: Report)
    requires Fits(g, rep)
    ensures rep.index <= |g|
  {}

  lemma ReadIsGet(r: Execution, ds: seq<Driver>, x: nat)
    requires Drives(r, ds) && x < |r.events| && r.events[x].Read?
    ensures r.events[x].command.Kv? && r.events[x].command.op.Get?
    ensures HasRow(ds[x + 1], r.events[x].command)
  {
    hide IsRun, DriverOK, OnReports, NewReports, RowTimes, HasRow, DriverStep, CompletesRows;
    RunShape(r, ds);
    DriverHolds(r, ds, x);
    var mid := StepBetween(r, ds, x);
    OnReportsCompletes(mid, x, NewReports(r, x));
    HasRowContinues(mid, ds[x + 1], r.events[x].command);
  }

  lemma LocatedRead(r: Execution, ds: seq<Driver>, p: Placed, i: NodeId, rep: Report) returns (x: nat)
    requires Drives(r, ds) && LocatedBy(r, p, i, rep) && p.read
    ensures x <= p.row.Return() && AskedAt(r, x, i, rep.readId, p.row.command) && x < |r.events|
    ensures p.row.command.Kv? && p.row.command.op.Get? && x + 1 < |ds| && HasRow(ds[x + 1], p.row.command)
  {
    hide IsRun, Fits, DriverStep, HasRow;
    ReadsWereAsked(r, p.row.Return() + 1, i);
    x :| x < p.row.Return() + 1 && AskedAt(r, x, i, rep.readId, rep.command);
    RunShape(r, ds);
    ReadIsGet(r, ds, x);
  }

  lemma LocatedWell(r: Execution, ds: seq<Driver>, n: nat, g: Log, p: Placed)
    requires Drives(r, ds) && Longest(r, n, g) && Located(r, p) && p.row.Return() + 1 <= n && p.row.command.IsStructured()
    ensures PlacedWell(g, p)
  {
    hide IsRun, DriverStep, CommittedAt, Longest, StateAfter, Apply, HasRow;
    var i, rep :| LocatedBy(r, p, i, rep);
    LocatedFits(r, n, g, p, i, rep);
    if p.read { var x := LocatedRead(r, ds, p, i, rep); }
  }

  // ---- real time ----

  /** A placed operation is a row of the history at moment n. */
  predicate RowAt(ds: seq<Driver>, n: nat, p: Placed, j: nat) {
    n < |ds| && j < |ds[n].history| && ds[n].history[j] == p.row && p.row.Completed()
  }

  /** b was invoked only after a's effect was committed, so b's entry comes later. */
  lemma EntryComesLater(r: Execution, ds: seq<Driver>, n: nat, g: Log, a: Placed, i: NodeId, rep: Report, b: Placed, j: nat)
    requires Drives(r, ds) && Longest(r, n, g) && LocatedBy(r, a, i, rep) && a.row.Return() + 1 <= n
    requires PlacedWell(g, b) && !b.read && RowAt(ds, n, b, j) && a.row.Return() < b.row.invoked
    ensures a.index < b.index
  {
    hide IsRun, DriverStep, Fits, StateAfter, Apply, Longest;
    LocatedFits(r, n, g, a, i, rep);
    var t := a.row.Return() + 1;
    LongestContains(r, n, g, t, i);
    if b.index <= a.index {
      var x := b.index - 1;
      assert CommittedAt(r, t, i)[x] == g[x];
      NotYetLogged(r, ds, n, j, t, i, x);
    }
  }

  /** A read asked for after a returned answers from a state that includes a's effect. */
  lemma ReadComesLater(r: Execution, ds: seq<Driver>, n: nat, g: Log, a: Placed, i: NodeId, rep: Report, b: Placed, j: nat)
    requires Drives(r, ds) && Longest(r, n, g) && LocatedBy(r, a, i, rep) && a.row.Return() + 1 <= n
    requires Located(r, b) && b.read && RowAt(ds, n, b, j) && a.row.Return() < b.row.invoked
    ensures a.index <= b.index
  {
    hide IsRun, DriverStep, Fits, StateAfter, Apply, Longest, CommittedAt, HasRow, Requested;
    LocatedFits(r, n, g, a, i, rep);
    var v, answer :| LocatedBy(r, b, v, answer);
    var x := LocatedRead(r, ds, b, v, answer);
    EarlierRow(r, ds, x + 1, n, j, b.row.command);
    CommitLength(r, a.row.Return() + 1, i);
    ReadsAreFresh(r, x, b.row.Return() + 1, v, answer, a.row.Return() + 1, i);
  }

  lemma CommitLength(r: Execution, k: nat, i: NodeId)
    requires At(r, k, i)
    ensures |CommittedAt(r, k, i)| <= NodeAt(r, k, i).replica.commit
  {
    hide IsRun;
  }

  lemma EarlierRow(r: Execution, ds: seq<Driver>, t: nat, n: nat, j: nat, cmd: Command)
    requires Drives(r, ds) && t < |ds| && n < |ds| && j < |ds[n].history| && HasRow(ds[t], cmd) && ds[n].history[j].command == cmd
    ensures ds[n].history[j].invoked < t
  {
    hide IsRun, DriverStep, OnReports, NewReports;
    if t <= n {
      EarlyRow(r, ds, t, n, j);
    } else {
      hide HasRow, DriverOK, Backed;
      DriverHolds(r, ds, n);
      assert RowTimes(r, ds, n, j);
    }
  }

  lemma TimesAgreeFor(r: Execution, ds: seq<Driver>, n: nat, g: Log, a: Placed, b: Placed, ja: nat, jb: nat)
    requires Drives(r, ds) && Longest(r, n, g) && Located(r, a) && Located(r, b) && PlacedWell(g, b)
    requires RowAt(ds, n, a, ja) && RowAt(ds, n, b, jb) && a.row.Return() < b.row.invoked
    ensures Earlier(a, b)
  {
    hide IsRun, DriverStep, Longest, PlacedWell, LocatedBy, DriverOK, Backed;
    DriverHolds(r, ds, n);
    assert RowTimes(r, ds, n, ja) && RowTimes(r, ds, n, jb);
    var i, rep :| LocatedBy(r, a, i, rep);
    if b.read { ReadComesLater(r, ds, n, g, a, i, rep, b, jb); }
    else { EntryComesLater(r, ds, n, g, a, i, rep, b, jb); }
  }

  // ---- every write is a completed operation ----

  lemma {:induction false} ReportedWhen(r: Execution, k: nat, i: NodeId, rep: Report) returns (t: nat)
    requires At(r, k, i) && rep in NodeAt(r, k, i).replica.reports
    ensures t < k && t < |r.events| && Actor(r.events[t]) == i && rep in NewReports(r, t)
    decreases k
  {
    hide Starts, StepBy;
    if k == 0 {
      StartNoReads(r.states[0], i);
      assert false;
    } else {
      StepChanges(r, k - 1);
      Monotone(r, k - 1, k, i);
      if rep in NodeAt(r, k - 1, i).replica.reports {
        t := ReportedWhen(r, k - 1, i, rep);
      } else {
        t := k - 1;
        var before, after := NodeAt(r, k - 1, i).replica.reports, NodeAt(r, k, i).replica.reports;
        var x :| 0 <= x < |after| && after[x] == rep;
        assert forall z | 0 <= z < |before| :: after[z] in before;
        assert i == Actor(r.events[t]);
        assert after[|before|..][x - |before|] == rep;
      }
    }
  }

  /** Once a command has been reported, its row is complete. */
  lemma ReportedIsComplete(r: Execution, ds: seq<Driver>, t: nat, n: nat, rep: Report) returns (j: nat)
    requires Drives(r, ds) && t < |r.events| && t < n < |ds| && rep in NewReports(r, t) && rep.Applied? && rep.command.IsStructured()
    ensures j < |ds[n].history| && ds[n].history[j].command == rep.command && ds[n].history[j].Completed()
  {
    hide IsRun, DriverStep, OnReports, DriverOK, RowTimes, NewReports, Continues;
    RunShape(r, ds);
    DriverHolds(r, ds, t);
    var mid := StepBetween(r, ds, t);
    OnReportsCompletes(mid, t, NewReports(r, t));
    var x :| 0 <= x < |NewReports(r, t)| && NewReports(r, t)[x] == rep;
    NotPending(mid, ds[t + 1], t, NewReports(r, t), x);
    ReportedWasInvoked(r, ds, t, rep);
    j := CompleteRow(ds[t + 1], rep.command);
    RowsContinue(r, ds, t + 1, n);
    RowStays(ds[t + 1], ds[n], j);
  }

  lemma NotPending(d: Driver, d': Driver, step: nat, reports: seq<Report>, x: nat)
    requires CompletesRows(d, d', step, reports) && x < |reports| && reports[x].command.IsStructured()
    ensures reports[x].command !in d'.pending
  {}

  lemma RowStays(d: Driver, d': Driver, j: nat)
    requires Continues(d, d') && j < |d.history| && d.history[j].Completed()
    ensures j < |d'.history| && d'.history[j] == d.history[j]
  {}

  lemma CompleteRow(d: Driver, cmd: Command) returns (j: nat)
    requires DriverOK(d) && HasRow(d, cmd) && cmd !in d.pending
    ensures j < |d.history| && d.history[j].command == cmd && d.history[j].Completed()
  {
    j :| j < |d.history| && d.history[j].command == cmd;
    assert RowOK(d, j);
  }

  lemma ReportedWasInvoked(r: Execution, ds: seq<Driver>, t: nat, rep: Report)
    requires Drives(r, ds) && t < |r.events| && rep in NewReports(r, t) && rep.Applied? && rep.command.IsStructured()
    ensures t + 1 < |ds| && HasRow(ds[t + 1], rep.command) && DriverOK(ds[t + 1])
  {
    hide IsRun, DriverStep, DriverOK, OnReports, RowTimes, HasRow, NewReports, StateAfter, Apply;
    RunShape(r, ds);
    DriverHolds(r, ds, t + 1);
    NewReportsFit(r, t, rep);
    LoggedWasInvoked(r, ds, t + 1, Actor(r.events[t]), rep.index - 1);
  }

  lemma {:induction false} WriteIsPlaced(r: Execution, ds: seq<Driver>, n: nat, g: Log, ops: seq<Placed>, y: nat)
    requires Drives(r, ds) && n < |ds| && Longest(r, n, g) && Writes(g, y) && Increasing(g)
    requires Rows(ops) == CompletedOf(ds[n].history)
    requires forall x | 0 <= x < |ops| :: PlacedWell(g, ops[x])
    ensures HasEntry(ops, y + 1)
  {
    hide IsRun, DriverStep, DriverOK, OnReports, RowTimes, HasRow, NewReports, StateAfter, Apply, CompletedOf, Increasing;
    var k: nat, i :| k <= n && CommittedIs(r, k, i, g);
    CommitLength(r, k, i);
    AllApplied(r, k, i, y + 1);
    var reports := NodeAt(r, k, i).replica.reports;
    var z :| 0 <= z < |reports| && reports[z].Applied? && reports[z].index == y + 1;
    var t := ReportedWhen(r, k, i, reports[z]);
    ReportSays(r, n, g, t, reports[z]);
    var j := ReportedIsComplete(r, ds, t, n, reports[z]);
    RowIsCompleted(ds[n].history, j);
    var x :| 0 <= x < |ops| && Rows(ops)[x] == ds[n].history[j];
    SameCommandSameIndex(g, y, ops[x]);
  }

  /** A report names the command the agreed history has at its index. */
  lemma ReportSays(r: Execution, n: nat, g: Log, t: nat, rep: Report)
    requires IsRun(r) && Longest(r, n, g) && t < n && t < |r.events| && rep in NewReports(r, t) && rep.Applied?
    ensures 1 <= rep.index <= |g| && g[rep.index - 1].command == rep.command
  {
    hide IsRun, StateAfter, Apply, CommittedAt, NewReports, Longest;
    NewReportsFit(r, t, rep);
    LongestContains(r, n, g, t + 1, Actor(r.events[t]));
    FitsLonger(CommittedAt(r, t + 1, Actor(r.events[t])), g, rep);
  }

  lemma NoDuplicates(g: Log, x: nat, y: nat)
    requires Increasing(g) && x < |g| && y < |g| && g[x].command == g[y].command && g[x].command.IsStructured()
    ensures x == y
  {
    assert SameClient(g[x].command, g[y].command);
  }

  lemma SameCommandSameIndex(g: Log, y: nat, p: Placed)
    requires Increasing(g) && Writes(g, y) && PlacedWell(g, p) && p.row.command == g[y].command
    ensures !p.read && p.index == y + 1
  {
    hide StateAfter, Apply, Increasing;
    if !p.read { NoDuplicates(g, p.index - 1, y); }
  }

  // ---- the theorem ----

  lemma PlacedRow(ds: seq<Driver>, n: nat, ops: seq<Placed>, x: nat) returns (j: nat)
    requires n < |ds| && Rows(ops) == CompletedOf(ds[n].history) && x < |ops|
    ensures RowAt(ds, n, ops[x], j)
  {
    hide CompletedOf, Rows;
    CompletedAreRows(ds[n].history, x);
    j :| j < |ds[n].history| && ds[n].history[j] == CompletedOf(ds[n].history)[x];
  }

  lemma RowFacts(r: Execution, ds: seq<Driver>, n: nat, p: Placed, j: nat)
    requires Drives(r, ds) && RowAt(ds, n, p, j)
    ensures p.row.command.IsStructured() && p.row.Return() + 1 <= n
  {
    hide IsRun, DriverStep, Backed;
    DriverHolds(r, ds, n);
    assert RowTimes(r, ds, n, j) && RowOK(ds[n], j);
  }

  lemma AllBacked(r: Execution, ds: seq<Driver>, n: nat)
    requires Drives(r, ds) && n < |ds|
    ensures forall j | 0 <= j < |ds[n].history| && ds[n].history[j].Completed() :: Backed(r, ds[n].history[j])
    ensures DistinctRows(ds[n].history)
  {
    hide IsRun, DriverStep, Backed;
    DriverHolds(r, ds, n);
    forall j | 0 <= j < |ds[n].history| && ds[n].history[j].Completed() ensures Backed(r, ds[n].history[j]) {
      assert RowTimes(r, ds, n, j);
    }
  }

  /** Whatever the network, crashes, elections and membership changes do, the history the clients have
      recorded at any moment of a run is linearizable. */
  lemma ClientHistoriesLinearizable(r: Execution, ds: seq<Driver>, n: nat)
    requires Drives(r, ds) && n < |ds|
    ensures Linearizable(CompletedOf(ds[n].history))
  {
    hide IsRun, DriverStep, Longest, Located, PlacedWell, Rows, CompletedOf, Increasing, Backed, DistinctRows, DistinctCommands, IsLinearization, Earlier, RowAt;
    RunShape(r, ds);
    var g := LongestUpTo(r, n);
    LongestIncreases(r, n, g);
    AllBacked(r, ds, n);
    var ops := LocateAll(r, ds[n].history);
    CompletedDistinct(ds[n].history);
    RowsDistinct(ops);
    forall x | 0 <= x < |ops| ensures PlacedWell(g, ops[x]) {
      var j := PlacedRow(ds, n, ops, x);
      RowFacts(r, ds, n, ops[x], j);
      LocatedWell(r, ds, n, g, ops[x]);
    }
    forall a, b | 0 <= a < |ops| && 0 <= b < |ops| && ops[a].row.Return() < ops[b].row.invoked ensures Earlier(ops[a], ops[b]) {
      var ja := PlacedRow(ds, n, ops, a);
      var jb := PlacedRow(ds, n, ops, b);
      TimesAgreeFor(r, ds, n, g, ops[a], ops[b], ja, jb);
    }
    forall y: nat | 0 <= y < |g| && Writes(g, y) ensures HasEntry(ops, y + 1) { WriteIsPlaced(r, ds, n, g, ops, y); }
    PlacedLinearizes(g, ops);
  }
}
