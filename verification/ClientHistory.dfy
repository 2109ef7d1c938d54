/** Clients driving a cluster, and what each row of the recorded history is backed by. Gets may go
    through the log or through ReadIndex; everything else goes through the log. */
module ClientHistory {
  import opened Types
  import opened Replicas
  import opened Reports
  import opened Cluster
  import opened ClusterRefinement
  import opened ClusterSafety
  import opened StateMachineSafety
  import opened CommitRule
  import opened Linearizability
  import opened Clients

  // ---- a run with clients ----

  /** What the acting server reported during event k. */
  function NewReports(r: Execution, k: nat): seq<Report>
    requires IsRun(r) && k < |r.events|
  {
    StepChanges(r, k);
    var i := Actor(r.events[k]);
    var before, after := r.states[k].nodes[i].replica.reports, r.states[k + 1].nodes[i].replica.reports;
    if |before| <= |after| then after[|before|..] else []
  }

  /** The event is a client's attempt at its current operation. */
  predicate Ticks(r: Execution, ds: seq<Driver>, k: nat, client: int, next: Command)
    requires IsRun(r) && k < |r.events| && |ds| == |r.states|
  {
    var e := r.events[k];
    && (e.Client? || (e.Read? && e.command.Kv? && e.command.op.Get?))
    && IsNext(ds[k], client, next)
    && Tick(ds[k], k, client, next).1 == e.command
    && ds[k + 1] == OnReports(Tick(ds[k], k, client, next).0, k, NewReports(r, k))
  }

  ghost predicate DriverStep(r: Execution, ds: seq<Driver>, k: nat)
    requires IsRun(r) && k < |r.events| && |ds| == |r.states|
  {
    if r.events[k].Client? || r.events[k].Read? then exists client, next :: Ticks(r, ds, k, client, next)
    else ds[k + 1] == OnReports(ds[k], k, NewReports(r, k))
  }

  /** All client commands and reads of the run come from the client driver. */
  ghost predicate Drives(r: Execution, ds: seq<Driver>) {
    && IsRun(r) && |ds| == |r.states| && ds[0] == NO_CLIENTS
    && forall k | 0 <= k < |r.events| :: DriverStep(r, ds, k)
  }

  // ---- what a report is backed by ----

  lemma NewReportsFit(r: Execution, k: nat, rep: Report)
    requires IsRun(r) && k < |r.events| && rep in NewReports(r, k)
    ensures At(r, k + 1, Actor(r.events[k])) && Fits(CommittedAt(r, k + 1, Actor(r.events[k])), rep)
    ensures rep in NodeAt(r, k + 1, Actor(r.events[k])).replica.reports
  {
    hide Starts, StepBy, Shadows, Later, Fits;
    var ss := RunShadowed(r);
    StepEnabled(r, k);
    var i := Actor(r.events[k]);
    assert Shadows(ss[k], r.states[k]);
    StepReports(ss[k], r.states[k], r.events[k], r.states[k + 1]);
    StepChanges(r, k);
    CommittedAgreed(r, ss, k + 1, i);
    var x :| 0 <= x < |NewReports(r, k)| && NewReports(r, k)[x] == rep;
    assert r.states[k + 1].nodes[i].replica.reports[|r.states[k].nodes[i].replica.reports| + x] == rep;
  }

  /** A server reported `rep` during the operation's last event. */
  ghost predicate Backed(r: Execution, row: HistoryEntry) {
    row.returned.Some? && exists i, rep :: BackedBy(r, row, i, rep)
  }

  predicate BackedBy(r: Execution, row: HistoryEntry, i: NodeId, rep: Report) {
    && row.returned.Some? && At(r, row.Return() + 1, i)
    && rep in NodeAt(r, row.Return() + 1, i).replica.reports
    && rep.command == row.command && rep.result == row.observed
    && Fits(CommittedAt(r, row.Return() + 1, i), rep)
  }

  // ---- the rows of the history ----

  /** Row j was appended by the event at its invocation step, and completed by a later or the same one. */
  ghost predicate RowTimes(r: Execution, ds: seq<Driver>, k: nat, j: nat)
    requires k < |ds| && j < |ds[k].history|
  {
    var row := ds[k].history[j];
    && row.invoked < k && |ds[row.invoked].history| <= j
    && (row.returned.Some? ==> row.invoked <= row.Return() < k && Backed(r, row))
  }

  /** The driver between a tick and the reports of the same event. */
  predicate Between(r: Execution, ds: seq<Driver>, k: nat, mid: Driver)
    requires IsRun(r) && k < |r.events| && |ds| == |r.states|
  {
    && DriverOK(mid) && Continues(ds[k], mid)
    && (forall j | |ds[k].history| <= j < |mid.history| :: mid.history[j].invoked == k && mid.history[j].returned.None?)
    && (forall j | 0 <= j < |ds[k].history| :: mid.history[j] == ds[k].history[j])
    && ds[k + 1] == OnReports(mid, k, NewReports(r, k))
    && (r.events[k].Client? || r.events[k].Read? ==> HasRow(mid, r.events[k].command))
    && (r.events[k].Read? ==> r.events[k].command.Kv? && r.events[k].command.op.Get?)
  }

  lemma TickOldRows(d: Driver, step: nat, client: int, next: Command)
    ensures forall j | 0 <= j < |d.history| :: j < |Tick(d, step, client, next).0.history| && Tick(d, step, client, next).0.history[j] == d.history[j]
  {}

  lemma StepBetween(r: Execution, ds: seq<Driver>, k: nat) returns (mid: Driver)
    requires Drives(r, ds) && k < |r.events| && DriverOK(ds[k])
    ensures Between(r, ds, k, mid)
  {
    hide IsRun, DriverOK, Tick, OnReports, IsNext;
    RunShape(r, ds);
    assert DriverStep(r, ds, k);
    if r.events[k].Client? || r.events[k].Read? {
      var client, next :| Ticks(r, ds, k, client, next);
      TickKeepsOK(ds[k], k, client, next);
      TickOldRows(ds[k], k, client, next);
      mid := Tick(ds[k], k, client, next).0;
    } else {
      mid := ds[k];
    }
  }

  ghost predicate ReturnOK(r: Execution, k: nat, row: HistoryEntry) {
    row.returned.Some? ==> row.invoked <= row.Return() < k && Backed(r, row)
  }

  /** One event leaves a row alone or completes it with one of its reports. */
  lemma RowStep(r: Execution, k: nat, before: HistoryEntry, after: HistoryEntry, reports: seq<Report>)
    requires IsRun(r) && k < |r.events| && reports == NewReports(r, k)
    requires before.invoked <= k && ReturnOK(r, k, before)
    requires after == before || exists x :: 0 <= x < |reports| && CompletedBy(before, after, k, reports[x])
    ensures after.invoked == before.invoked && ReturnOK(r, k + 1, after)
  {
    hide IsRun, NewReports, Backed;
    if after != before {
      var x :| 0 <= x < |reports| && CompletedBy(before, after, k, reports[x]);
      BackedRow(r, k, reports[x], after);
    }
  }

  lemma RowsStep(r: Execution, ds: seq<Driver>, k: nat, mid: Driver, j: nat, reports: seq<Report>)
    requires IsRun(r) && k < |r.events| && reports == NewReports(r, k)
    requires k + 1 < |ds| && j < |ds[k + 1].history|
    requires CompletesRows(mid, ds[k + 1], k, reports) && |ds[k].history| <= |mid.history|
    requires j < |ds[k].history| ==> RowTimes(r, ds, k, j) && mid.history[j] == ds[k].history[j]
    requires |ds[k].history| <= j ==> mid.history[j].invoked == k && mid.history[j].returned.None?
    ensures RowTimes(r, ds, k + 1, j)
  {
    hide IsRun, NewReports, Backed, CompletedBy;
    RowStep(r, k, mid.history[j], ds[k + 1].history[j], reports);
  }

  lemma BackedRow(r: Execution, k: nat, rep: Report, row: HistoryEntry)
    requires IsRun(r) && k < |r.events| && rep in NewReports(r, k)
    requires row.returned == Some(k) && row.command == rep.command && row.observed == rep.result
    ensures Backed(r, row)
  {
    hide IsRun, NewReports, Fits;
    NewReportsFit(r, k, rep);
    assert BackedBy(r, row, Actor(r.events[k]), rep);
  }

  lemma {:induction false} DriverHolds(r: Execution, ds: seq<Driver>, k: nat)
    requires Drives(r, ds) && k < |ds|
    ensures DriverOK(ds[k]) && forall j: nat | j < |ds[k].history| :: RowTimes(r, ds, k, j)
    decreases k
  {
    hide IsRun, DriverStep, DriverOK, OnReports, NewReports, RowTimes, CompletedBy;
    if k == 0 {
      NoClientsOK();
    } else {
      DriverHolds(r, ds, k - 1);
      RunShape(r, ds);
      var mid := StepBetween(r, ds, k - 1);
      OnReportsCompletes(mid, k - 1, NewReports(r, k - 1));
      forall j: nat | j < |ds[k].history| ensures RowTimes(r, ds, k, j) { RowsStep(r, ds, k - 1, mid, j, NewReports(r, k - 1)); }
    }
  }

  lemma RunShape(r: Execution, ds: seq<Driver>)
    requires Drives(r, ds)
    ensures IsRun(r) && |ds| == |r.states| == |r.events| + 1
  {}

  lemma NoClientsOK()
    ensures DriverOK(NO_CLIENTS)
  {}

  /** Rows keep their command, their invocation and, once completed, everything. */
  lemma {:induction false} RowsContinue(r: Execution, ds: seq<Driver>, j: nat, k: nat)
    requires Drives(r, ds) && j <= k < |ds|
    ensures Continues(ds[j], ds[k])
    decreases k
  {
    hide IsRun, DriverStep, DriverOK, OnReports, NewReports, CompletesRows, RowTimes, Continues;
    if j < k {
      RunShape(r, ds);
      RowsContinue(r, ds, j, k - 1);
      DriverHolds(r, ds, k - 1);
      var mid := StepBetween(r, ds, k - 1);
      OnReportsCompletes(mid, k - 1, NewReports(r, k - 1));
      ContinuesTransitive(ds[k - 1], mid, ds[k]);
      ContinuesTransitive(ds[j], ds[k - 1], ds[k]);
    } else {
      SameContinues(ds[k]);
    }
  }

  lemma SameContinues(d: Driver)
    ensures Continues(d, d)
  {}
}
