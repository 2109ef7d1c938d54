/** Each client of a driven run works through its operations one at a time: they are numbered 0, 1, 2 and so on, one is
    invoked only when the one before it has returned, and the client retries exactly the one that is open
    (raftverified/cluster.py, `_client_tick`, `_on_apply`). */
module ClientTurns {
  import opened Types
  import opened Replicas
  import opened Linearizability
  import opened Clients
  import opened Cluster
  import opened ClientHistory

  /** How many operations of the client the history holds. */
  function RowsOf(history: seq<HistoryEntry>, client: int): nat {
    if history == [] then 0
    else RowsOf(history[..|history| - 1], client) + if OfClient(history[|history| - 1], client) then 1 else 0
  }

  predicate OfClient(row: HistoryEntry, client: int) { row.command.Kv? && row.command.client == client }

  predicate SameClientRows(d: Driver, i: nat, j: nat) {
    i < j < |d.history| && d.history[j].command.Kv? && OfClient(d.history[i], d.history[j].command.client)
  }

  /** Before moment `now`, row j was invoked as the operation its client had reached. */
  predicate Numbered(d: Driver, j: nat, now: nat) {
    && j < |d.history| && d.history[j].command.Kv? && d.history[j].invoked < now
    && (d.history[j].returned.Some? ==> d.history[j].invoked <= d.history[j].Return() < now)
    && d.history[j].command.req == RowsOf(d.history[..j], d.history[j].command.client)
  }

  /** Row j is open and its client waits for it. */
  predicate Open(d: Driver, j: nat) {
    && j < |d.history| && d.history[j].returned.None? && d.history[j].command.Kv?
    && d.history[j].command.client in d.outstanding && d.outstanding[d.history[j].command.client] == d.history[j].command
  }

  ghost predicate TakesTurns(d: Driver, now: nat) {
    && (forall j: nat | j < |d.history| :: Numbered(d, j, now))
    && (forall i: nat, j: nat | SameClientRows(d, i, j) :: d.history[i].returned.Some? && d.history[i].Return() < d.history[j].invoked)
    && (forall j: nat | j < |d.history| && d.history[j].returned.None? :: Open(d, j))
    && (forall c | c in d.outstanding :: exists j: nat :: Open(d, j) && OfClient(d.history[j], c))
    && (forall c :: NextReq(d, c) + (if c in d.outstanding then 1 else 0) == RowsOf(d.history, c))
  }

  lemma {:induction false} RowsOfSame(a: seq<HistoryEntry>, b: seq<HistoryEntry>, client: int)
    requires |a| == |b| && forall j | 0 <= j < |a| :: a[j].command == b[j].command
    ensures RowsOf(a, client) == RowsOf(b, client)
  {
    if a != [] { RowsOfSame(a[..|a| - 1], b[..|b| - 1], client); }
  }

  lemma RowsOfSnoc(history: seq<HistoryEntry>, row: HistoryEntry, client: int)
    ensures RowsOf(history + [row], client) == RowsOf(history, client) + if OfClient(row, client) then 1 else 0
  {
    assert (history + [row])[..|history|] == history;
  }

  // ---- a tick ----

  lemma TickTakesTurns(d: Driver, now: nat, client: int, next: Command)
    requires TakesTurns(d, now) && IsNext(d, client, next)
    ensures TakesTurns(Tick(d, now, client, next).0, now + 1)
  {
    hide RowsOf;
    if client in d.outstanding { LaterTurns(d, now); } else { InvokedInTurn(d, now, client, next); }
  }

  lemma LaterTurns(d: Driver, now: nat)
    requires TakesTurns(d, now)
    ensures TakesTurns(d, now + 1)
  {
    var later := now + 1;
    forall j: nat | j < |d.history| ensures Numbered(d, j, later) { assert Numbered(d, j, now); }
  }

  lemma InvokedInTurn(d: Driver, now: nat, client: int, next: Command)
    requires TakesTurns(d, now) && IsNext(d, client, next) && client !in d.outstanding
    ensures TakesTurns(Tick(d, now, client, next).0, now + 1)
  {
    hide RowsOf;
    var d', n, later := Tick(d, now, client, next).0, |d.history|, now + 1;
    var row := d'.history[n];
    assert d'.history[..n] == d.history;
    forall c ensures RowsOf(d'.history, c) == RowsOf(d.history, c) + if c == client then 1 else 0 { RowsOfSnoc(d.history, row, c); }
    forall j: nat | j < |d'.history| ensures Numbered(d', j, later) {
      if j < n {
        assert Numbered(d, j, now) && d'.history[j] == d.history[j] && d'.history[..j] == d.history[..j];
      }
    }
    forall i: nat, j: nat | SameClientRows(d', i, j) ensures d'.history[i].returned.Some? && d'.history[i].Return() < d'.history[j].invoked {
      assert Numbered(d, i, now);
      assert d.history[i].returned.None? ==> Open(d, i);
      if j < n { assert SameClientRows(d, i, j); }
    }
    forall j: nat | j < |d'.history| && d'.history[j].returned.None? ensures Open(d', j) {
      if j < n { assert Open(d, j); }
    }
    forall c | c in d'.outstanding ensures exists j: nat :: Open(d', j) && OfClient(d'.history[j], c) {
      if c == client {
        assert Open(d', n) && OfClient(d'.history[n], c);
      } else {
        var j: nat :| Open(d, j) && OfClient(d.history[j], c);
        assert Open(d', j) && OfClient(d'.history[j], c);
      }
    }
  }

  // ---- a report ----

  lemma ApplyTakesTurns(d: Driver, step: nat, cmd: Command, result: string)
    requires DriverOK(d) && TakesTurns(d, step + 1)
    ensures TakesTurns(OnApply(d, step, cmd, result), step + 1)
  {
    hide RowsOf;
    if cmd.IsStructured() {
      if cmd.client in d.outstanding && d.outstanding[cmd.client] == cmd {
        ClosesRow(d, step, cmd, result);
      } else {
        assert cmd in d.pending ==> RowOK(d, d.pending[cmd]) && (d.history[d.pending[cmd]].returned.None? ==> Open(d, d.pending[cmd]));
      }
    }
  }

  /** The open row of a waiting client. */
  lemma OpenRow(d: Driver, cmd: Command, now: nat) returns (x: nat)
    requires DriverOK(d) && TakesTurns(d, now) && cmd.IsStructured() && cmd.client in d.outstanding && d.outstanding[cmd.client] == cmd
    ensures cmd in d.pending && d.pending[cmd] == x && Open(d, x) && d.history[x].command == cmd
    ensures forall j: nat | j < |d.history| && j != x && OfClient(d.history[j], cmd.client) :: d.history[j].returned.Some?
  {
    hide RowsOf, Numbered;
    x :| Open(d, x) && OfClient(d.history[x], cmd.client);
    assert RowOK(d, x);
    forall j: nat | j < |d.history| && j != x && OfClient(d.history[j], cmd.client) ensures d.history[j].returned.Some? {
      assert d.history[Least(j, x)].command != d.history[Largest(j, x)].command;
      assert d.history[j].returned.None? ==> Open(d, j);
    }
  }

  lemma ClosesRow(d: Driver, step: nat, cmd: Command, result: string)
    requires DriverOK(d) && TakesTurns(d, step + 1) && cmd.IsStructured() && cmd.client in d.outstanding && d.outstanding[cmd.client] == cmd
    ensures TakesTurns(OnApply(d, step, cmd, result), step + 1)
  {
    hide RowsOf, RowOK;
    var x := OpenRow(d, cmd, step + 1);
    var d' := OnApply(d, step, cmd, result);
    assert d'.history == d.history[x := d.history[x].(returned := Some(step), observed := result)];
    CloseRow(d, d', step, cmd, x);
  }

  lemma CloseRow(d: Driver, d': Driver, step: nat, cmd: Command, x: nat)
    requires TakesTurns(d, step + 1) && cmd.IsStructured() && Open(d, x) && d.history[x].command == cmd
    requires forall j: nat | j < |d.history| && j != x && OfClient(d.history[j], cmd.client) :: d.history[j].returned.Some?
    requires |d'.history| == |d.history| && d'.outstanding == d.outstanding - {cmd.client} && d'.nextReq == d.nextReq[cmd.client := NextReq(d, cmd.client) + 1]
    requires forall j | 0 <= j < |d.history| && j != x :: d'.history[j] == d.history[j]
    requires d'.history[x] == d.history[x].(returned := Some(step), observed := d'.history[x].observed)
    ensures TakesTurns(d', step + 1)
  {
    hide RowsOf;
    var later := step + 1;
    forall c ensures RowsOf(d'.history, c) == RowsOf(d.history, c) { RowsOfSame(d'.history, d.history, c); }
    forall j: nat | j < |d'.history| ensures Numbered(d', j, later) {
      assert Numbered(d, j, later);
      RowsOfSame(d'.history[..j], d.history[..j], d.history[j].command.client);
    }
    forall i: nat, j: nat | SameClientRows(d', i, j) ensures d'.history[i].returned.Some? && d'.history[i].Return() < d'.history[j].invoked {
      assert SameClientRows(d, i, j);
    }
    forall j: nat | j < |d'.history| && d'.history[j].returned.None? ensures Open(d', j) { assert Open(d, j); }
    forall c | c in d'.outstanding ensures exists j: nat :: Open(d', j) && OfClient(d'.history[j], c) {
      var j: nat :| Open(d, j) && OfClient(d.history[j], c);
      assert Open(d', j) && OfClient(d'.history[j], c);
    }
  }

  lemma {:induction false} ReportsTakeTurns(d: Driver, step: nat, reports: seq<Report>)
    requires DriverOK(d) && TakesTurns(d, step + 1)
    ensures TakesTurns(OnReports(d, step, reports), step + 1)
  {
    hide DriverOK, TakesTurns, OnApply;
    if reports != [] {
      var front, last := reports[..|reports| - 1], reports[|reports| - 1];
      ReportsTakeTurns(d, step, front);
      OnReportsCompletes(d, step, front);
      ApplyTakesTurns(OnReports(d, step, front), step, last.command, last.result);
    }
  }

  // ---- over runs ----

  lemma NoClientsTakeTurns()
    ensures TakesTurns(NO_CLIENTS, 0)
  {}

  /** At every moment of every driven run. */
  lemma {:induction false} ClientsTakeTurns(r: Execution, ds: seq<Driver>, k: nat)
    requires Drives(r, ds) && k < |ds|
    ensures TakesTurns(ds[k], k)
    decreases k
  {
    hide IsRun, DriverStep, DriverOK, TakesTurns, Tick, OnReports, NewReports, IsNext;
    if k == 0 {
      NoClientsTakeTurns();
    } else {
      var x := k - 1;
      ClientsTakeTurns(r, ds, x);
      DriverHolds(r, ds, x);
      RunShape(r, ds);
      assert DriverStep(r, ds, x);
      StepTakesTurns(r, ds, x);
    }
  }

  lemma StepTakesTurns(r: Execution, ds: seq<Driver>, k: nat)
    requires IsRun(r) && k < |r.events| && |ds| == |r.states| == |r.events| + 1
    requires DriverStep(r, ds, k) && DriverOK(ds[k]) && TakesTurns(ds[k], k)
    ensures TakesTurns(ds[k + 1], k + 1)
  {
    hide IsRun, DriverOK, TakesTurns, Tick, OnReports, NewReports, IsNext;
    if r.events[k].Client? || r.events[k].Read? {
      var client, next :| Ticks(r, ds, k, client, next);
      TickKeepsOK(ds[k], k, client, next);
      TickTakesTurns(ds[k], k, client, next);
      ReportsTakeTurns(Tick(ds[k], k, client, next).0, k, NewReports(r, k));
    } else {
      LaterTurns(ds[k], k);
      ReportsTakeTurns(ds[k], k, NewReports(r, k));
    }
  }
}
