/** The client driver: a client keeps one operation outstanding, retries it until it is applied, and
    records when it was invoked, when it returned and what it saw (raftverified/cluster.py,
    `_client_tick`, `_invoke`, `_on_apply`). */
module Clients {
  import opened Types
  import opened Replicas
  import opened Linearizability

  /** `pending` maps the commands of uncompleted operations to their rows. */
  datatype Driver = Driver(
    history: seq<HistoryEntry>, pending: map<Command, nat>, outstanding: map<int, Command>, nextReq: map<int, int>)

  const NO_CLIENTS := Driver([], map[], map[], map[])

  function NextReq(d: Driver, client: int): int { if client in d.nextReq then d.nextReq[client] else 0 }

  /** Record that an operation was invoked at `step`. */
  function Invoke(d: Driver, step: nat, cmd: Command): Driver {
    d.(history := d.history + [HistoryEntry(cmd, step, None, "")], pending := d.pending[cmd := |d.history|])
  }

  /** The operation a client submits now: its outstanding one again, or a new one. */
  function Tick(d: Driver, step: nat, client: int, next: Command): (Driver, Command) {
    if client in d.outstanding then (d, d.outstanding[client])
    else (Invoke(d.(outstanding := d.outstanding[client := next]), step, next), next)
  }

  /** The client's next operation carries its id and its next request number. */
  predicate IsNext(d: Driver, client: int, next: Command) {
    next.IsStructured() && next.client == client && next.req == NextReq(d, client)
  }

  function MoveOn(d: Driver, cmd: Command): Driver
    requires cmd.Kv?
  {
    if cmd.client in d.outstanding && d.outstanding[cmd.client] == cmd then
      d.(outstanding := d.outstanding - {cmd.client}, nextReq := d.nextReq[cmd.client := NextReq(d, cmd.client) + 1])
    else d
  }

  function Complete(d: Driver, step: nat, cmd: Command, result: string): Driver {
    if cmd in d.pending && d.pending[cmd] < |d.history| then
      var j := d.pending[cmd];
      d.(history := d.history[j := d.history[j].(returned := Some(step), observed := result)], pending := d.pending - {cmd})
    else d
  }

  /** The apply callback: the first application of an operation completes it. */
  function OnApply(d: Driver, step: nat, cmd: Command, result: string): Driver {
    if !cmd.IsStructured() then d else Complete(MoveOn(d, cmd), step, cmd, result)
  }

  function OnReports(d: Driver, step: nat, reports: seq<Report>): Driver {
    if reports == [] then d
    else
      var last := reports[|reports| - 1];
      OnApply(OnReports(d, step, reports[..|reports| - 1]), step, last.command, last.result)
  }

  // ---- what the driver maintains ----

  predicate HasRow(d: Driver, cmd: Command) {
    exists j :: 0 <= j < |d.history| && d.history[j].command == cmd
  }

  predicate RowOK(d: Driver, j: nat) {
    && j < |d.history|
    && var row := d.history[j];
    && row.command.IsStructured()
    && row.command.req <= NextReq(d, row.command.client)
    && (row.command.req == NextReq(d, row.command.client) ==> row.command.client in d.outstanding)
    && (row.returned.None? ==> row.command in d.pending && d.pending[row.command] == j)
    && (row.returned.Some? ==> row.command !in d.pending)
  }

  predicate DriverOK(d: Driver) {
    && (forall j: nat | j < |d.history| :: RowOK(d, j))
    && (forall i, j | 0 <= i < j < |d.history| :: d.history[i].command != d.history[j].command)
    && (forall cmd | cmd in d.pending :: d.pending[cmd] < |d.history| && d.history[d.pending[cmd]].command == cmd)
    && (forall c | c in d.outstanding :: d.outstanding[c].IsStructured() && d.outstanding[c].client == c && HasRow(d, d.outstanding[c]))
  }

  /** Rows are only added and completed. */
  predicate Continues(d: Driver, d': Driver) {
    && |d.history| <= |d'.history|
    && forall j | 0 <= j < |d.history| ::
         && d'.history[j].command == d.history[j].command && d'.history[j].invoked == d.history[j].invoked
         && (d.history[j].returned.Some? ==> d'.history[j] == d.history[j])
  }

  lemma ContinuesTransitive(a: Driver, b: Driver, c: Driver)
    requires Continues(a, b) && Continues(b, c)
    ensures Continues(a, c)
  {}

  lemma HasRowContinues(a: Driver, b: Driver, cmd: Command)
    requires Continues(a, b) && HasRow(a, cmd)
    ensures HasRow(b, cmd)
  {
    var j :| 0 <= j < |a.history| && a.history[j].command == cmd;
    assert b.history[j].command == cmd;
  }

  lemma TickKeepsOK(d: Driver, step: nat, client: int, next: Command)
    requires DriverOK(d) && IsNext(d, client, next)
    ensures var (d', cmd) := Tick(d, step, client, next);
            && DriverOK(d') && Continues(d, d') && cmd.IsStructured() && HasRow(d', cmd)
            && (forall j | |d.history| <= j < |d'.history| :: d'.history[j].invoked == step && d'.history[j].returned.None?)
            && |d'.history| <= |d.history| + 1
  {
    if client !in d.outstanding {
      var d' := Tick(d, step, client, next).0;
      assert d'.history[|d.history|].command == next;
      forall j: nat | j < |d.history| ensures d.history[j].command != next { assert RowOK(d, j); }
      forall j: nat | j < |d'.history| ensures RowOK(d', j) {
        if j < |d.history| { assert RowOK(d, j); }
      }
      forall c | c in d'.outstanding ensures HasRow(d', d'.outstanding[c]) {
        if c != client { HasRowContinues(d, d', d.outstanding[c]); }
      }
    }
  }

  lemma MoveOnKeepsOK(d: Driver, cmd: Command)
    requires DriverOK(d) && cmd.Kv?
    ensures DriverOK(MoveOn(d, cmd)) && MoveOn(d, cmd).history == d.history && MoveOn(d, cmd).pending == d.pending
  {
    var d' := MoveOn(d, cmd);
    forall j: nat | j < |d'.history| ensures RowOK(d', j) { assert RowOK(d, j); }
    forall c | c in d'.outstanding ensures HasRow(d', d'.outstanding[c]) { assert HasRow(d, d.outstanding[c]); }
  }

  /** The operation is no longer pending; if it was, its row now has this step and result. */
  predicate Completes(d: Driver, d': Driver, step: nat, cmd: Command, result: string) {
    && |d'.history| == |d.history|
    && (cmd.IsStructured() ==> cmd !in d'.pending)
    && d'.pending.Keys <= d.pending.Keys
    && forall j | 0 <= j < |d.history| ::
         || d'.history[j] == d.history[j]
         || (d.history[j].returned.None? && d.history[j].command == cmd
             && d'.history[j] == d.history[j].(returned := Some(step), observed := result))
  }

  lemma OnApplyCompletes(d: Driver, step: nat, cmd: Command, result: string)
    requires DriverOK(d)
    ensures DriverOK(OnApply(d, step, cmd, result)) && Continues(d, OnApply(d, step, cmd, result))
    ensures Completes(d, OnApply(d, step, cmd, result), step, cmd, result)
  {
    if cmd.IsStructured() {
      var d1, d' := MoveOn(d, cmd), OnApply(d, step, cmd, result);
      MoveOnKeepsOK(d, cmd);
      if cmd in d1.pending {
        var x := d1.pending[cmd];
        assert RowOK(d1, x);
        forall j: nat | j < |d'.history| ensures RowOK(d', j) { assert RowOK(d1, j); }
        forall c | c in d'.outstanding ensures HasRow(d', d'.outstanding[c]) { SameCommandsSameRows(d1, d', d'.outstanding[c]); }
      }
    }
  }

  lemma SameCommandsSameRows(d: Driver, d': Driver, cmd: Command)
    requires HasRow(d, cmd) && |d'.history| == |d.history|
    requires forall j | 0 <= j < |d.history| :: d'.history[j].command == d.history[j].command
    ensures HasRow(d', cmd)
  {
    var j :| 0 <= j < |d.history| && d.history[j].command == cmd;
    assert d'.history[j].command == cmd;
  }

  /** What a batch of reports does to a row. */
  predicate CompletedBy(before: HistoryEntry, after: HistoryEntry, step: nat, rep: Report) {
    before.returned.None? && before.command == rep.command && after == before.(returned := Some(step), observed := rep.result)
  }

  predicate CompletesRows(d: Driver, d': Driver, step: nat, reports: seq<Report>) {
    && |d'.history| == |d.history| && d'.pending.Keys <= d.pending.Keys
    && (forall x | 0 <= x < |reports| && reports[x].command.IsStructured() :: reports[x].command !in d'.pending)
    && forall j | 0 <= j < |d.history| ::
         d'.history[j] == d.history[j] || exists x :: 0 <= x < |reports| && CompletedBy(d.history[j], d'.history[j], step, reports[x])
  }

  lemma {:induction false} OnReportsCompletes(d: Driver, step: nat, reports: seq<Report>)
    requires DriverOK(d)
    ensures DriverOK(OnReports(d, step, reports)) && Continues(d, OnReports(d, step, reports))
    ensures CompletesRows(d, OnReports(d, step, reports), step, reports)
  {
    hide DriverOK, OnApply;
    if reports != [] {
      var front, last := reports[..|reports| - 1], reports[|reports| - 1];
      OnReportsCompletes(d, step, front);
      var d1 := OnReports(d, step, front);
      OnApplyCompletes(d1, step, last.command, last.result);
      var d' := OnReports(d, step, reports);
      ContinuesTransitive(d, d1, d');
      ReportsMore(d, d1, d', step, front, last);
      assert front + [last] == reports;
    }
  }

  lemma ReportsMore(d: Driver, d1: Driver, d': Driver, step: nat, front: seq<Report>, last: Report)
    requires CompletesRows(d, d1, step, front) && Completes(d1, d', step, last.command, last.result)
    ensures CompletesRows(d, d', step, front + [last])
  {
    var reports := front + [last];
    forall x | 0 <= x < |reports| && reports[x].command.IsStructured() ensures reports[x].command !in d'.pending {
      if x < |front| { assert reports[x] == front[x]; }
    }
    forall j | 0 <= j < |d.history|
      ensures d'.history[j] == d.history[j] || exists x :: 0 <= x < |reports| && CompletedBy(d.history[j], d'.history[j], step, reports[x])
    {
      if d1.history[j] != d.history[j] {
        var x :| 0 <= x < |front| && CompletedBy(d.history[j], d1.history[j], step, front[x]);
        assert reports[x] == front[x];
      } else if d'.history[j] != d1.history[j] {
        assert CompletedBy(d.history[j], d'.history[j], step, reports[|front|]);
      }
    }
  }
}
