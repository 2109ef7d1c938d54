/** A client driving the run of two servers: its put goes through the log and its get through ReadIndex, and both
    complete. So the theorem on client histories speaks of histories in which something happened. */
module ClientRun {
  import opened Types
  import opened Replicas
  import opened Cluster
  import opened CommitRule
  import opened Linearizability
  import opened Clients
  import opened ClientHistory
  import opened ClientLinearizability
  import opened Rounds
  import opened TwoServers

  const PUT := FIRST.command

  // The client's record: nothing, the put invoked, completed, the get invoked, completed.

  const PUT_INVOKED := Driver([HistoryEntry(PUT, 3, None, "")], map[PUT := 0], map[0 := PUT], map[])
  const PUT_DONE := Driver([HistoryEntry(PUT, 3, Some(5), "ok")], map[], map[], map[0 := 1])
  const GET_INVOKED := Driver([HistoryEntry(PUT, 3, Some(5), "ok"), HistoryEntry(LOOKUP, 6, None, "")],
                              map[LOOKUP := 1], map[0 := LOOKUP], map[0 := 1])
  const GET_DONE := Driver([HistoryEntry(PUT, 3, Some(5), "ok"), HistoryEntry(LOOKUP, 6, Some(8), "v")], map[], map[], map[0 := 2])

  function DriverAt(k: nat): Driver {
    if k <= 3 then NO_CLIENTS
    else if k <= 5 then PUT_INVOKED
    else if k == 6 then PUT_DONE
    else if k <= 8 then GET_INVOKED
    else GET_DONE
  }

  const DRIVERS := seq(10, k requires k >= 0 => DriverAt(k))

  function ReportedBy(k: nat): seq<Report> {
    if k == 5 then STORED else if k == 8 then [ReadServed(0, 1, LOOKUP, "v")] else []
  }

  /** What each event made its server report. */
  lemma NewReportsAre(k: nat)
    requires IsRun(Play(START, EVENTS)) && k < 9
    requires Reported(START, EVENTS, k, ReportsAt(k)) && Reported(START, EVENTS, k + 1, ReportsAt(k + 1))
    ensures NewReports(Play(START, EVENTS), k) == ReportedBy(k)
  {
    hide IsRun, TwoServers.After;
    StepChanges(Play(START, EVENTS), k);
    ActorOf(k);
  }

  lemma ActorOf(k: nat)
    requires k < 9
    ensures Actor(EVENTS[k]) == if k == 1 || k == 4 || k == 7 then 1 else 0
  {}

  lemma PutStarts()
    ensures IsNext(NO_CLIENTS, 0, PUT) && Tick(NO_CLIENTS, 3, 0, PUT) == (PUT_INVOKED, PUT)
  {
    var row, none: map<int, Command> := HistoryEntry(PUT, 3, None, ""), map[];
    assert [] + [row] == [row] && none[0 := PUT] == map[0 := PUT];
    var rows: map<Command, nat> := map[];
    assert rows[PUT := 0] == map[PUT := 0];
  }

  lemma PutCompletes()
    ensures OnReports(PUT_INVOKED, 5, STORED) == PUT_DONE
  {
    assert OnReports(PUT_INVOKED, 5, []) == PUT_INVOKED && STORED[..0] == [];
    assert map[PUT := 0] - {PUT} == map[] && map[0 := PUT] - {0} == map[];
  }

  lemma GetStarts()
    ensures IsNext(PUT_DONE, 0, LOOKUP) && Tick(PUT_DONE, 6, 0, LOOKUP) == (GET_INVOKED, LOOKUP)
  {
    var row, none: map<int, Command> := HistoryEntry(LOOKUP, 6, None, ""), map[];
    assert PUT_DONE.history + [row] == [PUT_DONE.history[0], row] && none[0 := LOOKUP] == map[0 := LOOKUP];
    var rows: map<Command, nat> := map[];
    assert rows[LOOKUP := 1] == map[LOOKUP := 1];
  }

  lemma GetCompletes()
    ensures OnReports(GET_INVOKED, 8, [ReadServed(0, 1, LOOKUP, "v")]) == GET_DONE
  {
    var served: seq<Report> := [ReadServed(0, 1, LOOKUP, "v")];
    assert OnReports(GET_INVOKED, 8, []) == GET_INVOKED && served[..0] == [];
    assert map[LOOKUP := 1] - {LOOKUP} == map[] && map[0 := LOOKUP] - {0} == map[];
  }

  lemma StepIsDriven(r: Execution, k: nat)
    requires IsRun(r) && r.events == EVENTS && |r.states| == 10 && k < 9 && NewReports(r, k) == ReportedBy(k)
    ensures DriverStep(r, DRIVERS, k)
  {
    hide IsRun, Tick, OnReports, IsNext;
    PutStarts();
    PutCompletes();
    GetStarts();
    GetCompletes();
    assert OnReports(DriverAt(k), k, []) == DriverAt(k) && OnReports(PUT_INVOKED, 3, []) == PUT_INVOKED && OnReports(GET_INVOKED, 6, []) == GET_INVOKED by {
      NothingReported(DriverAt(k), k);
      NothingReported(PUT_INVOKED, 3);
      NothingReported(GET_INVOKED, 6);
    }
    if k == 3 {
      assert Ticks(r, DRIVERS, 3, 0, PUT);
    } else if k == 6 {
      assert Ticks(r, DRIVERS, 6, 0, LOOKUP);
    }
  }

  lemma BothComplete()
    ensures CompletedOf(GET_DONE.history) == GET_DONE.history
  {
    var put, get := GET_DONE.history[0], GET_DONE.history[1];
    assert GET_DONE.history[1..] == [get] && [get][1..] == [] && CompletedOf([]) == [];
    assert CompletedOf([get]) == [get];
    assert [put] + [get] == GET_DONE.history;
  }

  lemma NothingReported(d: Driver, step: nat)
    ensures OnReports(d, step, []) == d
  {}

  /** The witness: a driven run whose recorded history holds a completed put and a completed get that saw its value,
      and which is linearizable as every such history. */
  lemma ClientCompletes()
    ensures Drives(Play(START, EVENTS), DRIVERS)
    ensures CompletedOf(DRIVERS[9].history) == GET_DONE.history && Linearizable(GET_DONE.history)
  {
    hide IsRun, DriverStep, Linearizable, Reported, CompletedOf, ReportsAt, TwoServers.After;
    BothComplete();
    var r := Play(START, EVENTS);
    ElectsCommitsAndReads();
    forall k | 0 <= k < |r.events| ensures DriverStep(r, DRIVERS, k) {
      NewReportsAre(k);
      StepIsDriven(r, k);
    }
    ClientHistoriesLinearizable(r, DRIVERS, 9);
  }
}
