/** The commands the harness's clients submit (raftverified/cluster.py, `client_workload`), and two facts
    about every run they drive: no two clients ever use the same key, and no cas ever succeeds. */
module Workload {
  import opened Types
  import opened Kv
  import opened Texts
  import opened Linearizability
  import opened Clients
  import opened Cluster
  import opened ClientHistory
  import opened ClientLinearizability
  import Codec

  const KEYS := ["k0", "k1", "k2"]
  const OPS := [Put, Put, Get, Cas]

  /** The place of a request in the round-robin order of three clients. */
  function Turn(client: int, req: int): int { req * 3 + client }

  function Value(turn: int): string { "v" + IntText(turn) }

  function ClientWorkload(client: int, req: int): Command {
    var turn := Turn(client, req);
    var key := KEYS[turn % 3];
    match OPS[turn % 4]
    case Get => Kv(client, req, Get, key, "", "")
    case Cas => Kv(client, req, Cas, key, Value(turn), if turn != 0 then Value(turn - 1) else "")
    case Put => Kv(client, req, Put, key, Value(turn), "")
  }

  /** What an idle client submits is a proper next operation: its own id, its next request number. */
  lemma WorkloadIsNext(d: Driver, client: int)
    requires client >= 0
    ensures IsNext(d, client, ClientWorkload(client, NextReq(d, client)))
  {}

  /** The submitted string reads back as the command. */
  lemma WorkloadRoundTrips(client: int, req: int)
    ensures var c := ClientWorkload(client, req);
            var raw := Codec.Command(client, req, Codec.Op(c.op), c.key, c.value, c.expected);
            Codec.Decode(Codec.Encode(raw)) == raw && Codec.Spells(Codec.Encode(raw), c)
  {
    hide Codec.Decode, Codec.Encode, IntText;
    var c := ClientWorkload(client, req);
    IntTextShape(Turn(client, req));
    IntTextShape(Turn(client, req) - 1);
    Codec.RoundTrip(Codec.Command(client, req, Codec.Op(c.op), c.key, c.value, c.expected));
  }

  /** The key of a request depends on its client only. */
  lemma ClientsNeverContend(client: int, req: int, other: int, otherReq: int)
    ensures ClientWorkload(client, req).key == ClientWorkload(other, otherReq).key <==> client % 3 == other % 3
  {
    assert Turn(client, req) % 3 == client % 3;
    assert Turn(other, otherReq) % 3 == other % 3;
    assert forall i, j | 0 <= i < j < 3 :: KEYS[i][1] != KEYS[j][1];
  }

  lemma KindAt(client: int, req: int)
    ensures ClientWorkload(client, req).op == OPS[Turn(client, req) % 4]
  {
    hide Value;
  }

  lemma NextTurn(client: int, req: int)
    ensures var t, t' := Turn(client, req) % 4, Turn(client, req + 1) % 4; t' == if t == 0 then 3 else t - 1
  {}

  /** A client goes round: a get is followed by two puts and a cas, and then the next get. */
  lemma KindsGoRound(client: int, req: int)
    ensures var a, b, c, d := ClientWorkload(client, req).op, ClientWorkload(client, req + 1).op, ClientWorkload(client, req + 2).op, ClientWorkload(client, req + 3).op;
            (a.Get? || b.Get? || c.Get? || d.Get?) && (a.Get? ==> b.Put? && c.Put? && d.Cas?) && (a.Cas? ==> b.Get?)
  {
    hide ClientWorkload, Turn;
    KindAt(client, req);
    KindAt(client, req + 1);
    KindAt(client, req + 2);
    KindAt(client, req + 3);
    NextTurn(client, req);
    NextTurn(client, req + 1);
    NextTurn(client, req + 2);
  }

  lemma WrittenValue(client: int, req: int)
    requires !ClientWorkload(client, req).op.Get?
    ensures ClientWorkload(client, req).value == Value(Turn(client, req))
  {
    hide Value;
  }

  lemma SameTurn(client: int, req: int, other: int, otherReq: int)
    requires 0 <= client < 3 && 0 <= other < 3 && Turn(client, req) == Turn(other, otherReq)
    ensures client == other && req == otherReq
  {}

  /** No two requests of the three clients would write the same value, so a value read tells which request wrote it. */
  lemma WritesNeverRepeat(client: int, req: int, other: int, otherReq: int)
    requires 0 <= client < 3 && 0 <= other < 3
    requires !ClientWorkload(client, req).op.Get? && !ClientWorkload(other, otherReq).op.Get?
    ensures ClientWorkload(client, req).value == ClientWorkload(other, otherReq).value <==> client == other && req == otherReq
  {
    hide Value, ClientWorkload, Turn;
    WrittenValue(client, req);
    WrittenValue(other, otherReq);
    if Value(Turn(client, req)) == Value(Turn(other, otherReq)) {
      ValueInjective(Turn(client, req), Turn(other, otherReq));
      SameTurn(client, req, other, otherReq);
    }
  }

  predicate IsWorkload(cmd: Command) {
    cmd.Kv? && cmd == ClientWorkload(cmd.client, cmd.req)
  }

  predicate WrittenAt(key: string, value: string, turn: int) {
    key == KEYS[turn % 3] && value == Value(turn)
  }

  /** Every key holds a value written by a request of its own client. */
  ghost predicate Fits(store: Store) {
    forall key | key in store :: exists turn :: WrittenAt(key, store[key], turn)
  }

  lemma ValueInjective(a: int, b: int)
    requires Value(a) == Value(b)
    ensures a == b
  {
    hide IntText, ParseInt;
    assert Value(a)[1..] == IntText(a) && Value(b)[1..] == IntText(b);
    ParseIntText(a);
    ParseIntText(b);
  }

  lemma OneStep(store: Store, cmd: Command)
    requires Fits(store) && IsWorkload(cmd)
    ensures Fits(Execute(store, cmd).0)
    ensures cmd.op.Cas? ==> Execute(store, cmd).1 == "fail"
  {
    hide Value;
    var turn := Turn(cmd.client, cmd.req);
    if cmd.op.Cas? && cmd.key in store {
      var t :| WrittenAt(cmd.key, store[cmd.key], t);
      assert forall i, j | 0 <= i < j < 3 :: KEYS[i][1] != KEYS[j][1];
      if store[cmd.key] == cmd.expected { ValueInjective(t, turn - 1); }
    }
    NeverEmpty(turn - 1);
    assert cmd.op.Put? ==> WrittenAt(cmd.key, cmd.value, turn);
  }

  lemma NeverEmpty(turn: int)
    ensures Value(turn) != ""
  {}

  predicate AllWorkload(lin: seq<HistoryEntry>) {
    forall x | 0 <= x < |lin| :: IsWorkload(lin[x].command)
  }

  lemma {:induction false} CasFailsIn(store: Store, lin: seq<HistoryEntry>)
    requires Fits(store) && Legal(store, lin) && AllWorkload(lin)
    ensures forall x | 0 <= x < |lin| && lin[x].command.op.Cas? :: lin[x].observed == "fail"
    decreases |lin|
  {
    hide ClientWorkload, Fits, Execute;
    if lin != [] {
      OneStep(store, lin[0].command);
      CasFailsIn(After(store, lin[0]), lin[1..]);
      assert forall x | 0 < x < |lin| :: lin[x] == lin[1..][x - 1];
    }
  }

  /** In every run driven by this workload, every completed cas has failed. */
  lemma CasNeverSucceeds(r: Execution, ds: seq<Driver>, n: nat, j: nat)
    requires Drives(r, ds) && n < |ds| && AllWorkload(ds[n].history)
    requires j < |ds[n].history| && ds[n].history[j].Completed() && ds[n].history[j].command.op.Cas?
    ensures ds[n].history[j].observed == "fail"
  {
    hide Drives, IsWorkload, Legal, InRealTime, CompletedOf;
    var history := ds[n].history;
    ClientHistoriesLinearizable(r, ds, n);
    var lin: seq<HistoryEntry> :| IsLinearization(CompletedOf(history), lin);
    forall x | 0 <= x < |lin| ensures IsWorkload(lin[x].command) {
      assert lin[x] in multiset(lin);
      var y :| 0 <= y < |CompletedOf(history)| && CompletedOf(history)[y] == lin[x];
      CompletedAreRows(history, y);
    }
    CasFailsIn(map[], lin);
    RowIsCompleted(history, j);
    assert history[j] in multiset(lin);
  }
}
