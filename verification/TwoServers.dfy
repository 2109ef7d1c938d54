/** A run of two servers, event by event: an election, a committed command and a read served through ReadIndex.
    Every theorem over runs applies to it, so none of them is vacuous. */
module TwoServers {
  import opened Types
  import opened Quorums
  import opened Replicas
  import opened NodeSpec
  import opened Cluster
  import opened ClusterSafety
  import opened Rounds
  import opened Progress
  import opened LookupSafety
  import opened Soundness

  const START := Cluster({0, 1}, map[0 := Initial(0, {1}, {0, 1}, 0), 1 := Initial(1, {0}, {0, 1}, 0)])

  const EVENTS := [
    Timeout(0), Deliver(Ballot(0, 1)), Deliver(Granted(0, 1)),
    Client(0, FIRST.command), Deliver(Copy(0, 1)), Deliver(Copied(0, 1)),
    Read(0, LOOKUP), Deliver(Ping(0, 1, 0)), Deliver(Pong(0, 1, 0))]

  /** Where the events lead; one that cannot happen is skipped. */
  function After(start: Cluster, events: seq<Event>): Cluster {
    if events == [] then start
    else
      var c, e := After(start, events[..|events| - 1]), events[|events| - 1];
      if Actor(e) in c.nodes && (e.Client? ==> !e.command.Config?) then Next(c, e) else c
  }

  function Play(start: Cluster, events: seq<Event>): Execution {
    Execution(seq(|events| + 1, k requires 0 <= k <= |events| => After(start, events[..k])), events)
  }

  predicate CanHappen(start: Cluster, events: seq<Event>, k: nat)
    requires k < |events|
  {
    Enabled(After(start, events[..k]), events[k])
  }

  lemma AfterNext(start: Cluster, events: seq<Event>, k: nat)
    requires k < |events| && CanHappen(start, events, k)
    ensures var c := After(start, events[..k]);
            Enabled(c, events[k]) && After(start, events[..k + 1]) == Next(c, events[k])
  {
    hide Act, Sent;
    assert events[..k + 1][..k] == events[..k];
  }

  lemma PlayIsRun(start: Cluster, events: seq<Event>)
    requires Starts(start) && forall k: nat | k < |events| :: CanHappen(start, events, k)
    ensures IsRun(Play(start, events))
  {
    hide Act, Starts, CanHappen, Enabled;
    var r := Play(start, events);
    assert r.states[0] == start;
    forall k: nat | k < |events| ensures StepBy(r.states[k], events[k], r.states[k + 1]) {
      AfterNext(start, events, k);
      EnabledActs(r.states[k], events[k]);
    }
  }

  /** What the two servers have reported after the first k events. */
  predicate Reported(start: Cluster, events: seq<Event>, k: nat, first: seq<Report>)
    requires k <= |events|
  {
    var c := After(start, events[..k]);
    0 in c.nodes && 1 in c.nodes && c.nodes[0].replica.reports == first && c.nodes[1].replica.reports == []
  }

  predicate IsPair(start: Cluster) {
    Starts(start) && start.initial == {0, 1} && start.initial <= start.nodes.Keys
  }

  lemma PairFacts(c: Cluster)
    requires c.initial == {0, 1}
    ensures Others(c, 0) == {1} && |c.initial| == 2 && Majority({0} + {} + {1}, c.initial) && c.initial <= {0} + {1}
  {
    AllAreMajority({0} + {} + {1}, c.initial);
  }

  /** The first three events elect server 0. */
  lemma ElectionHappens(start: Cluster, events: seq<Event>)
    requires IsPair(start) && |events| >= 3 && events[..3] == [Timeout(0), Deliver(Ballot(0, 1)), Deliver(Granted(0, 1))]
    ensures forall k: nat | k < 3 :: CanHappen(start, events, k)
    ensures var c := After(start, events[..3]); Elected(c, 0) && c.initial == {0, 1}
    ensures Reported(start, events, 0, []) && Reported(start, events, 1, []) && Reported(start, events, 2, []) && Reported(start, events, 3, [])
  {
    hide Act, Asking, Elected, Enabled, After, Starts, Majority, Others, Reported;
    Started(start, events);
    PairFacts(start);
    StartAsking(start, 0);
    AfterNext(start, events, 0);
    var c1 := After(start, events[..1]);
    PairFacts(c1);
    AskOne(c1, 0, {}, 1);
    AfterNext(start, events, 1);
    AfterNext(start, events, 2);
    NobodyReported(start, events);
  }

  lemma NobodyReported(start: Cluster, events: seq<Event>)
    requires IsPair(start) && |events| >= 3 && events[..3] == [Timeout(0), Deliver(Ballot(0, 1)), Deliver(Granted(0, 1))]
    requires CanHappen(start, events, 1) && CanHappen(start, events, 2) && After(start, events[..0]) == start
    requires Asking(After(start, events[..1]), 0, {}) && After(start, events[..1]).initial == {0, 1}
    requires Elected(After(start, events[..3]), 0) && After(start, events[..3]).initial == {0, 1}
    ensures Reported(start, events, 0, []) && Reported(start, events, 1, []) && Reported(start, events, 2, []) && Reported(start, events, 3, [])
  {
    hide Act, Enabled, After, Majority, CanHappen;
    var c1, c3 := After(start, events[..1]), After(start, events[..3]);
    assert Others(c1, 0) == {1} && Others(c3, 0) == {1};
    OthersStay(start, events, 1, 0);
    OthersStay(start, events, 2, 1);
  }

  /** An event changes one server only. */
  lemma OthersStay(start: Cluster, events: seq<Event>, k: nat, i: NodeId)
    requires k < |events| && CanHappen(start, events, k) && i != Actor(events[k])
    ensures i in After(start, events[..k]).nodes <==> i in After(start, events[..k + 1]).nodes
    ensures i in After(start, events[..k]).nodes ==> After(start, events[..k + 1]).nodes[i] == After(start, events[..k]).nodes[i]
  {
    hide Act, After, Enabled;
    AfterNext(start, events, k);
    EnabledActs(After(start, events[..k]), events[k]);
  }

  lemma Started(start: Cluster, events: seq<Event>)
    requires |events| >= 1
    ensures After(start, events[..0]) == start
  {}

  /** The next three commit its first entry. */
  lemma ReplicationHappens(start: Cluster, events: seq<Event>)
    requires |events| >= 6 && events[3..6] == [Client(0, FIRST.command), Deliver(Copy(0, 1)), Deliver(Copied(0, 1))]
    requires var c := After(start, events[..3]); Elected(c, 0) && c.initial == {0, 1}
    ensures forall k: nat | 3 <= k < 6 :: CanHappen(start, events, k)
    ensures var c := After(start, events[..6]); Committed(c, 0) && c.initial == {0, 1}
    ensures Reported(start, events, 4, []) && Reported(start, events, 5, []) && Reported(start, events, 6, STORED)
  {
    hide Act, Elected, Committed, Enabled, After, Majority, Others, Up, Quiet, Spreading, Reported;
    assert events[3] == Client(0, FIRST.command) && events[4] == Deliver(Copy(0, 1)) && events[5] == Deliver(Copied(0, 1));
    PairFacts(After(start, events[..3]));
    StartCopying(After(start, events[..3]), 0);
    AfterNext(start, events, 3);
    var c1 := After(start, events[..4]);
    PairFacts(c1);
    CopyOne(c1, 0, {}, 1);
    AfterNext(start, events, 4);
    AfterNext(start, events, 5);
    PutReported(start, events);
  }

  lemma PutReported(start: Cluster, events: seq<Event>)
    requires |events| >= 6 && events[4] == Deliver(Copy(0, 1)) && events[5] == Deliver(Copied(0, 1))
    requires CanHappen(start, events, 4) && CanHappen(start, events, 5)
    requires Copying(After(start, events[..4]), 0, {}) && After(start, events[..4]).initial == {0, 1}
    requires Committed(After(start, events[..6]), 0) && After(start, events[..6]).initial == {0, 1}
    ensures Reported(start, events, 4, []) && Reported(start, events, 5, []) && Reported(start, events, 6, STORED)
  {
    hide Act, Enabled, After, Majority, CanHappen;
    var c4 := After(start, events[..4]);
    assert Others(c4, 0) == {1};
    AfterNext(start, events, 4);
    TakesCopy(c4.nodes[1], 0, 1, {0, 1});
    OthersStay(start, events, 4, 0);
    OthersStay(start, events, 5, 1);
  }

  /** The last three serve a read. */
  lemma ReadHappens(start: Cluster, events: seq<Event>)
    requires |events| >= 9 && events[6..9] == [Read(0, LOOKUP), Deliver(Ping(0, 1, 0)), Deliver(Pong(0, 1, 0))]
    requires var c := After(start, events[..6]); Committed(c, 0) && c.initial == {0, 1}
    requires Reported(start, events, 6, STORED)
    ensures forall k: nat | 6 <= k < 9 :: CanHappen(start, events, k)
    ensures Served(After(start, events[..9]), 0)
    ensures Reported(start, events, 7, STORED) && Reported(start, events, 8, STORED) && Reported(start, events, 9, Answered(0))
  {
    hide Act, Committed, Polling, Served, Enabled, After, Majority, Others, Reported, Answered;
    assert events[6] == Read(0, LOOKUP) && events[7] == Deliver(Ping(0, 1, 0)) && events[8] == Deliver(Pong(0, 1, 0));
    PairFacts(After(start, events[..6]));
    StartPolling(After(start, events[..6]), 0);
    AfterNext(start, events, 6);
    var c1 := After(start, events[..7]);
    PairFacts(c1);
    PollOne(c1, 0, 0, {}, 1);
    AfterNext(start, events, 7);
    AfterNext(start, events, 8);
    ServedAt(After(start, events[..9]), 0);
    GetReported(start, events);
  }

  lemma ServedAt(c: Cluster, v: NodeId)
    requires Served(c, v)
    ensures v in c.nodes
  {}

  lemma GetReported(start: Cluster, events: seq<Event>)
    requires |events| >= 9 && events[6..9] == [Read(0, LOOKUP), Deliver(Ping(0, 1, 0)), Deliver(Pong(0, 1, 0))]
    requires CanHappen(start, events, 6) && CanHappen(start, events, 7) && CanHappen(start, events, 8)
    requires Reported(start, events, 6, STORED) && Polling(After(start, events[..7]), 0, 0, {}) && After(start, events[..7]).initial == {0, 1}
    requires 0 in After(start, events[..9]).nodes && After(start, events[..9]).nodes[0].replica.reports == Answered(0)
    ensures Reported(start, events, 7, STORED) && Reported(start, events, 8, STORED) && Reported(start, events, 9, Answered(0))
  {
    hide Act, Enabled, After, Majority, CanHappen, Answered;
    assert events[6] == Read(0, LOOKUP) && events[7] == Deliver(Ping(0, 1, 0)) && events[8] == Deliver(Pong(0, 1, 0));
    var c7 := After(start, events[..7]);
    assert Others(c7, 0) == {1};
    OthersStay(start, events, 6, 1);
    AfterNext(start, events, 7);
    AnswersPing(c7.nodes[1], 0, 1, 0);
    OthersStay(start, events, 7, 0);
    OthersStay(start, events, 8, 1);
  }

  lemma StartIsPair()
    ensures IsPair(START)
  {}

  lemma CommittedLeader(c: Cluster)
    requires Committed(c, 0) && c.initial == {0, 1}
    ensures 0 in c.nodes && Settled(c.nodes[0], 0, {0, 1})
  {}

  function ReportsAt(k: nat): seq<Report> {
    if k < 6 then [] else if k < 9 then STORED else Answered(0)
  }

  /** The witness: a run of nine events that commits an entry after six and has served a read after nine. */
  lemma ElectsCommitsAndReads()
    ensures IsRun(Play(START, EVENTS)) && At(Play(START, EVENTS), 6, 0) && At(Play(START, EVENTS), 9, 0)
    ensures LeadsAt(Play(START, EVENTS), 6, 0, 1) && Settled(NodeAt(Play(START, EVENTS), 6, 0), 0, {0, 1})
    ensures NodeAt(Play(START, EVENTS), 6, 0).replica.commit == 1
    ensures HasServed(NodeAt(Play(START, EVENTS), 9, 0))
    ensures forall k: nat | k <= 9 :: Reported(START, EVENTS, k, ReportsAt(k))
  {
    hide Act, IsRun, HasServed, CanHappen, After, Starts, Reported, Answered;
    StartIsPair();
    ElectionHappens(START, EVENTS);
    ReplicationHappens(START, EVENTS);
    ReadHappens(START, EVENTS);
    CommittedLeader(After(START, EVENTS[..6]));
    PlayIsRun(START, EVENTS);
  }

  /** A change that fails: the leader of that run accepts server 7 into its configuration, although there is no
      such server, and then looks up where to start replicating to it. */
  lemma UnknownVoterFails()
    ensures IsRun(Play(START, EVENTS)) && At(Play(START, EVENTS), 6, 0)
    ensures var n := NodeAt(Play(START, EVENTS), 6, 0);
            MayChangeConfig(n, {0, 1, 7}) && !LookupsSucceed(n, Reconfigure(0, {0, 1, 7}))
  {
    hide IsRun, HasServed, Settled, Play, LookupsSucceed, MayChangeConfig, Starts;
    ElectsCommitsAndReads();
    var r := Play(START, EVENTS);
    AcceptsUnknown(NodeAt(r, 6, 0));
    PlayStarts(START, EVENTS);
    AcceptedChangeCanBeSent(r, 6, 0, {0, 1, 7});
    assert 7 in {0, 1, 7} && 7 !in START.nodes.Keys;
    CannotReconfigure(NodeAt(r, 6, 0), 0, {0, 1, 7});
  }

  lemma PlayStarts(start: Cluster, events: seq<Event>)
    ensures |Play(start, events).states| > 0 && Play(start, events).states[0] == start
  {}

  lemma AcceptsUnknown(n: NodeState)
    requires Settled(n, 0, {0, 1})
    ensures MayChangeConfig(n, {0, 1, 7})
  {
    assert ({0, 1, 7} - {0, 1}) + ({0, 1} - {0, 1, 7}) == {7};
  }

  lemma CannotReconfigure(n: NodeState, i: NodeId, voters: set<NodeId>)
    requires MayChangeConfig(n, voters) && !CanBroadcast(Extend(n, Config(voters)))
    ensures !LookupsSucceed(n, Reconfigure(i, voters))
  {
    hide MayChangeConfig, CanBroadcast, Extend, Bounded;
  }
}
