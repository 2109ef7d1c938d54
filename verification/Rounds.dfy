/** What a cluster can do when nothing goes wrong: one election round, one replication round and one read
    round, message by message. They show that the theorems over runs speak of runs in which something
    happens, and exactly which clusters have such runs. */
module Rounds {
  import opened Types
  import opened Quorums
  import opened Kv
  import opened Replicas
  import opened NodeSpec
  import opened AppendSteps
  import opened Cluster

  // ---- runs, one event further ----

  function Next(c: Cluster, e: Event): Cluster
    requires Actor(e) in c.nodes && (e.Client? ==> !e.command.Config?)
  {
    c.(nodes := c.nodes[Actor(e) := Act(c.nodes[Actor(e)], e)])
  }

  predicate EndsIn(r: Execution, start: Cluster, c: Cluster) {
    IsRun(r) && r.states[0] == start && r.states[|r.states| - 1] == c
  }

  ghost predicate Reachable(start: Cluster, c: Cluster) {
    exists r :: EndsIn(r, start, c)
  }

  lemma ReachStart(start: Cluster)
    requires Starts(start)
    ensures Reachable(start, start)
  {
    assert EndsIn(Execution([start], []), start, start);
  }

  lemma ReachNext(start: Cluster, c: Cluster, e: Event)
    requires Reachable(start, c) && Enabled(c, e)
    ensures Reachable(start, Next(c, e))
  {
    hide Act, Starts, Enabled;
    var r :| EndsIn(r, start, c);
    EnabledActs(c, e);
    Extended(r, start, c, e);
  }

  lemma EnabledActs(c: Cluster, e: Event)
    requires Enabled(c, e)
    ensures Actor(e) in c.nodes && (e.Client? ==> !e.command.Config?)
  {}

  lemma Extended(r: Execution, start: Cluster, c: Cluster, e: Event)
    requires EndsIn(r, start, c) && Enabled(c, e) && Actor(e) in c.nodes && (e.Client? ==> !e.command.Config?)
    ensures EndsIn(Execution(r.states + [Next(c, e)], r.events + [e]), start, Next(c, e))
  {
    hide Act, Starts, Enabled;
    var more := Execution(r.states + [Next(c, e)], r.events + [e]);
    forall k | 0 <= k < |more.events| ensures StepBy(more.states[k], more.events[k], more.states[k + 1]) {
      if k < |r.events| { assert StepBy(r.states[k], r.events[k], r.states[k + 1]); }
    }
  }

  // ---- one server at a time ----

  /** Client 0's first operations: a put through the log, then a get through ReadIndex. */
  const FIRST := Entry(1, Kv(0, 0, Put, "k", "v", ""))
  const LOOKUP := Kv(0, 1, Get, "k", "", "")

  /** What the leader reports when the put is committed, and when the get is served. */
  const STORED: seq<Report> := [Applied(1, FIRST.command, "ok")]

  function Answered(id: nat): seq<Report> { STORED + [ReadServed(id, 1, LOOKUP, "v")] }

  function Ballot(v: NodeId, w: NodeId): Packet { Packet(v, w, RequestVote(1, v, 0, 0)) }
  function Granted(v: NodeId, w: NodeId): Packet { Packet(w, v, VoteReply(1, w, true)) }
  function Copy(v: NodeId, w: NodeId): Packet { Packet(v, w, AppendEntries(1, v, 0, 0, [FIRST], 0)) }
  function Copied(v: NodeId, w: NodeId): Packet { Packet(w, v, AppendReply(1, w, true, 1)) }
  function Ping(v: NodeId, w: NodeId, id: nat): Packet { Packet(v, w, ReadHeartbeat(1, v, id)) }
  function Pong(v: NodeId, w: NodeId, id: nat): Packet { Packet(w, v, ReadAck(1, w, id)) }

  /** A live server of term 0 or 1. */
  predicate Up(n: NodeState, w: NodeId) { n.id == w && n.alive && n.term <= 1 }

  predicate NothingLogged(r: Replica, voters: set<NodeId>) {
    && r.log == [] && r.base == 0 && r.baseTerm == 0 && r.threshold <= 0 && r.voters == voters
    && r.commit == 0 && r.lastApplied == 0 && r.configIndex == 0 && r.kv == EMPTY_KV && r.reports == []
  }

  /** A follower with an empty log. */
  predicate Quiet(n: NodeState, w: NodeId, voters: set<NodeId>) {
    Up(n, w) && n.role.Follower? && NothingLogged(n.replica, voters)
  }

  predicate Fresh(n: NodeState, w: NodeId, voters: set<NodeId>) {
    Quiet(n, w, voters) && n.term == 0 && n.votedFor == None && n.readTable.nextId == 0
  }

  predicate Campaigning(n: NodeState, v: NodeId, voters: set<NodeId>, votes: set<NodeId>) {
    && Up(n, v) && n.term == 1 && n.role.Candidate? && n.votes == votes && NothingLogged(n.replica, voters)
    && voters - {v} <= n.peers && !Majority(votes, voters) && n.readTable.nextId == 0
    && forall w | w in voters - {v} :: Ballot(v, w) in n.sent
  }

  predicate Leading(n: NodeState, v: NodeId, voters: set<NodeId>) {
    && Up(n, v) && n.term == 1 && n.role.Leader? && NothingLogged(n.replica, voters) && n.readTable.nextId == 0
    && n.requests.highest == map[] && voters - {v} <= n.progress.nextIndex.Keys
    && forall w | w in voters - {v} :: n.progress.nextIndex[w] == 1
  }

  /** The leader has appended its first entry, and the servers in `copies` are known to hold it. */
  predicate Spreading(n: NodeState, v: NodeId, voters: set<NodeId>, copies: set<NodeId>) {
    && Up(n, v) && n.term == 1 && n.role.Leader? && n.readTable.nextId == 0
    && n.replica.log == [FIRST] && n.replica.base == 0 && n.replica.threshold <= 0 && n.replica.voters == voters
    && n.replica.commit == 0 && n.replica.lastApplied == 0 && n.replica.configIndex == 0
    && n.replica.kv == EMPTY_KV && n.replica.reports == []
    && (forall w | w in copies :: MatchOf(n, w) >= 1)
    && forall w | w in voters - {v} :: Copy(v, w) in n.sent
  }

  /** The leader has committed its first entry. */
  predicate HasCommitted(n: NodeState, v: NodeId, voters: set<NodeId>) {
    && Up(n, v) && n.term == 1 && n.role.Leader? && n.replica.voters == voters
    && n.replica.commit == 1 && n.replica.lastApplied == 1 && n.committedThisTerm
    && n.replica.log == [FIRST] && n.replica.base == 0 && n.replica.threshold <= 0 && n.replica.configIndex == 0
    && n.replica.kv.store == map["k" := "v"] && n.replica.reports == STORED
  }

  predicate Settled(n: NodeState, v: NodeId, voters: set<NodeId>) {
    HasCommitted(n, v, voters) && n.readTable.nextId == 0
  }

  lemma Campaigns(n: NodeState, v: NodeId, voters: set<NodeId>, e: Event)
    requires Fresh(n, v, voters) && voters - {v} <= n.peers && v in voters && |voters| >= 2 && e == Timeout(v)
    ensures Campaigning(Act(n, e), v, voters, {v})
  {
    assert {v} * voters == {v};
    var c := Campaign(n);
    var sent := c.(sent := c.sent + SolicitPackets(c, OtherVoters(c)));
    assert Act(n, e) == sent;
    forall w | w in voters - {v} ensures Ballot(v, w) in sent.sent { assert w in OtherVoters(c); }
  }

  lemma Votes(n: NodeState, v: NodeId, w: NodeId, voters: set<NodeId>)
    requires Fresh(n, w, voters)
    ensures Quiet(Act(n, Deliver(Ballot(v, w))), w, voters) && Granted(v, w) in Act(n, Deliver(Ballot(v, w))).sent
  {}

  lemma CountsVote(n: NodeState, v: NodeId, w: NodeId, voters: set<NodeId>, votes: set<NodeId>)
    requires Campaigning(n, v, voters, votes)
    ensures var n' := Act(n, Deliver(Granted(v, w)));
            if Majority(votes + {w}, voters) then Leading(n', v, voters) else Campaigning(n', v, voters, votes + {w})
  {
    hide Majority, BroadcastPackets;
  }

  lemma TakesCommand(n: NodeState, v: NodeId, voters: set<NodeId>)
    requires Leading(n, v, voters)
    ensures Spreading(Act(n, Client(v, FIRST.command)), v, voters, {v})
  {
    var x := Extend(n, FIRST.command);
    assert [FIRST] == [] + [FIRST];
    forall w | w in voters - {v} ensures Copy(v, w) in Broadcast(x).sent {
      assert Copy(v, w) in Outgoing(x, w);
      assert w in OtherVoters(x);
    }
  }

  lemma TakesCopy(n: NodeState, v: NodeId, w: NodeId, voters: set<NodeId>)
    requires Quiet(n, w, voters)
    ensures Up(Act(n, Deliver(Copy(v, w))), w) && Copied(v, w) in Act(n, Deliver(Copy(v, w))).sent
    ensures Act(n, Deliver(Copy(v, w))).replica.reports == n.replica.reports
  {
    hide AppendLoop, SetCommit;
    LoopFrame(n.replica, 0, [FIRST]);
  }

  lemma AllHold(n: NodeState, voters: set<NodeId>, k: nat)
    requires n.replica.voters == voters && voters != {} && forall w | w in voters :: MatchOf(n, w) >= k
    ensures QuorumHolds(n, k)
  {
    assert (set v | v in n.replica.voters && MatchOf(n, v) >= k) == voters;
  }

  lemma CountsCopy(n: NodeState, v: NodeId, w: NodeId, voters: set<NodeId>, copies: set<NodeId>)
    requires Spreading(n, v, voters, copies) && v in voters
    ensures var n' := Act(n, Deliver(Copied(v, w)));
            Settled(n', v, voters) || (Spreading(n', v, voters, copies + {w}) && !(voters <= copies + {w}))
  {
    hide QuorumHolds;
    var n1 := NoteMatch(n, w, 1);
    assert Act(n, Deliver(Copied(v, w))) == AdvanceCommit(n1);
    assert TermAt(n1.replica, 1) == 1 && Last(n1) == 1;
    assert CommitPoint(n1, 0) == 0;
    if voters <= copies + {w} { AllHold(n1, voters, 1); }
    CommitsFirst(n1.replica);
  }

  lemma CommitsFirst(r: Replica)
    requires r.log == [FIRST] && r.base == 0 && r.commit == 0 && r.lastApplied == 0 && r.threshold <= 0
    requires r.kv == EMPTY_KV && r.reports == []
    ensures var r' := SetCommit(r, 1);
            && r'.commit == 1 && r'.lastApplied == 1 && r'.log == r.log && r'.base == 0 && r'.voters == r.voters
            && r'.configIndex == r.configIndex && r'.threshold == r.threshold && SetCommit(r, 0) == r
            && r'.kv.store == map["k" := "v"] && r'.reports == STORED
  {
    assert NewlyCommitted(r, 1) == [FIRST];
    AppliesFirst();
  }

  lemma AppliesFirst()
    ensures Run(EMPTY_KV, [FIRST]).store == map["k" := "v"] && ApplyReports(EMPTY_KV, 0, [FIRST]) == STORED
  {
    assert [FIRST][..0] == [];
    assert Apply(EMPTY_KV, FIRST.command).1 == "ok";
  }

  // ---- reads ----

  /** The leader waits for the acknowledgements of read `id`; it has those of `acks`. */
  predicate Reading(n: NodeState, v: NodeId, voters: set<NodeId>, id: nat, acks: set<NodeId>) {
    && HasCommitted(n, v, voters) && !Majority(acks, voters)
    && id in n.readTable.pending && n.readTable.pending[id] == PendingRead(LOOKUP, 1, acks)
    && forall w | w in voters - {v} :: Ping(v, w, id) in n.sent
  }

  predicate HasServed(n: NodeState) {
    exists x :: 0 <= x < |n.replica.reports| && n.replica.reports[x].ReadServed?
  }

  lemma AsksForRead(n: NodeState, v: NodeId, voters: set<NodeId>)
    requires Settled(n, v, voters) && v in voters && |voters| >= 2
    ensures Reading(Act(n, Read(v, LOOKUP)), v, voters, 0, {v})
  {
    assert {v} * voters == {v};
    forall w | w in voters - {v} ensures Ping(v, w, 0) in HeartbeatPackets(n, 0, OtherVoters(n)) { assert w in OtherVoters(n); }
  }

  lemma AnswersPing(n: NodeState, v: NodeId, w: NodeId, id: nat)
    requires Up(n, w)
    ensures Up(Act(n, Deliver(Ping(v, w, id))), w) && Pong(v, w, id) in Act(n, Deliver(Ping(v, w, id))).sent
    ensures Act(n, Deliver(Ping(v, w, id))).replica.reports == n.replica.reports
  {}

  lemma CountsAck(n: NodeState, v: NodeId, w: NodeId, voters: set<NodeId>, id: nat, acks: set<NodeId>)
    requires Reading(n, v, voters, id, acks)
    ensures var n' := Act(n, Deliver(Pong(v, w, id)));
            if Majority(acks + {w}, voters) then HasServed(n') && n'.replica.reports == Answered(id) else Reading(n', v, voters, id, acks + {w})
  {
    hide Majority;
    var n' := Act(n, Deliver(Pong(v, w, id)));
    if Majority(acks + {w}, voters) {
      assert n'.replica.reports[|n.replica.reports|].ReadServed?;
    }
  }
}
