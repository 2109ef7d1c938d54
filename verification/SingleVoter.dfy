/** The known defect of one-voter clusters, as a theorem over runs: the commit rule runs only when an
    AppendEntries reply arrives, and with nobody to send to none ever does, so nothing is ever committed,
    applied or read (raftverified/node.py, `_on_append_reply`, `_other_voters`). Progress shows that every
    cluster with more voters has runs that commit. */
module SingleVoter {
  import opened Types
  import opened Quorums
  import opened Logs
  import opened Replicas
  import opened NodeSpec
  import opened Cluster
  import opened ClusterSafety
  import opened CommitRule

  /** The server has a configuration of at most one voter and has neither sent, committed nor reported anything. */
  predicate Idle(n: NodeState, voters: set<NodeId>) {
    && n.replica.voters == voters && n.replica.initialVoters == voters && n.replica.snapshot.None?
    && (forall j | 0 <= j < |n.replica.log| :: !n.replica.log[j].command.Config?)
    && (n.id !in voters ==> n.role.Follower?)
    && n.sent == {} && n.replica.commit == 0 && !n.committedThisTerm && n.replica.reports == []
  }

  lemma NoConfigEntries(log: Log)
    requires forall j | 0 <= j < |log| :: !log[j].command.Config?
    ensures LatestConfig(log) == 0 && forall initial: set<NodeId> :: ConfigOf(initial, log) == initial
  {
    if log != [] { NoConfigEntries(log[..|log| - 1]); }
  }

  lemma OnlyVoter(voters: set<NodeId>, v: NodeId)
    requires |voters| <= 1 && v in voters
    ensures voters == {v}
  {
    assert |voters - {v}| == |voters| - 1;
  }

  lemma NobodyElse(n: NodeState, voters: set<NodeId>)
    requires n.replica.voters == voters && |voters| <= 1 && n.id in voters
    ensures OtherVoters(n) == {} && BroadcastPackets(n, OtherVoters(n)) == {} && SolicitPackets(n, OtherVoters(n)) == {}
  {
    OnlyVoter(voters, n.id);
  }

  lemma IdleTimeout(n: NodeState, voters: set<NodeId>)
    requires Idle(n, voters) && |voters| <= 1
    ensures Idle(ElectionTimeout(n), voters) && ElectionTimeout(n).id == n.id
  {
    hide BroadcastPackets, SolicitPackets, ClientIndex, Majority, OtherVoters;
    if n.id in voters {
      var c := Campaign(n);
      NobodyElse(c, voters);
      assert c.(sent := c.sent + SolicitPackets(c, OtherVoters(c))) == c;
      NobodyElse(Lead(c), voters);
    }
  }

  lemma IdleClient(n: NodeState, voters: set<NodeId>, cmd: Command)
    requires Idle(n, voters) && |voters| <= 1 && !cmd.Config?
    ensures Idle(ClientCommand(n, cmd).0, voters) && ClientCommand(n, cmd).0.id == n.id
  {
    hide BroadcastPackets, AlreadyAppended, OtherVoters;
    if n.id in voters { NobodyElse(Extend(n, cmd), voters); }
  }

  lemma IdleStep(n: NodeState, e: Event, voters: set<NodeId>)
    requires Idle(n, voters) && |voters| <= 1 && !e.Deliver? && (e.Client? ==> !e.command.Config?)
    ensures Idle(Act(n, e), voters) && Act(n, e).id == n.id
  {
    hide LatestConfig, ConfigOf, BroadcastPackets, OtherVoters, ElectionTimeout, ClientCommand, OneApart, ReadConfirmed;
    NoConfigEntries(n.replica.log);
    if n.id in voters { NobodyElse(n, voters); }
    if e.Timeout? { IdleTimeout(n, voters); }
    if e.Client? { IdleClient(n, voters, e.command); }
  }

  /** In every run of a cluster that starts with at most one voter, no server ever sends, commits or reports
      anything. */
  lemma {:induction false} OneVoterNeverCommits(r: Execution, k: nat, i: NodeId)
    requires At(r, k, i) && |r.states[0].initial| <= 1
    ensures NodeAt(r, k, i).sent == {} && NodeAt(r, k, i).replica.commit == 0 && NodeAt(r, k, i).replica.reports == []
    ensures NodeAt(r, k, i).id == i && Idle(NodeAt(r, k, i), r.states[0].initial)
    decreases k
  {
    hide Starts, Idle, Act;
    var voters := r.states[0].initial;
    if k == 0 {
      StartsIdle(r.states[0], i);
    } else {
      StepEnabled(r, k - 1);
      StepChanges(r, k - 1);
      OneVoterNeverCommits(r, k - 1, i);
      var e := r.events[k - 1];
      if e.Deliver? {
        var j :| j in r.states[k - 1].nodes && e.packet in r.states[k - 1].nodes[j].sent;
        OneVoterNeverCommits(r, k - 1, j);
      } else if i == Actor(e) {
        IdleStep(NodeAt(r, k - 1, i), e, voters);
      }
    }
    IdleMeans(NodeAt(r, k, i), voters);
  }

  lemma IdleMeans(n: NodeState, voters: set<NodeId>)
    requires Idle(n, voters)
    ensures n.sent == {} && n.replica.commit == 0 && n.replica.reports == []
  {}

  lemma StartsIdle(c: Cluster, i: NodeId)
    requires Starts(c) && i in c.nodes
    ensures Idle(c.nodes[i], c.initial) && c.nodes[i].id == i
  {}
}
