/** Where a server's log comes from: at every moment it is what it was, the complete log of some leader at
    an earlier moment, or the server's own log with one entry appended while it leads. */
module LogOrigins {
  import opened Types
  import opened Quorums
  import opened Logs
  import opened Replicas
  import opened NodeSpec
  import opened NodeRefinement
  import opened ProtocolMoves
  import opened Cluster
  import opened ClusterSafety
  import opened CommitRule
  import opened Replication

  // ---- one step ----

  predicate TailOf(n: NodeState, m: Message)
    requires m.AppendEntries?
  {
    && n.role.Leader? && m.term == n.term
    && m.prevIndex <= |n.replica.log| && m.entries == n.replica.log[m.prevIndex..]
  }

  /** What a step newly sends in AppendEntries is the tail of the sender's log as it leads. */
  predicate SendsTails(n: NodeState, n': NodeState) {
    && n.sent <= n'.sent
    && forall pk | pk in n'.sent && pk !in n.sent && pk.msg.AppendEntries? :: TailOf(n', pk.msg)
  }

  lemma BroadcastSendsTails(n: NodeState)
    requires n.role.Leader? && n.replica.base == 0
    ensures SendsTails(n, Broadcast(n))
  {}

  lemma MaybeWinSendsTails(n: NodeState)
    requires n.replica.base == 0
    ensures SendsTails(n, MaybeWin(n)) && MaybeWin(n).replica == n.replica
  {
    hide ClientIndex, BroadcastPackets, Majority;
    BroadcastSendsTails(Lead(n));
  }

  lemma LocalSendsTails(n: NodeState, e: Event)
    requires !e.Deliver? && (e.Client? ==> !e.command.Config?) && n.replica.base == 0
    ensures SendsTails(n, Act(n, e))
  {
    hide ConfigOf, LatestConfig, BroadcastPackets, MaybeWin, Majority, OneApart, ClientIndex, ReadConfirmed, AlreadyAppended;
    if n.role.Leader? { BroadcastSendsTails(n); }
    match e
    case Timeout(_) => var c := Campaign(n); MaybeWinSendsTails(c.(sent := c.sent + SolicitPackets(c, OtherVoters(c))));
    case Client(_, cmd) => if n.role.Leader? { BroadcastSendsTails(Extend(n, cmd)); }
    case Reconfigure(_, voters) => if n.role.Leader? { BroadcastSendsTails(Extend(n, Config(voters))); }
    case _ =>
  }

  lemma HandleSendsTails(n: NodeState, m: Message)
    requires n.replica.base == 0
    ensures SendsTails(n, Handle(n, m))
  {
    hide Absorb, SetCommit, MaybeWin, CommitPoint, Install, LogInconsistent, ReadConfirmed;
    match m
    case VoteReply(_, v, _) => MaybeWinSendsTails(n.(votes := n.votes + {v}));
    case _ =>
  }

  // ---- over runs ----

  /** The message carries the tail of what leader l's log was at moment j. */
  predicate TailSentAt(r: Execution, j: nat, l: NodeId, m: Message)
    requires m.AppendEntries?
  {
    LeadsAt(r, j, l, m.term) && TailOf(NodeAt(r, j, l), m)
  }

  ghost predicate TailSentBy(r: Execution, k: nat, m: Message)
    requires m.AppendEntries?
  {
    exists j: nat, l :: j <= k && TailSentAt(r, j, l, m)
  }

  lemma StepSendsTails(r: Execution, k: nat)
    requires IsRun(r) && k < |r.events|
    ensures Actor(r.events[k]) in r.states[k].nodes && Actor(r.events[k]) in r.states[k + 1].nodes
    ensures SendsTails(r.states[k].nodes[Actor(r.events[k])], r.states[k + 1].nodes[Actor(r.events[k])])
  {
    hide SendsTails, Handle, Sent, ClientCommand, ChangeConfig, RequestRead, Pause, ElectionTimeout, HeartbeatTick, AboveBase, Uncompacted, Starts, ConfigOf, LatestConfig;
    StepEnabled(r, k);
    var i, e := Actor(r.events[k]), r.events[k];
    MembershipIsDerived(r, k, i);
    var n := r.states[k].nodes[i];
    UncompactedFacts(n, r.states[0].initial);
    if e.Deliver? {
      AlwaysAboveBase(r, k);
      HandleSendsTails(n, e.packet.msg);
    } else {
      LocalSendsTails(n, e);
    }
  }

  lemma {:induction false} SentTails(r: Execution, k: nat, pk: Packet)
    requires IsRun(r) && k < |r.states| && Sent(r.states[k], pk) && pk.msg.AppendEntries?
    ensures TailSentBy(r, k, pk.msg)
    decreases k
  {
    hide StepBy, Act, Starts, TailOf;
    var i :| i in r.states[k].nodes && pk in r.states[k].nodes[i].sent;
    if k == 0 {
      NothingSentYet(r.states[0], i);
      assert false;
    } else {
      StepChanges(r, k - 1);
      StepSendsTails(r, k - 1);
      if pk in r.states[k - 1].nodes[i].sent {
        assert Sent(r.states[k - 1], pk);
        SentTails(r, k - 1, pk);
        var j: nat, l :| j <= k - 1 && TailSentAt(r, j, l, pk.msg);
        assert j <= k && TailSentAt(r, j, l, pk.msg);
      } else {
        TailAt(r, k, i, pk.msg);
      }
    }
  }

  lemma TailAt(r: Execution, k: nat, i: NodeId, m: Message)
    requires m.AppendEntries? && At(r, k, i) && TailOf(NodeAt(r, k, i), m)
    ensures TailSentBy(r, k, m)
  {
    assert TailSentAt(r, k, i, m);
  }

  /** A log is either kept or replaced by exactly what the sender's log was when it sent the message. */
  lemma MergedLog(log: Log, m: Message, leader: Log)
    requires m.AppendEntries? && m.prevIndex <= |log| && m.prevIndex <= |leader| && m.entries == leader[m.prevIndex..]
    requires leader <= Merge(log, m.prevIndex, m.entries)
    ensures Merge(log, m.prevIndex, m.entries) == log || Merge(log, m.prevIndex, m.entries) == leader
  {
    var a := Agreement(log, m.prevIndex, m.entries);
    if a < |m.entries| { assert |Merge(log, m.prevIndex, m.entries)| == |leader|; }
  }

  ghost predicate LeaderLogBy(r: Execution, k: nat, log: Log) {
    exists j: nat, l, t :: j <= k && LeaderLogAt(r, j, l, t, log)
  }

  predicate LeaderLogAt(r: Execution, j: nat, l: NodeId, t: nat, log: Log) {
    LeadsAt(r, j, l, t) && LogAt(r, j, l) == log
  }

  predicate AppendedBy(n: NodeState, e: Event, n': NodeState, cmd: Command) {
    && ((e.Client? && cmd == e.command) || (e.Reconfigure? && cmd == Config(e.voters)))
    && n.role.Leader? && n'.replica.log == n.replica.log + [Entry(n.term, cmd)]
    && (cmd.IsStructured() ==> !AlreadyAppended(n, cmd))
  }

  ghost predicate Appends(n: NodeState, e: Event, n': NodeState) {
    exists cmd :: AppendedBy(n, e, n', cmd)
  }

  lemma HandleKeepsLog(n: NodeState, m: Message)
    requires !m.InstallSnapshot? && n.replica.threshold <= 0 && !Accepts(n, m)
    ensures Handle(n, m).replica.log == n.replica.log
  {
    hide MaybeWin, CommitPoint, ConfigOf, LatestConfig, LogInconsistent, ReadConfirmed, Absorb;
    if m.VoteReply? { WinKeepsLog(n.(votes := n.votes + {m.voter})); }
  }

  lemma WinKeepsLog(n: NodeState)
    ensures MaybeWin(n).replica == n.replica
  {
    hide ClientIndex, BroadcastPackets, Majority;
  }

  lemma LocalKeepsLog(n: NodeState, e: Event)
    requires !e.Deliver? && (e.Client? ==> !e.command.Config?)
    ensures Act(n, e).replica.log == n.replica.log || Appends(n, e, Act(n, e))
  {
    hide ConfigOf, LatestConfig, BroadcastPackets, ClientIndex, Majority, OneApart, AlreadyAppended;
    if e.Client? && n.role.Leader? && n.alive && !AlreadyAppended(n, e.command) {
      assert AppendedBy(n, e, Act(n, e), e.command);
    } else if e.Reconfigure? && MayChangeConfig(n, e.voters) {
      assert AppendedBy(n, e, Act(n, e), Config(e.voters));
    }
  }

  lemma AcceptsAppend(n: NodeState, m: Message)
    requires Accepts(n, m)
    ensures m.AppendEntries?
  {}

  lemma DeliveredLog(r: Execution, k: nat, i: NodeId, m: Message)
    requires Delivers(r, k, i, m) && Accepts(NodeAt(r, k, i), m)
    ensures LogAt(r, k + 1, i) == LogAt(r, k, i) || LeaderLogBy(r, k, LogAt(r, k + 1, i))
  {
    hide Accepts, Merge, KeepsShared, Sent, IsRun;
    AcceptsAppend(NodeAt(r, k, i), m);
    AcceptedStep(r, k, i, m);
    SentTails(r, k, r.events[k].packet) by { DeliversIsRun(r, k, i, m); }
    var j: nat, l :| j <= k && TailSentAt(r, j, l, m);
    AcceptanceIsSound(r, k, i, m, j, l);
    var leader := LogAt(r, j, l);
    assert Reach(m) == |leader| && leader[..|leader|] == leader;
    MergedLog(LogAt(r, k, i), m, leader);
    assert LeaderLogAt(r, j, l, m.term, leader);
  }

  /** The three sources of a server's next log. */
  lemma LogOrigin(r: Execution, k: nat, i: NodeId)
    requires IsRun(r) && k < |r.events| && i in r.states[k].nodes
    ensures At(r, k + 1, i)
    ensures || LogAt(r, k + 1, i) == LogAt(r, k, i)
            || LeaderLogBy(r, k, LogAt(r, k + 1, i))
            || (i == Actor(r.events[k]) && Appends(NodeAt(r, k, i), r.events[k], NodeAt(r, k + 1, i)))
  {
    hide Starts, Accepts, LeaderLogBy, Appends, Handle, AboveBase, Uncompacted, Sent, ConfigOf, LatestConfig,
         ClientCommand, ChangeConfig, RequestRead, Pause, ElectionTimeout, HeartbeatTick;
    StepEnabled(r, k);
    StepChanges(r, k);
    var n, e := NodeAt(r, k, i), r.events[k];
    if i == Actor(e) {
      MembershipIsDerived(r, k, i);
      UncompactedFacts(n, r.states[0].initial);
      if e.Deliver? {
        AlwaysAboveBase(r, k);
        if Accepts(n, e.packet.msg) { DeliveredLog(r, k, i, e.packet.msg); } else { HandleKeepsLog(n, e.packet.msg); }
      } else {
        LocalKeepsLog(n, e);
      }
    }
  }
}
