/** Exactly when a handler fails: in a run whose configurations so far name existing servers, every dictionary
    and list lookup of RaftNode succeeds at the next event, unless that event is an accepted configuration change
    that names an unknown server. So the contracts of the class apply to every event of every run in which the
    proposals name existing servers. */
module LookupSafety {
  import opened Types
  import opened Quorums
  import opened Logs
  import opened Replicas
  import opened NodeSpec
  import opened Soundness
  import opened Protocol
  import opened NodeRefinement
  import opened Cluster
  import opened ClusterRefinement
  import opened ClusterSafety
  import opened CommitRule
  import opened LogOrigins
  import RaftNode

  /** What the server's lookups need when the event reaches it. */
  predicate LookupsSucceed(n: NodeState, e: Event) {
    && Bounded(n.replica) && OtherVoters(n) <= n.peers
    && match e
       case Deliver(pk) =>
         pk.msg.AppendReply? && n.role.Leader? && pk.msg.term == n.term && !pk.msg.success ==>
           CanSend(BackOff(n, pk.msg.follower), pk.msg.follower)
       case Heartbeat(_) => n.alive && n.role.Leader? ==> CanBroadcast(n)
       case Client(_, cmd) => !cmd.Config? && (n.role.Leader? && n.alive && !AlreadyAppended(n, cmd) ==> CanBroadcast(Extend(n, cmd)))
       case Reconfigure(_, voters) => MayChangeConfig(n, voters) ==> CanBroadcast(Extend(n, Config(voters)))
       case _ => true
  }

  /** The object performs exactly the cluster's event. */
  method Perform(node: RaftNode.RaftNode, e: Event)
    requires LookupsSucceed(node.View(), e)
    modifies node, node.kv
    ensures node.View() == Act(old(node.View()), e)
    ensures node.kv == old(node.kv) || fresh(node.kv)
  {
    match e
    case Deliver(pk) => node.Handle(pk.msg);
    case Timeout(_) => node.OnElectionTimeout();
    case Heartbeat(_) => node.OnHeartbeat();
    case Client(_, cmd) => var accepted := node.ClientCommand(cmd);
    case Reconfigure(_, voters) => var accepted := node.ChangeConfig(voters);
    case Read(_, cmd) => var accepted := node.RequestRead(cmd);
    case Crash(_) => node.Pause();
    case Recover(_) => node.Resume();
  }

  // ---- configurations name existing servers ----

  /** Up to moment k, every configuration asked for names existing servers. */
  predicate KnownUntil(r: Execution, k: nat) {
    && IsRun(r) && r.states[0].initial <= r.states[0].nodes.Keys
    && forall j | 0 <= j < |r.events| && j < k && r.events[j].Reconfigure? :: r.events[j].voters <= r.states[0].nodes.Keys
  }

  predicate KnownConfigs(r: Execution) { KnownUntil(r, |r.events|) }

  predicate ConfigsWithin(log: Log, ids: set<NodeId>) {
    forall j | 0 <= j < |log| && log[j].command.Config? :: log[j].command.voters <= ids
  }

  lemma {:induction false} ConfigWithin(initial: set<NodeId>, log: Log, ids: set<NodeId>)
    requires initial <= ids && ConfigsWithin(log, ids)
    ensures ConfigOf(initial, log) <= ids
  {
    if log != [] { ConfigWithin(initial, log[..|log| - 1], ids); }
  }

  lemma AppendWithin(n: NodeState, e: Event, n': NodeState, ids: set<NodeId>)
    requires ConfigsWithin(n.replica.log, ids) && Appends(n, e, n')
    requires (e.Client? ==> !e.command.Config?) && (e.Reconfigure? ==> e.voters <= ids)
    ensures ConfigsWithin(n'.replica.log, ids)
  {
    var cmd :| AppendedBy(n, e, n', cmd);
    forall j | 0 <= j < |n'.replica.log| && n'.replica.log[j].command.Config? ensures n'.replica.log[j].command.voters <= ids {
      if j < |n.replica.log| { assert n'.replica.log[j] == n.replica.log[j]; }
    }
  }

  lemma KnownRun(r: Execution, k: nat)
    requires KnownUntil(r, k)
    ensures IsRun(r) && r.states[0].initial <= r.states[0].nodes.Keys
    ensures forall j: nat | j < |r.events| && j < k && r.events[j].Reconfigure? :: r.events[j].voters <= r.states[0].nodes.Keys
    ensures forall j: nat | j <= k :: KnownUntil(r, j)
  {
    hide IsRun;
  }

  lemma StartWithin(c: Cluster, i: NodeId, ids: set<NodeId>)
    requires Starts(c) && i in c.nodes
    ensures ConfigsWithin(c.nodes[i].replica.log, ids) && c.nodes[i].peers == c.nodes.Keys - {i} && c.nodes[i].id == i
    ensures Bounded(c.nodes[i].replica) && !c.nodes[i].role.Leader?
  {}

  lemma {:induction false} LogsWithin(r: Execution, k: nat, i: NodeId)
    requires KnownUntil(r, k) && At(r, k, i)
    ensures ConfigsWithin(LogAt(r, k, i), r.states[0].nodes.Keys)
    decreases k
  {
    hide Starts, StepBy, Appends, ConfigsWithin, KnownUntil;
    KnownRun(r, k);
    if k == 0 {
      StartWithin(r.states[0], i, r.states[0].nodes.Keys);
    } else {
      StepChanges(r, k - 1);
      StepEnabled(r, k - 1);
      LogOrigin(r, k - 1, i);
      LogsWithin(r, k - 1, i);
      if LeaderLogBy(r, k - 1, LogAt(r, k, i)) {
        var j: nat, l, t :| j <= k - 1 && LeaderLogAt(r, j, l, t, LogAt(r, k, i));
        LogsWithin(r, j, l);
      } else if LogAt(r, k, i) != LogAt(r, k - 1, i) {
        AppendWithin(NodeAt(r, k - 1, i), r.events[k - 1], NodeAt(r, k, i), r.states[0].nodes.Keys);
      }
    }
  }

  // ---- a leader's bookkeeping ----

  /** Every peer has a next index, from one to one past the end of the log, and no unknown server has one. */
  predicate ProgressOK(n: NodeState) {
    n.role.Leader? ==>
      && n.peers <= n.progress.nextIndex.Keys <= n.peers + {n.id}
      && forall p | p in n.progress.nextIndex :: 1 <= n.progress.nextIndex[p] <= Last(n) + 1
  }

  predicate SameIdentity(n: NodeState, n': NodeState) { n'.id == n.id && n'.peers == n.peers }

  lemma WinProgress(n: NodeState)
    requires ProgressOK(n)
    ensures ProgressOK(MaybeWin(n)) && SameIdentity(n, MaybeWin(n))
  {
    hide ClientIndex, BroadcastPackets, Majority;
  }

  lemma LocalProgress(n: NodeState, e: Event)
    requires ProgressOK(n) && !e.Deliver? && (e.Client? ==> !e.command.Config?)
    ensures ProgressOK(Act(n, e)) && SameIdentity(n, Act(n, e))
  {
    hide ConfigOf, LatestConfig, BroadcastPackets, MaybeWin, Majority, OneApart, ClientIndex, ReadConfirmed, AlreadyAppended, SolicitPackets;
    if e.Timeout? {
      var c := Campaign(n);
      WinProgress(c.(sent := c.sent + SolicitPackets(c, OtherVoters(c))));
    }
  }

  lemma HandleProgress(n: NodeState, m: Message)
    requires ProgressOK(n) && !m.InstallSnapshot? && n.replica.threshold <= 0
    requires m.AppendReply? && m.success && n.role.Leader? && m.term == n.term ==> m.matchIndex <= Last(n)
    requires m.AppendReply? ==> m.follower in n.peers + {n.id}
    ensures ProgressOK(Handle(n, m)) && SameIdentity(n, Handle(n, m))
  {
    hide Absorb, SetCommit, MaybeWin, CommitPoint, LogInconsistent, ReadConfirmed, Outgoing, ConfigOf, LatestConfig, NoteMatch, BackOff;
    match m
    case VoteReply(_, v, _) => WinProgress(n.(votes := n.votes + {v}));
    case AppendReply(_, _, _, _) => ReplyProgress(n, m);
    case _ =>
  }

  lemma ReplyProgress(n: NodeState, m: Message)
    requires ProgressOK(n) && m.AppendReply? && n.replica.threshold <= 0 && m.follower in n.peers + {n.id}
    requires m.success && n.role.Leader? && m.term == n.term ==> m.matchIndex <= Last(n)
    ensures ProgressOK(OnAppendReply(n, m)) && SameIdentity(n, OnAppendReply(n, m))
  {
    hide SetCommit, CommitPoint, Outgoing;
    var n1 := NoteMatch(n, m.follower, m.matchIndex);
    SetCommitFields(n.replica, CommitPoint(n1, Last(n1)));
  }

  /** A success reply of a leader's own term never exceeds its log. */
  lemma MatchWithinLog(r: Execution, k: nat)
    requires IsRun(r) && k < |r.events| && r.events[k].Deliver? && At(r, k, Actor(r.events[k]))
    ensures var n, m := NodeAt(r, k, Actor(r.events[k])), r.events[k].packet.msg;
            m.AppendReply? && m.success && n.role.Leader? && m.term == n.term ==> m.matchIndex <= |n.replica.log|
  {
    hide Starts, StepBy, HistoryOK, Genuine, UsesSlotsUpTo, CandidateOK, Reflects, Covered, Uncompacted, Later, Sent;
    var ss := RunShadowed(r);
    StepEnabled(r, k);
    var i, pk := Actor(r.events[k]), r.events[k].packet;
    NodeFacts(r, ss, k, i);
    SentIsOnNetwork(ss[k], r.states[k], pk) by { ShadowsAt(r, ss, k); }
    PacketFact(r, ss, k, pk);
    if pk.msg.AppendReply? && pk.msg.success { AckBound(ss[k].initial, ss[k].h, pk.msg.term, pk.msg.follower, pk.msg.matchIndex); }
  }

  lemma ShadowsAt(r: Execution, ss: seq<State>, k: nat)
    requires ShadowRun(r, ss) && k < |r.states|
    ensures |ss| == |r.states| && Shadows(ss[k], r.states[k])
  {}

  lemma PacketFact(r: Execution, ss: seq<State>, k: nat, pk: Packet)
    requires ShadowRun(r, ss) && k < |r.states| && |ss| == |r.states| && pk in ss[k].net
    ensures PacketOK(ss[k].h, pk)
  {
    hide HistoryOK, NodeOK, PacketOK, Shadow;
    assert Shadows(ss[k], r.states[k]);
  }

  lemma AckBound(initial: set<NodeId>, h: History, t: nat, v: NodeId, m: nat)
    requires HistoryOK(initial, h) && Acked(h, t, v, m)
    ensures t in h.leaderLog && m <= |h.leaderLog[t]|
  {
    assert AckOK(h, Slot(t, v));
  }

  /** A server signs its replies with its own id. */
  predicate Signs(n: NodeState) {
    forall pk | pk in n.sent && pk.msg.AppendReply? :: pk.msg.follower == n.id
  }

  lemma WinSigns(n: NodeState)
    requires Signs(n)
    ensures Signs(MaybeWin(n))
  {
    hide ClientIndex, Majority;
  }

  lemma HandleSigns(n: NodeState, m: Message)
    requires Signs(n)
    ensures Signs(Handle(n, m)) && Handle(n, m).id == n.id
  {
    hide Absorb, Install, SetCommit, MaybeWin, CommitPoint, LogInconsistent, ReadConfirmed, TermAt;
    match m
    case VoteReply(_, v, _) => WinSigns(n.(votes := n.votes + {v})); WinKeepsId(n.(votes := n.votes + {v}));
    case _ =>
  }

  lemma WinKeepsId(n: NodeState)
    ensures MaybeWin(n).id == n.id
  {
    hide ClientIndex, Majority, BroadcastPackets;
  }

  lemma LocalSigns(n: NodeState, e: Event)
    requires Signs(n) && !e.Deliver? && (e.Client? ==> !e.command.Config?)
    ensures Signs(Act(n, e)) && Act(n, e).id == n.id
  {
    hide ConfigOf, LatestConfig, MaybeWin, Majority, OneApart, ClientIndex, ReadConfirmed, AlreadyAppended;
    if e.Timeout? {
      var c := Campaign(n);
      WinSigns(c.(sent := c.sent + SolicitPackets(c, OtherVoters(c))));
      WinKeepsId(c.(sent := c.sent + SolicitPackets(c, OtherVoters(c))));
    }
  }

  lemma {:induction false} NodesSign(r: Execution, k: nat, i: NodeId)
    requires At(r, k, i)
    ensures Signs(NodeAt(r, k, i)) && NodeAt(r, k, i).id == i
    decreases k
  {
    hide Starts, Signs, Handle, AboveBase, Sent, ClientCommand, ChangeConfig, RequestRead, Pause, ElectionTimeout, HeartbeatTick;
    if k == 0 {
      StartSigns(r.states[0], i);
    } else {
      StepEnabled(r, k - 1);
      StepChanges(r, k - 1);
      NodesSign(r, k - 1, i);
      var n, e := NodeAt(r, k - 1, i), r.events[k - 1];
      if i == Actor(e) {
        if e.Deliver? {
          HandleSigns(n, e.packet.msg);
        } else {
          LocalSigns(n, e);
        }
      }
    }
  }

  lemma StartSigns(c: Cluster, i: NodeId)
    requires Starts(c) && i in c.nodes
    ensures Signs(c.nodes[i]) && c.nodes[i].id == i
  {}

  /** Whoever a reply names is a server of the cluster. */
  lemma RepliesNameServers(r: Execution, k: nat)
    requires IsRun(r) && k < |r.events| && r.events[k].Deliver? && r.events[k].packet.msg.AppendReply?
    ensures r.events[k].packet.msg.follower in r.states[k].nodes
  {
    hide Starts, StepBy, Act;
    StepEnabled(r, k);
    var j :| j in r.states[k].nodes && r.events[k].packet in r.states[k].nodes[j].sent;
    NodesSign(r, k, j);
  }

  lemma {:induction false} NodesReady(r: Execution, k: nat, i: NodeId)
    requires At(r, k, i)
    ensures ProgressOK(NodeAt(r, k, i)) && NodeAt(r, k, i).peers == r.states[0].nodes.Keys - {i} && NodeAt(r, k, i).id == i
    ensures Bounded(NodeAt(r, k, i).replica) && r.states[k].nodes.Keys == r.states[0].nodes.Keys
    decreases k
  {
    hide Starts, ProgressOK, Bounded, Handle, AboveBase, Uncompacted, Sent, ConfigOf, LatestConfig,
         ClientCommand, ChangeConfig, RequestRead, Pause, ElectionTimeout, HeartbeatTick;
    if k == 0 {
      StartWithin(r.states[0], i, {});
      StartReady(r.states[0].nodes[i]);
    } else {
      StepEnabled(r, k - 1);
      StepChanges(r, k - 1);
      NodesReady(r, k - 1, i);
      var n, e := NodeAt(r, k - 1, i), r.events[k - 1];
      if i == Actor(e) {
        MembershipIsDerived(r, k - 1, i);
        UncompactedFacts(n, r.states[0].initial);
        if e.Deliver? {
          AlwaysAboveBase(r, k - 1);
          MatchWithinLog(r, k - 1);
          if e.packet.msg.AppendReply? { RepliesNameServers(r, k - 1); }
          HandleProgress(n, e.packet.msg);
          HandleKeepsBounded(n, e.packet.msg);
        } else {
          LocalProgress(n, e);
          LocalBounded(n, e);
        }
      }
    }
  }

  lemma StartReady(n: NodeState)
    requires !n.role.Leader?
    ensures ProgressOK(n)
  {}

  lemma LocalBounded(n: NodeState, e: Event)
    requires Bounded(n.replica) && !e.Deliver? && (e.Client? ==> !e.command.Config?)
    ensures Bounded(Act(n, e).replica)
  {
    hide Bounded, Pause, ElectionTimeout, HeartbeatTick, ClientCommand, ChangeConfig, RequestRead;
    var cmd := if e.Client? then e.command else Opaque("");
    var read := if e.Read? then e.command else Opaque("");
    LocalStepsKeepBounded(n, cmd, read, if e.Reconfigure? then e.voters else {});
  }

  lemma LeaderCanSend(n: NodeState, cmd: Command)
    requires ProgressOK(n) && n.role.Leader? && OtherVoters(n) <= n.peers && !cmd.Config?
    ensures CanBroadcast(n) && CanBroadcast(Extend(n, cmd))
  {}

  /** A leader can announce a new configuration exactly when all its other members have a next index. */
  lemma ChangeCanBeSent(n: NodeState, voters: set<NodeId>)
    requires ProgressOK(n) && n.role.Leader?
    ensures CanBroadcast(Extend(n, Config(voters))) <==> voters - {n.id} <= n.progress.nextIndex.Keys
  {
    var x := Extend(n, Config(voters));
    assert x.replica.voters == voters && x.progress.nextIndex == n.progress.nextIndex && x.id == n.id;
    if voters - {n.id} <= n.progress.nextIndex.Keys {
      forall p | p in voters - {n.id} ensures CanSend(x, p) { assert p in n.progress.nextIndex; }
    }
    if CanBroadcast(x) {
      forall p | p in voters - {n.id} ensures p in n.progress.nextIndex { assert CanSend(x, p); }
    }
  }

  /** In reachable states that is: exactly when the new configuration names existing servers only, which a
      caller can check against the list of servers beforehand. */
  lemma AcceptedChangeCanBeSent(r: Execution, k: nat, i: NodeId, voters: set<NodeId>)
    requires At(r, k, i) && MayChangeConfig(NodeAt(r, k, i), voters)
    ensures CanBroadcast(Extend(NodeAt(r, k, i), Config(voters))) <==> voters <= r.states[0].nodes.Keys
  {
    hide IsRun, ProgressOK, Bounded, CanBroadcast, Extend, OneApart;
    NodesReady(r, k, i);
    var n := NodeAt(r, k, i);
    ChangeCanBeSent(n, voters);
    NextIndexKeys(n);
    SameReach(voters, i, n.progress.nextIndex.Keys, r.states[0].nodes.Keys);
  }

  lemma SameReach(voters: set<NodeId>, i: NodeId, reached: set<NodeId>, ids: set<NodeId>)
    requires i in ids && ids - {i} <= reached <= (ids - {i}) + {i}
    ensures voters - {i} <= reached <==> voters <= ids
  {
    if voters - {i} <= reached {
      forall v | v in voters ensures v in ids { assert v == i || v in voters - {i}; }
    }
  }

  lemma NextIndexKeys(n: NodeState)
    requires ProgressOK(n) && n.role.Leader?
    ensures n.peers <= n.progress.nextIndex.Keys <= n.peers + {n.id}
  {}

  lemma FollowerCanSend(n: NodeState, f: NodeId)
    requires ProgressOK(n) && n.role.Leader?
    ensures CanSend(BackOff(n, f), f)
  {}

  lemma EventAt(r: Execution, k: nat)
    requires IsRun(r) && k < |r.events|
    ensures At(r, k, Actor(r.events[k]))
  {
    hide Act, Sent;
    StepChanges(r, k);
  }

  lemma KnownVoters(r: Execution, k: nat, i: NodeId)
    requires KnownUntil(r, k) && At(r, k, i)
    ensures NodeAt(r, k, i).replica.voters <= r.states[0].nodes.Keys
  {
    hide IsRun, Uncompacted, ConfigOf, LatestConfig, ConfigsWithin, KnownUntil;
    KnownRun(r, k);
    LogsWithin(r, k, i);
    MembershipIsDerived(r, k, i);
    ConfigWithin(r.states[0].initial, LogAt(r, k, i), r.states[0].nodes.Keys);
  }

  /** The exact condition: as long as every configuration asked for before names existing servers, every lookup
      the next event needs succeeds if and only if the event is not an accepted change to an unknown server. */
  lemma LookupsSucceedExactly(r: Execution, k: nat)
    requires k < |r.events| && KnownUntil(r, k)
    ensures At(r, k, Actor(r.events[k]))
    ensures var n, e := NodeAt(r, k, Actor(r.events[k])), r.events[k];
            LookupsSucceed(n, e) <==> (e.Reconfigure? && MayChangeConfig(n, e.voters) ==> e.voters <= r.states[0].nodes.Keys)
  {
    hide IsRun, ProgressOK, Bounded, AboveBase, CanSend, CanBroadcast, Extend, BackOff, KnownUntil, Sent, AlreadyAppended, OneApart;
    KnownRun(r, k);
    StepEnabled(r, k);
    EventAt(r, k);
    var i, e := Actor(r.events[k]), r.events[k];
    var n := NodeAt(r, k, i);
    NodesReady(r, k, i);
    KnownVoters(r, k, i);
    if n.role.Leader? {
      LeaderCanSend(n, if e.Client? then e.command else Opaque(""));
      if e.Deliver? && e.packet.msg.AppendReply? { FollowerCanSend(n, e.packet.msg.follower); }
    }
    if e.Reconfigure? && MayChangeConfig(n, e.voters) { AcceptedChangeCanBeSent(r, k, i, e.voters); }
    if e.Deliver? { AlwaysAboveBase(r, k); }
  }

  /** So in every run whose configurations name existing servers, no lookup of any handler fails, at any event. */
  lemma NoLookupFails(r: Execution, k: nat)
    requires KnownConfigs(r) && k < |r.events|
    ensures At(r, k, Actor(r.events[k])) && LookupsSucceed(NodeAt(r, k, Actor(r.events[k])), r.events[k])
  {
    hide IsRun, KnownUntil, LookupsSucceed, MayChangeConfig;
    KnownRun(r, |r.events|);
    LookupsSucceedExactly(r, k);
  }
}
