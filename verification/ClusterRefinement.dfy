/** Every run of a cluster is shadowed by protocol states that satisfy the protocol invariant. */
module ClusterRefinement {
  import opened Types
  import opened Quorums
  import opened Logs
  import opened Replicas
  import opened NodeSpec
  import opened AppendSteps
  import opened Recovery
  import opened Protocol
  import opened ProtocolSteps
  import opened NodeRefinement
  import opened Cluster

  /** What a step must leave behind for one server. */
  ghost predicate Shadow(s: State, i: NodeId, n: NodeState) {
    Mirrors(s, i, n) && Uncompacted(n, s.initial)
  }

  // ---- compaction stays off ----

  predicate SameSetup(a: Replica, b: Replica) {
    a.base == b.base && a.threshold == b.threshold && a.initialVoters == b.initialVoters
  }

  lemma StaysUncompacted(n: NodeState, n': NodeState, initial: set<NodeId>, hist: Log)
    requires Uncompacted(n, initial) && SameSetup(n'.replica, n.replica) && Represents(n'.replica, hist)
    ensures Uncompacted(n', initial)
  {
    hide StateFits, ConfigFits, SnapshotFits;
    assert hist == hist[0..];
  }

  lemma AppendLoopSetup(r: Replica, prev: nat, es: Log)
    ensures SameSetup(AppendLoop(r, prev, es), r)
  {
    hide AppendLoop;
    LoopFrame(r, prev, es);
  }

  lemma SetCommitSetup(r: Replica, index: nat)
    requires r.threshold <= 0
    ensures SameSetup(SetCommit(r, index), r)
  {}

  lemma HandleSetup(n: NodeState, m: Message)
    requires !m.InstallSnapshot? && n.replica.threshold <= 0
    ensures SameSetup(Handle(n, m).replica, n.replica)
  {
    hide AppendLoop, SetCommit, MaybeWin, CommitPoint, LogInconsistent;
    match m
    case AppendEntries(_, _, _, _, _, _) => OnAppendSetup(n, m);
    case AppendReply(_, _, _, _) => OnReplySetup(n, m);
    case _ => OthersSetup(n, m);
  }

  lemma OnAppendSetup(n: NodeState, m: Message)
    requires m.AppendEntries? && n.replica.threshold <= 0
    ensures SameSetup(OnAppendEntries(n, m).replica, n.replica)
  {
    hide AppendLoop, SetCommit;
    if m.term >= n.term && !LogInconsistent(Recognise(n, m.term, m.leader), m) {
      AppendLoopSetup(n.replica, m.prevIndex, m.entries);
      var r := AppendLoop(n.replica, m.prevIndex, m.entries);
      SetCommitSetup(r, Largest(r.commit, Least(m.leaderCommit, m.prevIndex + |m.entries|)));
    }
  }

  lemma OnReplySetup(n: NodeState, m: Message)
    requires m.AppendReply? && n.replica.threshold <= 0
    ensures SameSetup(OnAppendReply(n, m).replica, n.replica)
  {
    hide SetCommit, CommitPoint;
    var n1 := NoteMatch(n, m.follower, m.matchIndex);
    SetCommitSetup(n.replica, CommitPoint(n1, Last(n1)));
  }

  lemma OthersSetup(n: NodeState, m: Message)
    requires m.RequestVote? || m.VoteReply? || m.ReadHeartbeat? || m.ReadAck?
    ensures SameSetup(Handle(n, m).replica, n.replica)
  {}

  lemma LocalSetup(n: NodeState, cmd: Command, read: Command, voters: set<NodeId>)
    requires !cmd.Config?
    ensures SameSetup(Pause(n).replica, n.replica) && SameSetup(Resume(n).replica, n.replica)
    ensures SameSetup(ElectionTimeout(n).replica, n.replica) && SameSetup(HeartbeatTick(n).replica, n.replica)
    ensures SameSetup(RequestRead(n, read).0.replica, n.replica)
    ensures SameSetup(ClientCommand(n, cmd).0.replica, n.replica)
    ensures SameSetup(ChangeConfig(n, voters).0.replica, n.replica)
  {
    hide ConfigOf, LatestConfig, BroadcastPackets, ClientIndex, Majority, OneApart;
  }

  // ---- messages ----

  lemma OnReadHeartbeatRefines(s: State, i: NodeId, n: NodeState, m: Message) returns (s': State)
    requires Inv(s) && Mirrors(s, i, n) && m.ReadHeartbeat?
    ensures Advances(s, s', i) && Mirrors(s', i, OnReadHeartbeat(n, m))
  {
    hide Inv, StepDownIfNewer, Advances;
    var n1 := StepDownIfNewer(n, m.term);
    var s1 := StepDownIfNewerRefines(s, i, n, m.term);
    s' := ChatterRefines(s1, i, n1, OnReadHeartbeat(n, m), {Packet(n1.id, m.leader, ReadAck(n1.term, n1.id, m.readId))});
    AdvancesTransitive(s, s1, s', i);
  }

  lemma OnReadAckRefines(s: State, i: NodeId, n: NodeState, m: Message) returns (s': State)
    requires Inv(s) && Mirrors(s, i, n) && m.ReadAck?
    ensures Advances(s, s', i) && Mirrors(s', i, OnReadAck(n, m))
  {
    hide Inv, ReadConfirmed;
    if m.term > n.term {
      s' := BecomeFollowerRefines(s, i, n, m.term);
    } else {
      s' := s;
      AdvancesReflexive(s, i);
    }
  }

  lemma OnRequestVoteRefines(s: State, i: NodeId, n: NodeState, pk: Packet) returns (s': State)
    requires Inv(s) && Shadow(s, i, n) && pk in s.net && pk.msg.RequestVote?
    ensures Advances(s, s', i) && Mirrors(s', i, OnRequestVote(n, pk.msg))
  {
    hide Inv, AnswerVote, Represents;
    var n1 := StepDownIfNewer(n, pk.msg.term);
    var s1 := StepDownIfNewerRefines(s, i, n, pk.msg.term);
    s' := AnswerVoteRefines(s1, i, n1, pk);
    AdvancesTransitive(s, s1, s', i);
  }

  lemma NoSnapshotSent(s: State, pk: Packet)
    requires Inv(s) && pk in s.net
    ensures !pk.msg.InstallSnapshot?
  {
    assert PacketOK(s.h, pk);
  }

  lemma HandleRefines(s: State, i: NodeId, n: NodeState, pk: Packet) returns (s': State)
    requires Inv(s) && Shadow(s, i, n) && pk in s.net && pk.dst == i
    ensures AboveBase(n, pk.msg) && !pk.msg.InstallSnapshot?
    ensures Advances(s, s', i) && Mirrors(s', i, Handle(n, pk.msg))
    ensures Trustworthy(n, n.replica.log, pk.msg, [])
  {
    hide Inv, Represents, Advances, OnRequestVote, OnVoteReply, OnAppendEntries, OnAppendReply, OnInstallSnapshot,
         OnReadHeartbeat, OnReadAck, LogInconsistent, SparesCommitted, Recognise, SnapshotOf;
    NoSnapshotSent(s, pk);
    if !n.alive {
      s' := s;
      AdvancesReflexive(s, i);
      if pk.msg.AppendEntries? { var t := OnAppendEntriesRefines(s, i, n, pk); }
    } else {
      match pk.msg
      case RequestVote(_, _, _, _) => s' := OnRequestVoteRefines(s, i, n, pk);
      case VoteReply(_, _, _) => s' := OnVoteReplyRefines(s, i, n, pk);
      case AppendEntries(_, _, _, _, _, _) => s' := OnAppendEntriesRefines(s, i, n, pk);
      case AppendReply(_, _, _, _) => s' := OnAppendReplyRefines(s, i, n, pk);
      case InstallSnapshot(_, _, _, _, _, _, _) => assert false;
      case ReadHeartbeat(_, _, _) => s' := OnReadHeartbeatRefines(s, i, n, pk.msg);
      case ReadAck(_, _, _) => s' := OnReadAckRefines(s, i, n, pk.msg);
    }
  }

  /** Delivering a message: one server moves on, and its log is still its whole history. */
  lemma DeliverRefines(s: State, i: NodeId, n: NodeState, pk: Packet) returns (s': State)
    requires Inv(s) && Shadow(s, i, n) && pk in s.net && pk.dst == i
    ensures Advances(s, s', i) && Shadow(s', i, Act(n, Deliver(pk)))
    ensures AboveBase(n, pk.msg)
  {
    hide Inv, Represents, Handle, HistoryAfter, Trustworthy, SparesCommitted;
    s' := HandleRefines(s, i, n, pk);
    HandleRecovers(n, n.replica.log, pk.msg, []);
    HandleSetup(n, pk.msg);
    StaysUncompacted(n, Handle(n, pk.msg), s.initial, HistoryAfter(n, n.replica.log, pk.msg, []));
    assert s'.initial == s.initial;
  }

  // ---- everything else ----

  lemma CoreUnchangedRefines(s: State, i: NodeId, n: NodeState, n': NodeState, added: set<Packet>) returns (s': State)
    requires Inv(s) && Mirrors(s, i, n) && CoreOf(n') == CoreOf(n) && n'.id == n.id && n'.sent == n.sent + added
    requires forall pk | pk in added :: pk.msg.ReadHeartbeat?
    ensures Advances(s, s', i) && Mirrors(s', i, n')
  {
    hide Inv;
    s' := ChatterRefines(s, i, n, n', added);
  }

  lemma ReadRefines(s: State, i: NodeId, n: NodeState, cmd: Command) returns (s': State)
    requires Inv(s) && Mirrors(s, i, n)
    ensures Advances(s, s', i) && Mirrors(s', i, RequestRead(n, cmd).0)
  {
    hide Inv, ReadConfirmed;
    var n' := RequestRead(n, cmd).0;
    var added := HeartbeatPackets(n, n.readTable.nextId, OtherVoters(n));
    if !n.role.Leader? || !n.alive || !n.committedThisTerm { added := {}; }
    s' := CoreUnchangedRefines(s, i, n, n', added);
  }

  lemma LocalRefines(s: State, i: NodeId, n: NodeState, e: Event) returns (s': State)
    requires Inv(s) && Shadow(s, i, n) && !e.Deliver? && (e.Client? ==> !e.command.Config?)
    ensures Advances(s, s', i) && Mirrors(s', i, Act(n, e))
  {
    hide Inv, Represents, Advances, StartElection, Broadcast, Extend, RequestRead, Pause, MayChangeConfig, AlreadyAppended;
    match e
    case Timeout(_) =>
      if !n.alive || n.role.Leader? { s' := s; AdvancesReflexive(s, i); } else { s' := StartElectionRefines(s, i, n); }
    case Heartbeat(_) =>
      if !n.alive || !n.role.Leader? { s' := s; AdvancesReflexive(s, i); } else { s' := BroadcastRefines(s, i, n); }
    case Client(_, cmd) =>
      if !n.role.Leader? || !n.alive || AlreadyAppended(n, cmd) { s' := s; AdvancesReflexive(s, i); }
      else { s' := ExtendAndSendRefines(s, i, n, cmd); }
    case Reconfigure(_, voters) =>
      if MayChangeConfig(n, voters) { s' := ReconfigureRefines(s, i, n, voters); } else { s' := s; AdvancesReflexive(s, i); }
    case Read(_, cmd) => s' := ReadRefines(s, i, n, cmd);
    case Crash(_) => s' := CrashRefines(s, i, n);
    case Recover(_) => s' := s; AdvancesReflexive(s, i);
  }

  lemma ReconfigureRefines(s: State, i: NodeId, n: NodeState, voters: set<NodeId>) returns (s': State)
    requires Inv(s) && Shadow(s, i, n) && MayChangeConfig(n, voters)
    ensures Advances(s, s', i) && Mirrors(s', i, Broadcast(Extend(n, Config(voters))))
  {
    hide Inv, Represents, Advances, Broadcast, Extend;
    s' := ExtendAndSendRefines(s, i, n, Config(voters));
  }

  lemma LocalRepresents(n: NodeState, e: Event) returns (hist: Log)
    requires Represents(n.replica, n.replica.log) && !e.Deliver? && (e.Client? ==> !e.command.Config?)
    ensures Represents(Act(n, e).replica, hist) && SameSetup(Act(n, e).replica, n.replica)
  {
    hide Represents, ClientCommand, ChangeConfig, Pause, ElectionTimeout, HeartbeatTick, RequestRead, Resume, SameSetup,
         MayChangeConfig, AlreadyAppended;
    var cmd := if e.Client? then e.command else Opaque("");
    var read := if e.Read? then e.command else Opaque("");
    var voters := if e.Reconfigure? then e.voters else {};
    LocalStepsRecover(n, n.replica.log, cmd, read, voters);
    LocalSetup(n, cmd, read, voters);
    hist := if e.Client? && n.role.Leader? && n.alive && !AlreadyAppended(n, cmd) then n.replica.log + [Entry(n.term, cmd)]
            else if e.Reconfigure? && MayChangeConfig(n, voters) then n.replica.log + [Entry(n.term, Config(voters))]
            else n.replica.log;
  }

  lemma ActRefines(s: State, i: NodeId, n: NodeState, e: Event) returns (s': State)
    requires Inv(s) && Shadow(s, i, n) && (e.Client? ==> !e.command.Config?)
    requires e.Deliver? ==> e.packet in s.net && e.packet.dst == i
    ensures Advances(s, s', i) && Shadow(s', i, Act(n, e))
    ensures e.Deliver? ==> AboveBase(n, e.packet.msg)
  {
    hide Inv, Act, Uncompacted, Mirrors, AboveBase;
    if e.Deliver? {
      s' := DeliverRefines(s, i, n, e.packet);
    } else {
      s' := LocalRefines(s, i, n, e);
      LocalStaysUncompacted(n, s.initial, e);
    }
  }

  lemma LocalStaysUncompacted(n: NodeState, initial: set<NodeId>, e: Event)
    requires Uncompacted(n, initial) && !e.Deliver? && (e.Client? ==> !e.command.Config?)
    ensures Uncompacted(Act(n, e), initial)
  {
    hide Act, Represents, SameSetup;
    var hist := LocalRepresents(n, e);
    StaysUncompacted(n, Act(n, e), initial, hist);
  }

  // ---- whole clusters ----

  ghost predicate Shadows(s: State, c: Cluster) {
    && Inv(s) && s.initial == c.initial && s.nodes.Keys == c.nodes.Keys
    && (forall k | k in s.h.acked :: k.node in c.nodes)
    && forall i {:trigger Shadow(s, i, c.nodes[i])} | i in c.nodes :: Shadow(s, i, c.nodes[i])
  }

  lemma SentIsOnNetwork(s: State, c: Cluster, pk: Packet)
    requires Shadows(s, c) && Sent(c, pk)
    ensures pk in s.net
  {
    var i :| i in c.nodes && pk in c.nodes[i].sent;
    assert Shadow(s, i, c.nodes[i]);
  }

  lemma OthersShadowed(s: State, s': State, i: NodeId, j: NodeId, n: NodeState)
    requires Shadow(s, j, n) && Advances(s, s', i) && i != j
    ensures Shadow(s', j, n)
  {
    hide Inv, Grows, Uncompacted, CoreOf;
  }

  lemma AckersAreServers(h: History, h': History, i: NodeId, ids: set<NodeId>)
    requires AcksBy(h, h', i) && i in ids && forall k | k in h.acked :: k.node in ids
    ensures forall k | k in h'.acked :: k.node in ids
  {}

  /** One event of the cluster is a few moves of the protocol. */
  lemma StepRefines(s: State, c: Cluster, e: Event, c': Cluster) returns (s': State)
    requires Shadows(s, c) && StepBy(c, e, c')
    ensures Shadows(s', c') && Advances(s, s', Actor(e))
    ensures e.Deliver? ==> AboveBase(c.nodes[Actor(e)], e.packet.msg)
  {
    hide Inv, Act, Shadow, Sent, AboveBase, Grows, AcksBy;
    var i := Actor(e);
    if e.Deliver? { SentIsOnNetwork(s, c, e.packet); }
    assert Shadow(s, i, c.nodes[i]);
    s' := ActRefines(s, i, c.nodes[i], e);
    assert forall k | k in s'.h.acked :: k.node in c'.nodes by { AckersAreServers(s.h, s'.h, i, c.nodes.Keys); }
    forall j | j in c'.nodes ensures Shadow(s', j, c'.nodes[j]) {
      if j != i {
        assert Shadow(s, j, c.nodes[j]);
        OthersShadowed(s, s', i, j, c.nodes[j]);
      }
    }
  }
}
