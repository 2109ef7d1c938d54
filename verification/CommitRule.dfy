/** Committing: which index a leader picks, what backs it, and what followers are told
    (`_advance_commit`, and the CommitQuorum check of raftverified/invariants.py). */
module CommitRule {
  import opened Types
  import opened Quorums
  import opened Logs
  import opened Replicas
  import opened NodeSpec
  import opened AppendSteps
  import opened Recovery
  import opened Protocol
  import opened Safety
  import opened ProtocolSteps
  import opened NodeRefinement
  import opened Cluster
  import opened ClusterRefinement
  import opened ClusterSafety

  // ---- the index `_advance_commit` picks ----

  /** The commit rule of Figure 2: more than half of the configuration holds index k, and the entry
      there is of the leader's own term. */
  predicate MayCommitAt(n: NodeState, k: nat) {
    n.replica.commit < k <= Last(n) && TermAt(n.replica, k) == n.term && QuorumHolds(n, k)
  }

  predicate SortedTerms(n: NodeState) {
    && (forall j, k | n.replica.base < j <= k <= Last(n) :: TermAt(n.replica, j) <= TermAt(n.replica, k))
    && forall k | n.replica.base < k <= Last(n) :: TermAt(n.replica, k) <= n.term
  }

  /** The scan stops at the first older entry, and still finds the greatest index the rule allows:
      terms do not decrease along a log. */
  lemma {:induction false} ScanIsExact(n: NodeState, k: nat)
    requires SortedTerms(n) && k <= Last(n) && n.replica.base <= n.replica.commit
    ensures var p := CommitPoint(n, k);
            && (p == n.replica.commit || (MayCommitAt(n, p) && p <= k))
            && forall x: nat | x <= k && MayCommitAt(n, x) :: x <= p
  {
    hide QuorumHolds;
    if k > n.replica.commit && TermAt(n.replica, k) == n.term && !QuorumHolds(n, k) {
      ScanIsExact(n, k - 1);
    }
  }

  /** Advancing commits exactly up to the greatest such index, and nothing if there is none. */
  lemma AdvanceIsExact(n: NodeState)
    requires SortedTerms(n) && n.replica.base <= n.replica.commit
    ensures (forall x: nat :: !MayCommitAt(n, x)) ==> AdvanceCommit(n) == n
    ensures forall k: nat | MayCommitAt(n, k) && (forall x: nat | MayCommitAt(n, x) :: x <= k) ::
              AdvanceCommit(n) == n.(replica := SetCommit(n.replica, k), committedThisTerm := true)
  {
    hide QuorumHolds, SetCommit;
    ScanIsExact(n, Last(n));
    var p := CommitPoint(n, Last(n));
    forall k: nat | MayCommitAt(n, k) && (forall x: nat | MayCommitAt(n, x) :: x <= k)
      ensures AdvanceCommit(n) == n.(replica := SetCommit(n.replica, k), committedThisTerm := true)
    {
      assert k <= p;
      assert MayCommitAt(n, p);
    }
  }

  /** In every reachable state the hypothesis of `AdvanceIsExact` holds. */
  lemma ReachableTermsSorted(r: Execution, k: nat, i: NodeId)
    requires At(r, k, i)
    ensures SortedTerms(NodeAt(r, k, i)) && NodeAt(r, k, i).replica.base <= NodeAt(r, k, i).replica.commit
  {
    hide IsRun, ShadowRun, HistoryOK, UsesSlotsUpTo, LeaderOK, CandidateOK, Reflects, Covered, Uncompacted, ConfigOf, LatestConfig;
    var ss := RunShadowed(r);
    RunLength(r, ss);
    NodeFacts(r, ss, k, i);
    var n := NodeAt(r, k, i);
    UncompactedFacts(n, ss[k].initial);
    forall j, x | 0 < j <= x <= Last(n) ensures TermAt(n.replica, j) <= TermAt(n.replica, x) {
      TermsSorted(ss[k].initial, ss[k].h, n.replica.log, n.term, j - 1, x - 1);
    }
  }

  // ---- announced commit indices ----

  /** What a step newly sends announces no more than the sender's own commit index. */
  predicate Announces(n: NodeState, n': NodeState) {
    && n.sent <= n'.sent
    && forall pk | pk in n'.sent && pk !in n.sent && pk.msg.AppendEntries? :: pk.msg.leaderCommit <= n'.replica.commit
  }

  lemma BroadcastAnnounces(n: NodeState)
    ensures Announces(n, Broadcast(n))
  {}

  lemma MaybeWinAnnounces(n: NodeState)
    ensures Announces(n, MaybeWin(n)) && MaybeWin(n).replica == n.replica
  {
    hide ClientIndex, BroadcastPackets, Majority;
    BroadcastAnnounces(Lead(n));
  }

  lemma LocalAnnounces(n: NodeState, e: Event)
    requires !e.Deliver? && (e.Client? ==> !e.command.Config?)
    ensures Announces(n, Act(n, e))
  {
    hide ConfigOf, LatestConfig, BroadcastPackets, MaybeWin, Majority, OneApart, ClientIndex, ReadConfirmed, AlreadyAppended;
    BroadcastAnnounces(n);
    match e
    case Timeout(_) => var c := Campaign(n); MaybeWinAnnounces(c.(sent := c.sent + SolicitPackets(c, OtherVoters(c))));
    case Client(_, cmd) => BroadcastAnnounces(Extend(n, cmd));
    case Reconfigure(_, voters) => BroadcastAnnounces(Extend(n, Config(voters)));
    case _ =>
  }

  lemma HandleAnnounces(n: NodeState, m: Message)
    ensures Announces(n, Handle(n, m))
  {
    hide Absorb, SetCommit, MaybeWin, CommitPoint, Install, LogInconsistent, ReadConfirmed;
    match m
    case VoteReply(_, v, _) => MaybeWinAnnounces(n.(votes := n.votes + {v}));
    case _ =>
  }

  // ---- who raises a commit index ----

  /** A leader has counted more than half of its configuration for its commit index. */
  predicate Counted(n: NodeState) {
    && n.role.Leader? && n.committedThisTerm
    && n.replica.commit <= Last(n) && TermAt(n.replica, n.replica.commit) == n.term && QuorumHolds(n, n.replica.commit)
  }

  /** The two ways a commit index rises: an announcement, or a quorum counted by a leader. */
  lemma HandleRaises(n: NodeState, m: Message)
    requires !m.InstallSnapshot? && n.replica.threshold <= 0
    requires SortedTerms(n) && n.replica.base <= n.replica.commit
    ensures Handle(n, m).replica.commit > n.replica.commit ==>
              (m.AppendEntries? && Handle(n, m).replica.commit <= m.leaderCommit) || Counted(Handle(n, m))
  {
    hide MaybeWin, AppendLoop, LogInconsistent, SetCommit, SortedTerms, Counted, CommitPoint, NoteMatch;
    match m
    case AppendEntries(_, _, _, _, _, _) => OnAppendRaises(n, m);
    case AppendReply(_, _, _, _) => OnReplyRaises(n, m);
    case _ => OthersKeepCommit(n, m);
  }

  lemma OnAppendRaises(n: NodeState, m: Message)
    requires m.AppendEntries? && n.replica.threshold <= 0
    ensures OnAppendEntries(n, m).replica.commit > n.replica.commit ==> OnAppendEntries(n, m).replica.commit <= m.leaderCommit
  {
    hide AppendLoop, SetCommit, SnapshotOf, Recognise;
    if m.term >= n.term && !LogInconsistent(Recognise(n, m.term, m.leader), m) {
      RecogniseKeepsReplica(n, m);
      AppendLoopSetup(n.replica, m.prevIndex, m.entries);
      var r := AppendLoop(n.replica, m.prevIndex, m.entries);
      AppendLoopCommit(n.replica, m.prevIndex, m.entries);
      SetCommitFields(r, Largest(r.commit, Least(m.leaderCommit, m.prevIndex + |m.entries|)));
    } else if m.term >= n.term { RecogniseKeepsReplica(n, m); }
  }

  lemma RecogniseKeepsReplica(n: NodeState, m: Message)
    requires m.AppendEntries?
    ensures Recognise(n, m.term, m.leader).replica == n.replica
  {}

  lemma AppendLoopCommit(r: Replica, prev: nat, es: Log)
    ensures AppendLoop(r, prev, es).commit == r.commit
  {
    hide AppendLoop;
    LoopFrame(r, prev, es);
  }

  lemma OnReplyRaises(n: NodeState, m: Message)
    requires m.AppendReply? && n.replica.threshold <= 0 && SortedTerms(n) && n.replica.base <= n.replica.commit
    ensures OnAppendReply(n, m).replica.commit > n.replica.commit ==> Counted(OnAppendReply(n, m))
  {
    hide SetCommit, QuorumHolds, CommitPoint;
    if n.role.Leader? && m.term == n.term && m.success {
      var n1 := NoteMatch(n, m.follower, m.matchIndex);
      ScanIsExact(n1, Last(n1));
      var p := CommitPoint(n1, Last(n1));
      SetCommitFields(n.replica, p);
      if p > n.replica.commit { SameQuorum(n1, AdvanceCommit(n1), p); }
    }
  }

  lemma SameQuorum(n: NodeState, n': NodeState, k: nat)
    requires n'.progress == n.progress && n'.replica.voters == n.replica.voters
    ensures QuorumHolds(n', k) == QuorumHolds(n, k)
  {
    assert forall v :: MatchOf(n', v) == MatchOf(n, v);
    assert (set v | v in n'.replica.voters && MatchOf(n', v) >= k) == (set v | v in n.replica.voters && MatchOf(n, v) >= k);
  }

  lemma OthersKeepCommit(n: NodeState, m: Message)
    requires m.RequestVote? || m.VoteReply? || m.ReadHeartbeat? || m.ReadAck?
    ensures Handle(n, m).replica.commit == n.replica.commit
  {}

  lemma LocalKeepsCommit(n: NodeState, e: Event)
    requires !e.Deliver? && (e.Client? ==> !e.command.Config?)
    requires BaseConfigIndex(n.replica) <= n.replica.commit
    ensures Act(n, e).replica.commit <= n.replica.commit
  {
    hide ConfigOf, LatestConfig, BroadcastPackets, ClientIndex, Majority, OneApart;
  }

  // ---- over runs ----

  /** Some server's commit index had reached `index` by moment k. */
  ghost predicate SeenBy(r: Execution, k: nat, index: nat) {
    exists j, i :: SeenAt(r, j, i, k, index)
  }

  ghost predicate SeenAt(r: Execution, j: nat, i: NodeId, k: nat, index: nat) {
    j <= k && At(r, j, i) && index <= NodeAt(r, j, i).replica.commit
  }

  lemma StepAnnounces(c: Cluster, e: Event, c': Cluster)
    requires StepBy(c, e, c')
    ensures Announces(c.nodes[Actor(e)], c'.nodes[Actor(e)])
  {
    hide Announces, Handle, Sent, ClientCommand, ChangeConfig, RequestRead, Pause;
    var n := c.nodes[Actor(e)];
    if e.Deliver? {
      HandleAnnounces(n, e.packet.msg);
    } else {
      LocalAnnounces(n, e);
    }
  }

  /** A commit index travels only after some server has reached it. */
  lemma {:induction false} AnnouncedWasSeen(r: Execution, k: nat, pk: Packet)
    requires IsRun(r) && k < |r.states| && Sent(r.states[k], pk) && pk.msg.AppendEntries?
    ensures SeenBy(r, k, pk.msg.leaderCommit)
    decreases k
  {
    hide StepBy, Act, Starts;
    var i :| i in r.states[k].nodes && pk in r.states[k].nodes[i].sent;
    if k == 0 {
      NothingSentYet(r.states[0], i);
      assert false;
    } else {
      StepChanges(r, k - 1);
      StepAnnounces(r.states[k - 1], r.events[k - 1], r.states[k]);
      if pk in r.states[k - 1].nodes[i].sent {
        assert Sent(r.states[k - 1], pk);
        AnnouncedWasSeen(r, k - 1, pk);
        var j, l :| SeenAt(r, j, l, k - 1, pk.msg.leaderCommit);
        assert SeenAt(r, j, l, k, pk.msg.leaderCommit);
      } else {
        assert SeenAt(r, k, i, k, pk.msg.leaderCommit);
      }
    }
  }

  lemma NothingSentYet(c: Cluster, i: NodeId)
    requires Starts(c) && i in c.nodes
    ensures c.nodes[i].sent == {}
  {}

  lemma StepChanges(r: Execution, k: nat)
    requires IsRun(r) && k < |r.events|
    ensures Actor(r.events[k]) in r.states[k].nodes && r.states[k + 1].nodes.Keys == r.states[k].nodes.Keys
    ensures StepBy(r.states[k], r.events[k], r.states[k + 1])
    ensures forall j | j in r.states[k].nodes && j != Actor(r.events[k]) :: r.states[k + 1].nodes[j] == r.states[k].nodes[j]
    ensures r.events[k].Deliver? ==> Sent(r.states[k], r.events[k].packet)
  {
    hide Act, Sent;
  }

  /** A rise to an index nobody had reached is a leader's own count. */
  lemma NewCommitIsCounted(r: Execution, k: nat, i: NodeId, index: nat)
    requires IsRun(r) && k < |r.events| && At(r, k, i) && At(r, k + 1, i)
    requires index <= NodeAt(r, k + 1, i).replica.commit && !SeenBy(r, k, index)
    ensures Counted(NodeAt(r, k + 1, i))
  {
    hide IsRun, Counted, SortedTerms, Starts, Uncompacted, Handle, AboveBase, Sent, ConfigOf, LatestConfig, ClientCommand, ChangeConfig, RequestRead, Pause, ElectionTimeout, HeartbeatTick;
    StepChanges(r, k);
    StepEnabled(r, k);
    var n, n', e := NodeAt(r, k, i), NodeAt(r, k + 1, i), r.events[k];
    assert index <= n.replica.commit ==> SeenAt(r, k, i, k, index);
    ReachableTermsSorted(r, k, i);
    MembershipIsDerived(r, k, i);
    UncompactedFacts(n, r.states[0].initial);
    if e.Deliver? {
      AlwaysAboveBase(r, k);
      HandleRaises(n, e.packet.msg);
      if e.packet.msg.AppendEntries? && n'.replica.commit <= e.packet.msg.leaderCommit {
        AnnouncedWasSeen(r, k, e.packet);
        var j, l :| SeenAt(r, j, l, k, e.packet.msg.leaderCommit);
        assert SeenAt(r, j, l, k, index);
      }
    } else {
      LocalKeepsCommit(n, e);
    }
  }

  /** A recorded commit survives in every later leader, so its index was not lost. */
  lemma CommitNotLost(initial: set<NodeId>, h: History, c: Commit, m: nat, hi: int)
    requires HistoryOK(initial, h) && c in h.commits && m <= c.index
    ensures !Lost(h, c.term, m, hi)
  {
    hide HistoryOK;
    assert CommitOK(initial, h, c) by { CommitFacts(initial, h, c); }
    forall w | c.term < w <= hi && w in h.elected ensures Written(h, c.term, m) <= h.elected[w].base {
      LeaderCompleteness(initial, h, c, w);
      assert Written(h, c.term, m) <= Written(h, c.term, c.index);
    }
  }

  lemma CommitFacts(initial: set<NodeId>, h: History, c: Commit)
    requires HistoryOK(initial, h) && c in h.commits
    ensures CommitOK(initial, h, c)
  {}

  lemma AckedHolds(initial: set<NodeId>, h: History, c: Commit, v: NodeId, n: Core)
    requires HistoryOK(initial, h) && c in h.commits && NodeOK(h, v, n) && Acked(h, c.term, v, c.index)
    ensures Written(h, c.term, c.index) <= n.log
  {
    hide HistoryOK, Genuine, LeaderOK, CandidateOK, Covered, Lost;
    assert c.term <= n.term by { assert Slot(c.term, v) in h.acked; }
    CommitNotLost(initial, h, c, c.index, n.term);
  }

  ghost predicate HoldsAt(r: Execution, k: nat, v: NodeId, log: Log) {
    At(r, k, v) && log <= LogAt(r, k, v)
  }

  lemma CountedCommit(r: Execution, ss: seq<State>, k: nat, i: NodeId) returns (c: Commit)
    requires At(r, k, i) && ShadowRun(r, ss) && Counted(NodeAt(r, k, i))
    ensures k < |ss| && c in ss[k].h.commits && c.index == NodeAt(r, k, i).replica.commit
    ensures Written(ss[k].h, c.term, c.index) == CommittedAt(r, k, i) && c.term == NodeAt(r, k, i).term
    ensures forall v | MatchOf(NodeAt(r, k, i), v) >= c.index :: Acked(ss[k].h, c.term, v, c.index)
  {
    hide IsRun, ShadowRun, HistoryOK, Genuine, UsesSlotsUpTo, CandidateOK, Reflects, Covered, Uncompacted, Grows, QuorumHolds;
    RunLength(r, ss);
    NodeFacts(r, ss, k, i);
    var n := NodeAt(r, k, i);
    c :| c in ss[k].h.commits && c.term == n.term && c.index == n.replica.commit;
    CommitFacts(ss[k].initial, ss[k].h, c);
  }

  lemma MatcherHolds(r: Execution, ss: seq<State>, k: nat, i: NodeId, c: Commit, v: NodeId)
    requires At(r, k, i) && ShadowRun(r, ss) && k < |ss| && c in ss[k].h.commits
    requires Written(ss[k].h, c.term, c.index) == CommittedAt(r, k, i) && Acked(ss[k].h, c.term, v, c.index)
    ensures HoldsAt(r, k, v, CommittedAt(r, k, i))
  {
    hide IsRun, HistoryOK, NodeOK, Inv, Shadow, Uncompacted, Written;
    assert Shadows(ss[k], r.states[k]);
    assert v in r.states[k].nodes by { assert Slot(c.term, v) in ss[k].h.acked; }
    hide ShadowRun, Shadows;
    NodeFacts(r, ss, k, v);
    AckedHolds(ss[k].initial, ss[k].h, c, v, CoreOf(NodeAt(r, k, v)));
  }

  /** When a leader has counted its commit index, more than half of its configuration really hold the
      entries up to it, at that very moment. */
  lemma CountedIsHeld(r: Execution, k: nat, i: NodeId)
    requires At(r, k, i) && Counted(NodeAt(r, k, i))
    ensures |set v | v in NodeAt(r, k, i).replica.voters && HoldsAt(r, k, v, CommittedAt(r, k, i))| * 2 > |NodeAt(r, k, i).replica.voters|
  {
    hide IsRun, ShadowRun, HistoryOK, HoldsAt, Written, Counted, MatchOf, CommittedAt;
    var ss := RunShadowed(r);
    var c := CountedCommit(r, ss, k, i);
    var n := NodeAt(r, k, i);
    var counted := set v | v in n.replica.voters && MatchOf(n, v) >= c.index;
    var holding := set v | v in n.replica.voters && HoldsAt(r, k, v, CommittedAt(r, k, i));
    forall v | v in counted ensures v in holding { MatcherHolds(r, ss, k, i, c, v); }
    SubsetSize(counted, holding);
    assert |counted| * 2 > |n.replica.voters| by { CountedQuorum(n); }
  }

  lemma CountedQuorum(n: NodeState)
    requires Counted(n)
    ensures |set v | v in n.replica.voters && MatchOf(n, v) >= n.replica.commit| * 2 > |n.replica.voters|
  {}

  /** Commit quorum: a commit index no server had reached before is backed, in the state where it first
      shows, by more than half of the committing server's current configuration. */
  lemma CommitQuorum(r: Execution, k: nat, i: NodeId, index: nat)
    requires IsRun(r) && k < |r.events| && At(r, k, i) && At(r, k + 1, i)
    requires index <= NodeAt(r, k + 1, i).replica.commit && !SeenBy(r, k, index)
    ensures NodeAt(r, k + 1, i).role.Leader?
    ensures var n, held := NodeAt(r, k + 1, i), CommittedAt(r, k + 1, i);
            |set v | v in n.replica.voters && HoldsAt(r, k + 1, v, held)| * 2 > |n.replica.voters|
  {
    hide IsRun, HoldsAt, SeenBy, CommittedAt;
    NewCommitIsCounted(r, k, i, index);
    CountedIsHeld(r, k + 1, i);
  }
}
