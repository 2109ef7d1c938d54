/** What an AppendEntries does to its receiver: a duplicate changes nothing, entries shared with the
    sending leader stay, and a success reply is true (`_on_append_entries`, section 5.3). */
module Replication {
  import opened Types
  import opened Kv
  import opened Logs
  import opened Replicas
  import opened NodeSpec
  import opened Recovery
  import opened AppendSteps
  import opened Soundness
  import opened Protocol
  import opened Safety
  import opened ProtocolSteps
  import opened ProtocolMoves
  import opened NodeRefinement
  import opened Cluster
  import opened ClusterRefinement
  import opened ClusterSafety

  // ---- duplicates ----

  lemma {:induction false} FullAgreement(log: Log, k: nat, es: Log)
    requires k + |es| <= |log|
    requires forall j | 0 <= j < |es| :: log[k + j].term == es[j].term
    ensures Agreement(log, k, es) == |es|
    decreases |es|
  {
    if es != [] {
      assert forall j | 0 <= j < |es[1..]| :: log[k + 1 + j].term == es[1..][j].term by {
        forall j | 0 <= j < |es[1..]| ensures log[k + 1 + j].term == es[1..][j].term { assert log[k + (j + 1)].term == es[j + 1].term; }
      }
      FullAgreement(log, k + 1, es[1..]);
    }
  }

  lemma MergeTwice(log: Log, k: nat, es: Log)
    requires k <= |log|
    ensures var out := Merge(log, k, es);
            && k + |es| <= |out| && out[..k] == log[..k]
            && Agreement(out, k, es) == |es| && Merge(out, k, es) == out
  {
    var out, a := Merge(log, k, es), Agreement(log, k, es);
    forall j | 0 <= j < |es| ensures out[k + j].term == es[j].term {
      if j < a { assert log[k + j].term == es[j].term; }
    }
    FullAgreement(out, k, es);
  }

  /** The log holds the entries after position prev. */
  predicate HoldsAfter(r: Replica, prev: nat, es: Log) {
    && r.base <= prev && prev + |es| <= LastIndex(r)
    && forall j | 0 <= j < |es| :: r.log[prev - r.base + j].term == es[j].term
  }

  lemma AppendHolds(r: Replica, prev: nat, es: Log)
    requires r.base <= prev <= LastIndex(r) && ConfigTracked(r) && BaseConfigIndex(r) == r.base
    ensures var r1 := AppendLoop(r, prev, es);
            HoldsAfter(r1, prev, es) && r1.base == r.base && TermAt(r1, prev) == TermAt(r, prev)
  {
    hide Agreement, Merge, ConfigTracked, AppendMerged, AppendLoop;
    LoopIsMerged(r, prev, es);
    LoopBase(r, prev, es);
    MergeTwice(r.log, prev - r.base, es);
    var out := Merge(r.log, prev - r.base, es);
    if prev > r.base {
      assert out[..prev - r.base][prev - r.base - 1] == r.log[..prev - r.base][prev - r.base - 1];
    }
    AgreedTerms(out, prev - r.base, es);
  }

  lemma AgreedTerms(log: Log, k: nat, es: Log)
    requires k + |es| <= |log| && Agreement(log, k, es) == |es|
    ensures forall j | 0 <= j < |es| :: log[k + j].term == es[j].term
  {}

  /** Appending what is held already changes nothing. */
  lemma HeldIsKept(r: Replica, prev: nat, es: Log)
    requires ConfigTracked(r) && BaseConfigIndex(r) == r.base && HoldsAfter(r, prev, es)
    ensures AppendLoop(r, prev, es) == r
  {
    hide LatestConfig, ConfigTracked, AdoptFromLog, Agreement, AppendLoop;
    LoopIsMerged(r, prev, es);
    FullAgreement(r.log, prev - r.base, es);
    AdoptSame(r);
  }

  /** Committing and compacting keep the entries above the compaction point. */
  lemma CommitHolds(r: Replica, index: nat, prev: nat, es: Log)
    requires Sound(r) && HoldsAfter(r, prev, es) && (index <= r.commit || index <= LastIndex(r))
    requires SetCommit(r, index).base <= prev
    ensures var r' := SetCommit(r, index);
            HoldsAfter(r', prev, es) && TermAt(r', prev) == TermAt(r, prev) && r'.commit == Largest(r.commit, index)
  {
    hide ConfigTracked, Run, Commands, ApplyReports, Replicas.MaybeCompact;
    if index > r.commit { CompactHolds(ApplyUpTo(r, index), prev, es); }
  }

  lemma CompactHolds(r: Replica, prev: nat, es: Log)
    requires HoldsAfter(r, prev, es) && r.base <= r.lastApplied <= LastIndex(r) && Replicas.MaybeCompact(r).base <= prev
    ensures var r' := Replicas.MaybeCompact(r); HoldsAfter(r', prev, es) && TermAt(r', prev) == TermAt(r, prev) && r'.commit == r.commit
  {
    hide VotersUpTo;
  }

  lemma AbsorbTwice(r: Replica, m: Message)
    requires Sound(r) && m.AppendEntries? && r.base <= m.prevIndex <= LastIndex(r) && Absorb(r, m).base <= m.prevIndex
    ensures var r' := Absorb(r, m);
            && m.prevIndex <= LastIndex(r') && TermAt(r', m.prevIndex) == TermAt(r, m.prevIndex)
            && Absorb(r', m) == r'
  {
    hide AppendLoop, SetCommit, Sound, ConfigTracked;
    var r1, r' := AppendLoop(r, m.prevIndex, m.entries), Absorb(r, m);
    AbsorbKeepsSound(r, m);
    SoundTracks(r);
    SoundTracks(r');
    AppendHolds(r, m.prevIndex, m.entries);
    AppendKeepsSound(r, m.prevIndex, m.entries);
    var index := Largest(r1.commit, Least(m.leaderCommit, m.prevIndex + |m.entries|));
    if m.leaderCommit > r1.commit { CommitHolds(r1, index, m.prevIndex, m.entries); }
    HeldIsKept(r', m.prevIndex, m.entries);
    CommitAgain(r', m.leaderCommit, m.prevIndex + |m.entries|);
  }

  lemma SoundTracks(r: Replica)
    requires Sound(r)
    ensures ConfigTracked(r) && BaseConfigIndex(r) == r.base
  {}

  lemma CommitAgain(r: Replica, announced: nat, matched: nat)
    requires announced > r.commit ==> Least(announced, matched) <= r.commit
    ensures FollowCommit(r, announced, matched) == r
  {}

  /** Handling the same AppendEntries again changes nothing at all: not the log, the configuration, the commit
      index, the state machine or even the messages sent. With compaction on this holds as long as the first
      delivery has not compacted past the entry the message builds on. */
  lemma DuplicateIsIdempotent(n: NodeState, m: Message)
    requires Sound(n.replica) && m.AppendEntries? && m.prevIndex >= n.replica.base
    requires m.prevIndex >= OnAppendEntries(n, m).replica.base
    ensures OnAppendEntries(OnAppendEntries(n, m), m) == OnAppendEntries(n, m)
  {
    hide Sound, Absorb, TermAt;
    if m.term >= n.term {
      var n1 := Recognise(n, m.term, m.leader);
      if !LogInconsistent(n1, m) { AbsorbTwice(n1.replica, m); }
    }
  }

  /** Every state that represents a history is sound, and without compaction the first delivery compacts nothing. */
  lemma DuplicatesAreHarmless(n: NodeState, hist: Log, m: Message)
    requires Represents(n.replica, hist) && n.replica.threshold <= 0 && m.AppendEntries? && m.prevIndex >= n.replica.base
    ensures m.prevIndex >= OnAppendEntries(n, m).replica.base
    ensures OnAppendEntries(OnAppendEntries(n, m), m) == OnAppendEntries(n, m)
  {
    hide Absorb, TermAt, OnAppendEntries;
    RepresentsSound(n.replica, hist);
    NothingCompacted(n, m);
    DuplicateIsIdempotent(n, m);
  }

  lemma RepresentsSound(r: Replica, hist: Log)
    requires Represents(r, hist)
    ensures Sound(r)
  {
    hide ConfigTracked;
    RepresentsTracked(r, hist);
  }

  lemma NothingCompacted(n: NodeState, m: Message)
    requires n.replica.threshold <= 0 && m.AppendEntries?
    ensures OnAppendEntries(n, m).replica.base == n.replica.base
  {
    hide AppendLoop, SetCommit;
    if m.term >= n.term && !LogInconsistent(Recognise(n, m.term, m.leader), m) {
      var r := Recognise(n, m.term, m.leader).replica;
      AppendLoopSetup(r, m.prevIndex, m.entries);
      var r1 := AppendLoop(r, m.prevIndex, m.entries);
      SetCommitFields(r1, Largest(r1.commit, Least(m.leaderCommit, m.prevIndex + |m.entries|)));
    }
  }

  // ---- the receiver and the leader ----

  /** The message passes the term and consistency checks. */
  predicate Accepts(n: NodeState, m: Message) {
    n.alive && m.AppendEntries? && m.term >= n.term && !LogInconsistent(Recognise(n, m.term, m.leader), m)
  }

  function AcceptReply(n: NodeState, m: Message): Packet
    requires m.AppendEntries?
  {
    Packet(n.id, m.leader, AppendReply(m.term, n.id, true, Reach(m)))
  }

  lemma AcceptedState(n: NodeState, m: Message)
    requires Accepts(n, m)
    ensures m.prevIndex <= LastIndex(n.replica) && (m.prevIndex > 0 ==> TermAt(n.replica, m.prevIndex) == m.prevTerm)
    ensures Handle(n, m).replica == Absorb(n.replica, m) && AcceptReply(n, m) in Handle(n, m).sent
  {
    hide Absorb, TermAt, OnRequestVote, OnVoteReply, OnAppendReply, OnInstallSnapshot, OnReadHeartbeat, OnReadAck;
  }

  lemma AbsorbedLog(r: Replica, m: Message)
    requires r.base == 0 && r.threshold <= 0 && m.AppendEntries? && m.prevIndex <= LastIndex(r)
    requires ConfigTracked(r) && BaseConfigIndex(r) == 0
    ensures Absorb(r, m).log == Merge(r.log, m.prevIndex, m.entries)
  {
    hide AppendLoop, Merge, SetCommit, ConfigTracked;
    AppendLoopFields(r, m.prevIndex, m.entries);
    var r1 := AppendLoop(r, m.prevIndex, m.entries);
    SetCommitFields(r1, Largest(r1.commit, Least(m.leaderCommit, Reach(m))));
  }

  lemma AcceptedLog(n: NodeState, initial: set<NodeId>, m: Message)
    requires Uncompacted(n, initial) && Accepts(n, m)
    ensures n.replica.base == 0 && m.prevIndex <= |n.replica.log|
    ensures m.prevIndex > 0 ==> n.replica.log[m.prevIndex - 1].term == m.prevTerm
    ensures Handle(n, m).replica.log == Merge(n.replica.log, m.prevIndex, m.entries)
    ensures AcceptReply(n, m) in Handle(n, m).sent
  {
    hide Absorb, Merge, Handle, TermAt, Recognise, LogInconsistent, Represents, ConfigTracked;
    RepresentsTracked(n.replica, n.replica.log);
    UncompactedFacts(n, initial);
    hide Uncompacted;
    AcceptedState(n, m);
    AbsorbedLog(n.replica, m);
  }

  /** A merge seen against everything the leader of the term has written. */
  lemma MergeAgainstLeader(initial: set<NodeId>, h: History, log: Log, top: nat, m: Message)
    requires HistoryOK(initial, h) && Genuine(h, log, top) && m.AppendEntries? && top <= m.term && m.term in h.leaderLog
    requires SliceOf(m, h.leaderLog[m.term])
    requires m.prevIndex <= |log| && (m.prevIndex > 0 ==> log[m.prevIndex - 1].term == m.prevTerm)
    ensures var leader, out := h.leaderLog[m.term], Merge(log, m.prevIndex, m.entries);
            leader[..Reach(m)] <= out && KeepsShared(log, leader, out)
  {
    hide HistoryOK, Merge;
    var leader := h.leaderLog[m.term];
    assert m.term in h.elected by { ElectedHasLog(initial, h); }
    LeaderLogGenuine(initial, h, m.term);
    assert Genuine(h, log, m.term);
    ConsistencyCheck(h, log, leader, m.term, m.prevIndex);
    MergeFollowsLeader(h, log, leader, m.term, m.prevIndex, m.entries);
  }

  lemma ElectedHasLog(initial: set<NodeId>, h: History)
    requires HistoryOK(initial, h)
    ensures h.elected.Keys == h.leaderLog.Keys
  {}

  predicate SliceOf(m: Message, leader: Log)
    requires m.AppendEntries?
  {
    && Reach(m) <= |leader| && m.entries == leader[m.prevIndex..Reach(m)]
    && m.prevTerm == LastTerm(leader[..m.prevIndex])
  }

  lemma SliceLater(m: Message, leader: Log, leader': Log)
    requires m.AppendEntries? && SliceOf(m, leader) && leader <= leader'
    ensures SliceOf(m, leader')
  {
    assert leader'[m.prevIndex..Reach(m)] == leader[m.prevIndex..Reach(m)];
    assert leader'[..m.prevIndex] == leader[..m.prevIndex];
  }

  /** A message on the network is a slice of its leader's log, then and at any later moment z. */
  lemma SentSlice(r: Execution, ss: seq<State>, k: nat, z: nat, pk: Packet)
    requires IsRun(r) && ShadowRun(r, ss) && k <= z < |r.states| && Sent(r.states[k], pk) && pk.msg.AppendEntries?
    ensures |ss| == |r.states| && pk.msg.term in ss[z].h.leaderLog && SliceOf(pk.msg, ss[z].h.leaderLog[pk.msg.term])
  {
    hide IsRun, Shadow, Sent, NodeOK, HistoryOK, CoveredBy;
    RunLength(r, ss);
    assert Shadows(ss[k], r.states[k]);
    SentIsOnNetwork(ss[k], r.states[k], pk);
    assert PacketOK(ss[k].h, pk);
    Growing(r, ss, k, z);
    SliceLater(pk.msg, ss[k].h.leaderLog[pk.msg.term], ss[z].h.leaderLog[pk.msg.term]);
  }

  predicate Delivers(r: Execution, k: nat, i: NodeId, m: Message) {
    && IsRun(r) && k < |r.events| && r.events[k].Deliver? && r.events[k].packet.dst == i && r.events[k].packet.msg == m
    && At(r, k, i) && At(r, k + 1, i)
  }

  /** What a server still knows of its own log at a later moment of the ledger. */
  lemma LogGenuineLater(r: Execution, ss: seq<State>, k: nat, z: nat, i: NodeId)
    requires At(r, k, i) && ShadowRun(r, ss) && k <= z < |r.states|
    ensures |ss| == |r.states| && Genuine(ss[z].h, LogAt(r, k, i), NodeAt(r, k, i).term)
    ensures HistoryOK(ss[z].initial, ss[z].h)
  {
    hide IsRun, ShadowRun, HistoryOK, UsesSlotsUpTo, LeaderOK, CandidateOK, Reflects, Covered, Uncompacted, Genuine, Grows;
    RunLength(r, ss);
    NodeFacts(r, ss, k, i);
    Growing(r, ss, k, z);
    GenuineLater(ss[k].h, ss[z].h, LogAt(r, k, i), NodeAt(r, k, i).term);
    HistoryHolds(r, ss, z);
  }

  lemma LeaderLogLater(r: Execution, ss: seq<State>, j: nat, z: nat, l: NodeId, t: nat)
    requires LeadsAt(r, j, l, t) && ShadowRun(r, ss) && j <= z < |r.states|
    ensures |ss| == |r.states| && t in ss[z].h.leaderLog && LogAt(r, j, l) <= ss[z].h.leaderLog[t]
  {
    hide IsRun, ShadowRun, HistoryOK;
    RunLength(r, ss);
    LeaderFacts(r, ss, j, l, t);
    Growing(r, ss, j, z);
  }

  lemma AcceptedStep(r: Execution, k: nat, i: NodeId, m: Message)
    requires Delivers(r, k, i, m) && Accepts(NodeAt(r, k, i), m)
    ensures m.prevIndex <= |LogAt(r, k, i)| && (m.prevIndex > 0 ==> LogAt(r, k, i)[m.prevIndex - 1].term == m.prevTerm)
    ensures LogAt(r, k + 1, i) == Merge(LogAt(r, k, i), m.prevIndex, m.entries)
    ensures AcceptReply(NodeAt(r, k, i), m) in NodeAt(r, k + 1, i).sent
    ensures Sent(r.states[k], r.events[k].packet)
  {
    hide Accepts, Merge, Handle, AboveBase, Starts, Uncompacted, Sent, ConfigOf, LatestConfig;
    MembershipIsDerived(r, k, i);
    AcceptedLog(NodeAt(r, k, i), r.states[0].initial, m);
    StepEnabled(r, k);
  }

  /** Match soundness and repair: a receiver that accepts answers with a success reply, after which its
      first `match` entries are those of the leader of that term; and every entry its log shared
      with that leader's log, at whatever moment the leader is looked at, is still there. */
  lemma AcceptanceIsSound(r: Execution, k: nat, i: NodeId, m: Message, j: nat, l: NodeId)
    requires Delivers(r, k, i, m) && Accepts(NodeAt(r, k, i), m) && LeadsAt(r, j, l, m.term)
    ensures AcceptReply(NodeAt(r, k, i), m) in NodeAt(r, k + 1, i).sent
    ensures Reach(m) <= |LogAt(r, j, l)| ==> LogAt(r, j, l)[..Reach(m)] <= LogAt(r, k + 1, i)
    ensures KeepsShared(LogAt(r, k, i), LogAt(r, j, l), LogAt(r, k + 1, i))
  {
    hide ShadowRun, HistoryOK, Genuine, Merge, SliceOf, IsRun, Sent;
    AcceptedStep(r, k, i, m);
    var ss := RunShadowed(r) by { DeliversIsRun(r, k, i, m); }
    var z := if j <= k then k else j;
    LogGenuineLater(r, ss, k, z, i);
    LeaderLogLater(r, ss, j, z, l, m.term);
    SentSlice(r, ss, k, z, r.events[k].packet);
    MergeAgainstLeader(ss[z].initial, ss[z].h, LogAt(r, k, i), NodeAt(r, k, i).term, m);
    var leader, log, out := ss[z].h.leaderLog[m.term], LogAt(r, k, i), LogAt(r, k + 1, i);
    forall p: nat | Agree(log, LogAt(r, j, l), p) ensures Agree(log, out, p) {
      assert LogAt(r, j, l)[..p] == leader[..p];
      assert Agree(log, leader, p);
    }
  }

  lemma RefusedStep(r: Execution, k: nat, i: NodeId, m: Message)
    requires Delivers(r, k, i, m) && m.AppendEntries? && !Accepts(NodeAt(r, k, i), m)
    ensures LogAt(r, k + 1, i) == LogAt(r, k, i)
  {
    hide AboveBase, Starts, Uncompacted, Sent, ConfigOf, LatestConfig, Absorb, LogInconsistent;
    StepEnabled(r, k);
  }

  lemma MergeInside(log: Log, k: nat, es: Log)
    requires k + |es| <= |log| && es == log[k..k + |es|]
    ensures Merge(log, k, es) == log
  {
    AgreesInside(log, k, es);
  }

  lemma {:induction false} AgreesInside(log: Log, k: nat, es: Log)
    requires k + |es| <= |log| && es == log[k..k + |es|]
    ensures Agreement(log, k, es) == |es|
    decreases |es|
  {
    if es != [] {
      assert es[0] == log[k] && es[1..] == log[k + 1..k + 1 + |es[1..]|];
      AgreesInside(log, k + 1, es[1..]);
    }
  }

  /** Nothing the leader sends in its term, whenever it was sent, changes a log that goes on from the leader's. */
  lemma ContinuationStays(r: Execution, k: nat, i: NodeId, m: Message, l: NodeId)
    requires Delivers(r, k, i, m) && m.AppendEntries? && LeadsAt(r, k, l, m.term) && LogAt(r, k, l) <= LogAt(r, k, i)
    ensures LogAt(r, k + 1, i) == LogAt(r, k, i)
  {
    hide ShadowRun, HistoryOK, Merge, IsRun, Sent, Accepts;
    if Accepts(NodeAt(r, k, i), m) {
      AcceptedStep(r, k, i, m);
      var ss := RunShadowed(r) by { DeliversIsRun(r, k, i, m); }
      LeaderFacts(r, ss, k, l, m.term);
      SentSlice(r, ss, k, k, r.events[k].packet);
      var leader, log := LogAt(r, k, l), LogAt(r, k, i);
      assert m.entries == leader[m.prevIndex..Reach(m)] == log[m.prevIndex..Reach(m)];
      MergeInside(log, m.prevIndex, m.entries);
    } else {
      RefusedStep(r, k, i, m);
    }
  }

  lemma DeliversIsRun(r: Execution, k: nat, i: NodeId, m: Message)
    requires Delivers(r, k, i, m)
    ensures IsRun(r)
  {}
}
