/** What a server with compaction keeps whatever messages arrive: the bounds every method relies on, and
    configuration fields in step with the log (raftverified/node.py). */
module Soundness {
  import opened Types
  import opened Quorums
  import opened Logs
  import opened Kv
  import opened Replicas
  import opened NodeSpec
  import opened AppendSteps
  import opened Recovery

  /** What every method of a server relies on. */
  predicate Bounded(r: Replica) {
    r.base <= r.lastApplied == r.commit && BaseConfigIndex(r) == r.base
  }

  predicate Sound(r: Replica) { Bounded(r) && ConfigTracked(r) }

  // ---- the parts of a step ----

  lemma AppendKeepsSound(r: Replica, prev: nat, es: Log)
    requires Sound(r) && prev <= LastIndex(r) && NoOldConfigs(r.base, r.baseTerm, prev, es)
    ensures Sound(AppendLoop(r, prev, es)) && prev + |es| <= LastIndex(AppendLoop(r, prev, es))
    ensures AppendLoop(r, prev, es).commit == r.commit
  {
    hide AppendLoop, ConfigTracked;
    LoopFrame(r, prev, es);
    LoopLength(r, prev, es);
    LoopKeepsTracked(r, prev, es);
  }

  lemma CommitKeepsSound(r: Replica, index: nat)
    requires Sound(r) && (index <= r.commit || index <= LastIndex(r))
    ensures Sound(SetCommit(r, index))
  {
    hide LatestConfig, ConfigOf, Run, Commands, ApplyReports, Replicas.MaybeCompact;
    if index > r.commit { CompactKeepsSound(ApplyUpTo(r, index)); }
  }

  lemma LatestSplitAt(log: Log, k: nat)
    requires k <= |log|
    ensures LatestConfig(log) == if LatestConfig(log[k..]) > 0 then k + LatestConfig(log[k..]) else LatestConfig(log[..k])
  {
    assert log == log[..k] + log[k..];
    LatestConfigSplit(log[..k], log[k..]);
  }

  lemma CompactKeepsSound(r: Replica)
    requires Sound(r) && r.lastApplied <= LastIndex(r)
    ensures Sound(MaybeCompact(r))
  {
    hide LatestConfig, ConfigOf;
    var k := r.lastApplied - r.base;
    LatestSplitAt(r.log, k);
    ConfigOfLatest(BaseVoters(r), r.log[..k]);
  }

  lemma RebuildKeepsSound(r: Replica)
    requires r.base <= r.lastApplied == r.commit && BaseConfigIndex(r) == r.base
    ensures Sound(RebuildConfig(r))
  {
    hide LatestConfig, ConfigOf;
    ConfigOfLatest(BaseVoters(r), r.log);
  }

  lemma OwnKeepsSound(r: Replica, e: Entry)
    requires Sound(r)
    ensures Sound(AppendOwn(r, e))
  {
    hide LatestConfig;
    LatestSnoc(r.log, e);
  }

  lemma AbsorbKeepsSound(r: Replica, m: Message)
    requires Sound(r) && m.AppendEntries? && m.prevIndex <= LastIndex(r) && NoOldConfigs(r.base, r.baseTerm, m.prevIndex, m.entries)
    ensures Sound(Absorb(r, m))
  {
    hide Sound, AppendLoop, SetCommit, NoOldConfigs;
    AppendKeepsSound(r, m.prevIndex, m.entries);
    var r1 := AppendLoop(r, m.prevIndex, m.entries);
    var index := Largest(r1.commit, Least(m.leaderCommit, m.prevIndex + |m.entries|));
    if m.leaderCommit > r1.commit { CommitKeepsSound(r1, index); }
  }

  lemma InstallKeepsSound(r: Replica, s: Snapshot)
    requires s.lastIndex > r.base
    ensures Sound(Install(r, s))
  {
    hide Sound, RebuildConfig;
    RebuildKeepsSound(r.(
      log := if KeepsTail(r, s) then r.log[s.lastIndex - r.base..] else [],
      kv := s.kv, snapshot := Some(s), base := s.lastIndex, baseTerm := s.lastTerm,
      commit := s.lastIndex, lastApplied := s.lastIndex, applied := [], version := r.version + 1));
  }

  lemma AdvanceKeepsSound(n: NodeState)
    requires Sound(n.replica)
    ensures Sound(AdvanceCommit(n).replica)
  {
    hide Sound, SetCommit, CommitPoint;
    CommitPointBounds(n, Last(n));
    CommitKeepsSound(n.replica, CommitPoint(n, Last(n)));
  }

  // ---- whole steps ----

  /** No message, whatever it contains, breaks the bounds. */
  lemma HandleKeepsBounded(n: NodeState, m: Message)
    requires Bounded(n.replica)
    ensures Bounded(Handle(n, m).replica)
  {
    hide Absorb, Install, AdvanceCommit, MaybeWin, LogInconsistent, TermAt, ReadConfirmed, ApplyRead;
    match m
    case AppendEntries(_, _, _, _, _, _) => AbsorbKeepsBounded(n.replica, m);
    case InstallSnapshot(_, _, _, _, _, _, _) => if m.lastIndex > n.replica.base { InstallKeepsSound(n.replica, ImageOf(m)); }
    case AppendReply(_, _, _, _) => AdvanceKeepsBounded(NoteMatch(n, m.follower, m.matchIndex));
    case VoteReply(_, v, _) => WinKeepsReplica(n.(votes := n.votes + {v}));
    case _ =>
  }

  lemma CommitKeepsBounded(r: Replica, index: nat)
    requires Bounded(r)
    ensures Bounded(SetCommit(r, index))
  {
    hide ConfigOf, Run, Commands, ApplyReports, VotersUpTo, TermAt;
  }

  lemma AbsorbKeepsBounded(r: Replica, m: Message)
    requires Bounded(r) && m.AppendEntries?
    ensures Bounded(Absorb(r, m))
  {
    hide AppendLoop, SetCommit;
    LoopFrame(r, m.prevIndex, m.entries);
    var r1 := AppendLoop(r, m.prevIndex, m.entries);
    CommitKeepsBounded(r1, Largest(r1.commit, Least(m.leaderCommit, m.prevIndex + |m.entries|)));
  }

  lemma AdvanceKeepsBounded(n: NodeState)
    requires Bounded(n.replica)
    ensures Bounded(AdvanceCommit(n).replica)
  {
    hide Bounded, SetCommit, CommitPoint;
    CommitKeepsBounded(n.replica, CommitPoint(n, Last(n)));
  }

  /** The message repeats no configuration entry from below the compaction point. */
  predicate RepeatsNoOldConfig(n: NodeState, m: Message) {
    m.AppendEntries? ==> NoOldConfigs(n.replica.base, n.replica.baseTerm, m.prevIndex, m.entries)
  }

  /** Nor the configuration fields, unless it repeats a configuration from below the compaction point. */
  lemma HandleKeepsSound(n: NodeState, m: Message)
    requires Sound(n.replica) && RepeatsNoOldConfig(n, m)
    ensures Sound(Handle(n, m).replica)
  {
    hide Sound, Absorb, Install, AdvanceCommit, MaybeWin, LogInconsistent, TermAt, ReadConfirmed, ApplyRead, NoOldConfigs;
    match m
    case AppendEntries(_, _, _, _, _, _) => AppendSound(n, m);
    case InstallSnapshot(_, _, _, _, _, _, _) => if m.lastIndex > n.replica.base { InstallKeepsSound(n.replica, ImageOf(m)); }
    case AppendReply(_, _, _, _) => AdvanceKeepsSound(NoteMatch(n, m.follower, m.matchIndex));
    case VoteReply(_, v, _) => WinKeepsReplica(n.(votes := n.votes + {v}));
    case _ => ReadsKeepSound(n, m);
  }

  lemma WinKeepsReplica(n: NodeState)
    ensures MaybeWin(n).replica == n.replica
  {
    hide ClientIndex, BroadcastPackets, Majority;
  }

  lemma AppendSound(n: NodeState, m: Message)
    requires Sound(n.replica) && m.AppendEntries? && RepeatsNoOldConfig(n, m)
    ensures Sound(OnAppendEntries(n, m).replica)
  {
    hide Sound, Absorb, TermAt, NoOldConfigs;
    if m.term >= n.term && !LogInconsistent(Recognise(n, m.term, m.leader), m) { AbsorbKeepsSound(n.replica, m); }
  }

  lemma ReadsKeepSound(n: NodeState, m: Message)
    requires Sound(n.replica) && (m.RequestVote? || m.ReadHeartbeat? || m.ReadAck?)
    ensures Sound(Handle(n, m).replica)
  {
    hide ConfigTracked, ReadConfirmed, ApplyRead;
    if m.ReadAck? { TrackedImage(n.replica, Handle(n, m).replica); }
  }

  lemma TrackedImage(a: Replica, b: Replica)
    requires SameImage(a, b) && ConfigTracked(a)
    ensures ConfigTracked(b)
  {
    hide LatestConfig;
  }

  /** Nor does any other step. */
  lemma LocalStepsKeepBounded(n: NodeState, cmd: Command, read: Command, voters: set<NodeId>)
    requires Bounded(n.replica) && !cmd.Config?
    ensures Bounded(Pause(n).replica) && Bounded(Resume(n).replica) && Bounded(ElectionTimeout(n).replica) && Bounded(HeartbeatTick(n).replica)
    ensures Bounded(ClientCommand(n, cmd).0.replica) && Bounded(ChangeConfig(n, voters).0.replica) && Bounded(RequestRead(n, read).0.replica)
  {
    hide MaybeWin, ReadConfirmed, AlreadyAppended, MayChangeConfig, SolicitPackets, BroadcastPackets, HeartbeatPackets, ApplyRead, ConfigTracked;
    RestartSound(n.replica);
    var c := Campaign(n);
    WinKeepsReplica(c.(sent := c.sent + SolicitPackets(c, OtherVoters(c))));
  }

  /** So do crashes, timers, client commands, configuration changes and reads. */
  lemma LocalStepsKeepSound(n: NodeState, cmd: Command, read: Command, voters: set<NodeId>)
    requires Sound(n.replica) && !cmd.Config?
    ensures Sound(Pause(n).replica) && Sound(Resume(n).replica) && Sound(ElectionTimeout(n).replica) && Sound(HeartbeatTick(n).replica)
    ensures Sound(ClientCommand(n, cmd).0.replica) && Sound(ChangeConfig(n, voters).0.replica) && Sound(RequestRead(n, read).0.replica)
  {
    hide Bounded, ConfigTracked, RebuildConfig, AppendOwn, MaybeWin, ReadConfirmed, AlreadyAppended, MayChangeConfig, SolicitPackets, BroadcastPackets;
    RestartSound(n.replica);
    OwnKeepsSound(n.replica, Entry(n.term, cmd));
    OwnKeepsSound(n.replica, Entry(n.term, Config(voters)));
    var c := Campaign(n);
    WinKeepsReplica(c.(sent := c.sent + SolicitPackets(c, OtherVoters(c))));
    RequestSound(n, read);
  }

  /** A restart brings the configuration fields back in step, whatever they were. */
  lemma RestartSound(r: Replica)
    requires Bounded(r)
    ensures Sound(Restart(r))
  {
    RebuildKeepsSound(r.(
      kv := if r.snapshot.Some? then r.snapshot.value.kv else EMPTY_KV,
      commit := BaseConfigIndex(r), lastApplied := BaseConfigIndex(r), applied := []));
    hide RebuildConfig, ConfigTracked;
  }

  lemma RequestSound(n: NodeState, read: Command)
    requires Sound(n.replica)
    ensures Sound(RequestRead(n, read).0.replica)
  {
    hide ConfigTracked, ReadConfirmed, HeartbeatPackets, ApplyRead;
    TrackedImage(n.replica, RequestRead(n, read).0.replica);
  }
}
