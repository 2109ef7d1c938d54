/** Compaction, crashes and snapshots lose nothing: a replica's live fields are always what its full
    command history determines. `Represents(r, hist)` says so for a history `hist` of which the
    replica may have discarded a prefix; every operation moves from one such history to the next. */
module Recovery {
  import opened Types
  import opened Logs
  import opened Kv
  import opened Replicas
  import opened NodeSpec
  import opened AppendSteps

  function StateAfter(hist: Log): KvState { Run(EMPTY_KV, hist) }

  predicate SnapshotOf(s: Snapshot, initial: set<NodeId>, hist: Log) {
    s.lastIndex == |hist| && s.lastTerm == LastTerm(hist) && s.kv == StateAfter(hist) && s.voters == ConfigOf(initial, hist)
  }

  /** The governing configuration entry, as far as it is still visible: once it lies at or below
      the compaction point, any index there will do. */
  predicate ConfigIndexFor(index: nat, base: nat, hist: Log) {
    index == LatestConfig(hist) || (LatestConfig(hist) <= base && index <= base)
  }

  /** The live log is the history above the compaction point. */
  predicate LogFits(base: nat, baseTerm: nat, log: Log, hist: Log) {
    |hist| == base + |log| && log == hist[base..] && baseTerm == LastTerm(hist[..base])
  }

  predicate SnapshotFits(snapshot: Option<Snapshot>, base: nat, initial: set<NodeId>, hist: Log) {
    && base <= |hist|
    && (snapshot.Some? <==> base > 0)
    && (snapshot.Some? ==> SnapshotOf(snapshot.value, initial, hist[..base]))
  }

  /** The state machine and the applied labels are the fold of the committed history. */
  predicate StateFits(base: nat, commit: nat, kv: KvState, applied: seq<Command>, hist: Log) {
    base <= commit <= |hist| && kv == StateAfter(hist[..commit]) && applied == Commands(hist[base..commit])
  }

  predicate ConfigFits(voters: set<NodeId>, index: nat, base: nat, initial: set<NodeId>, hist: Log) {
    voters == ConfigOf(initial, hist) && ConfigIndexFor(index, base, hist)
  }

  predicate Represents(r: Replica, hist: Log) {
    && LogFits(r.base, r.baseTerm, r.log, hist)
    && SnapshotFits(r.snapshot, r.base, r.initialVoters, hist)
    && r.lastApplied == r.commit && StateFits(r.base, r.commit, r.kv, r.applied, hist)
    && ConfigFits(r.voters, r.configIndex, r.base, r.initialVoters, hist)
  }

  /** Versions and reports are not part of what a history determines. */
  predicate SameImage(a: Replica, b: Replica) {
    a == b.(version := a.version, reports := a.reports)
  }

  lemma ImageRepresents(a: Replica, b: Replica, hist: Log)
    requires SameImage(a, b) && Represents(b, hist)
    ensures Represents(a, hist)
  {}

  lemma HistoryLength(r: Replica, hist: Log)
    requires Represents(r, hist)
    ensures |hist| == LastIndex(r) && r.base <= r.commit <= |hist|
  {}

  // ---- configurations ----

  lemma RebuildFits(r: Replica, hist: Log)
    requires LogFits(r.base, r.baseTerm, r.log, hist) && SnapshotFits(r.snapshot, r.base, r.initialVoters, hist)
    ensures ConfigFits(RebuildConfig(r).voters, RebuildConfig(r).configIndex, r.base, r.initialVoters, hist)
  {
    assert hist == hist[..r.base] + r.log;
    if r.snapshot.None? { assert hist[..r.base] == []; }
    ConfigOfSplit(r.initialVoters, hist[..r.base], r.log);
    LatestConfigSplit(hist[..r.base], r.log);
  }

  /** Rebuilding the configuration from what is stored never changes who votes, nor whether a
      configuration change counts as in flight. */
  lemma RebuildAgrees(r: Replica, hist: Log)
    requires Represents(r, hist)
    ensures RebuildConfig(r).voters == r.voters
    ensures RebuildConfig(r).configIndex > r.commit <==> r.configIndex > r.commit
    ensures Represents(RebuildConfig(r), hist)
  {
    RebuildFits(r, hist);
  }

  // ---- crash and restart ----

  /** A crash falls back to the snapshot boundary and keeps history and membership. */
  lemma RestartRecovers(r: Replica, hist: Log)
    requires Represents(r, hist)
    ensures Represents(Restart(r), hist)
    ensures Restart(r).commit == r.base && Restart(r).voters == r.voters && Restart(r).log == r.log
  {
    assert hist[r.base..r.base] == [];
    if r.snapshot.None? { assert hist[..r.base] == []; }
    RebuildFits(r.(kv := if r.snapshot.Some? then r.snapshot.value.kv else EMPTY_KV,
                   commit := BaseConfigIndex(r), lastApplied := BaseConfigIndex(r), applied := []), hist);
  }

  /** Re-learning an old commit index after a crash rebuilds exactly the state lost in it. */
  lemma ReplayRestoresState(r: Replica, hist: Log)
    requires Represents(r, hist)
    ensures SetCommit(Restart(r), r.commit).kv == r.kv && SetCommit(Restart(r), r.commit).commit == r.commit
    ensures SetCommit(Restart(r), r.commit).voters == r.voters
  {
    RestartRecovers(r, hist);
    CommitRecovers(Restart(r), hist, r.commit);
  }

  // ---- applying and compacting ----

  lemma {:induction false} CommandsConcat(a: Log, b: Log)
    ensures Commands(a + b) == Commands(a) + Commands(b)
  {
    if b == [] {
      assert a + b == a;
    } else {
      assert (a + b)[..|a + b| - 1] == a + b[..|b| - 1];
      CommandsConcat(a, b[..|b| - 1]);
    }
  }

  lemma {:induction false} CommandsAt(log: Log)
    ensures |Commands(log)| == |log|
    ensures forall i | 0 <= i < |log| :: Commands(log)[i] == log[i].command
  {
    if log != [] { CommandsAt(log[..|log| - 1]); }
  }

  lemma ApplyMore(base: nat, commit: nat, kv: KvState, applied: seq<Command>, hist: Log, index: nat)
    requires StateFits(base, commit, kv, applied, hist) && commit <= index <= |hist|
    ensures StateFits(base, index, Run(kv, hist[commit..index]), applied + Commands(hist[commit..index]), hist)
  {
    var newly := hist[commit..index];
    assert hist[..index] == hist[..commit] + newly;
    RunConcat(EMPTY_KV, hist[..commit], newly);
    assert hist[base..index] == hist[base..commit] + newly;
    CommandsConcat(hist[base..commit], newly);
  }

  lemma CommitRecovers(r: Replica, hist: Log, index: nat)
    requires Represents(r, hist) && index <= |hist|
    ensures Represents(SetCommit(r, index), hist)
    ensures SetCommit(r, index).commit == Largest(r.commit, index) && SetCommit(r, index).voters == r.voters
  {
    hide Represents;
    if index > r.commit {
      ApplyRecovers(r, hist, index);
      CompactRecovers(ApplyUpTo(r, index), hist);
    }
  }

  lemma ApplyRecovers(r: Replica, hist: Log, index: nat)
    requires Represents(r, hist) && r.commit <= index <= |hist|
    ensures Represents(ApplyUpTo(r, index), hist)
  {
    assert NewlyCommitted(r, index) == hist[r.commit..index];
    ApplyMore(r.base, r.commit, r.kv, r.applied, hist, index);
  }

  lemma FoldPrefix(base: nat, baseTerm: nat, log: Log, snapshot: Option<Snapshot>, initial: set<NodeId>, hist: Log, upto: nat)
    requires LogFits(base, baseTerm, log, hist) && SnapshotFits(snapshot, base, initial, hist) && base < upto <= |hist|
    ensures LogFits(upto, log[upto - base - 1].term, log[upto - base..], hist)
    ensures ConfigOf(if snapshot.Some? then snapshot.value.voters else initial, log[..upto - base]) == ConfigOf(initial, hist[..upto])
  {
    var inner := log[..upto - base];
    assert hist[..upto] == hist[..base] + inner;
    if snapshot.None? { assert hist[..base] == []; }
    ConfigOfSplit(initial, hist[..base], inner);
  }

  lemma FoldState(base: nat, commit: nat, kv: KvState, applied: seq<Command>, hist: Log)
    requires StateFits(base, commit, kv, applied, hist)
    ensures StateFits(commit, commit, kv, Drop(applied, commit - base), hist)
  {
    assert hist[commit..commit] == [];
    CommandsAt(hist[base..commit]);
  }

  /** Folding the applied prefix into a snapshot changes neither the state nor the membership. */
  lemma CompactRecovers(r: Replica, hist: Log)
    requires Represents(r, hist)
    ensures Represents(MaybeCompact(r), hist)
    ensures MaybeCompact(r).commit == r.commit && MaybeCompact(r).voters == r.voters && MaybeCompact(r).kv == r.kv
  {
    hide ConfigOf, LatestConfig, Run, Commands, LogFits, StateFits;
    HistoryLength(r, hist);
    if r.threshold > 0 && r.lastApplied - r.base >= r.threshold {
      FoldPrefix(r.base, r.baseTerm, r.log, r.snapshot, r.initialVoters, hist, r.commit);
      FoldState(r.base, r.commit, r.kv, r.applied, hist);
    }
  }

  // ---- appending ----

  lemma {:induction false} AgreementShift(hist: Log, base: nat, k: nat, es: Log)
    requires base <= k <= |hist|
    ensures Agreement(hist[base..], k - base, es) == Agreement(hist, k, es)
    decreases |es|
  {
    if es != [] && k < |hist| && hist[k].term == es[0].term {
      assert hist[base..][k - base] == hist[k];
      AgreementShift(hist, base, k + 1, es[1..]);
    } else if k < |hist| {
      assert hist[base..][k - base] == hist[k];
    }
  }

  lemma MergeShift(hist: Log, base: nat, k: nat, es: Log)
    requires base <= k <= |hist|
    ensures Merge(hist[base..], k - base, es) == Merge(hist, k, es)[base..]
  {
    hide Agreement;
    AgreementShift(hist, base, k, es);
    CutShift(hist, base, k + Agreement(hist, k, es), es[Agreement(hist, k, es)..]);
  }

  lemma CutShift(hist: Log, base: nat, k: nat, es: Log)
    requires base <= k
    ensures k <= |hist| ==> (hist[..k] + es)[base..] == hist[base..][..k - base] + es
  {}

  /** The append loop does not reach below the commit index. Raft's Leader Completeness makes this
      true of every delivered message (AcceptHolds in ProtocolMoves). */
  predicate SparesCommitted(commit: nat, hist: Log, prev: nat, es: Log) {
    prev <= |hist| && (Agreement(hist, prev, es) == |es| || prev + Agreement(hist, prev, es) >= commit)
  }

  lemma MergeSpares(hist: Log, prev: nat, es: Log, commit: nat)
    requires commit <= |hist| && SparesCommitted(commit, hist, prev, es)
    ensures commit <= |Merge(hist, prev, es)| && Merge(hist, prev, es)[..commit] == hist[..commit]
    ensures prev + |es| <= |Merge(hist, prev, es)|
  {}

  lemma SamePrefixFits(r: Replica, hist: Log, hist': Log)
    requires Represents(r, hist) && r.commit <= |hist'| && hist'[..r.commit] == hist[..r.commit]
    ensures LogFits(r.base, r.baseTerm, hist'[r.base..], hist')
    ensures SnapshotFits(r.snapshot, r.base, r.initialVoters, hist')
    ensures StateFits(r.base, r.commit, r.kv, r.applied, hist')
    ensures hist'[..r.base] == hist[..r.base]
  {
    assert hist'[..r.base] == hist'[..r.commit][..r.base] == hist[..r.commit][..r.base] == hist[..r.base];
    assert hist'[r.base..r.commit] == hist'[..r.commit][r.base..] == hist[..r.commit][r.base..] == hist[r.base..r.commit];
  }

  lemma ConfigAfterCut(r: Replica, hist: Log, hist': Log)
    requires LogFits(r.base, r.baseTerm, r.log, hist) && SnapshotFits(r.snapshot, r.base, r.initialVoters, hist)
    requires ConfigFits(r.voters, r.configIndex, r.base, r.initialVoters, hist)
    requires r.base <= |hist'| && hist'[..r.base] == hist[..r.base]
    ensures var a := AdoptFromLog(r, hist'[r.base..]);
            ConfigFits(a.voters, a.configIndex, r.base, r.initialVoters, hist')
  {
    hide Run, Apply;
    var low, tail := hist[..r.base], hist'[r.base..];
    SplitConfig(r.initialVoters, hist, r.base);
    SplitConfig(r.initialVoters, hist', r.base);
    assert BaseVoters(r) == ConfigOf(r.initialVoters, low) by { if r.snapshot.None? { assert low == []; } }
    hide ConfigOf, LatestConfig;
  }

  /** The configuration of a history, from its parts below and above position k. */
  lemma SplitConfig(initial: set<NodeId>, hist: Log, k: nat)
    requires k <= |hist|
    ensures var low, tail := ConfigOf(initial, hist[..k]), hist[k..];
            && ConfigOf(initial, hist) == (if LatestConfig(tail) > 0 then tail[LatestConfig(tail) - 1].command.voters else low)
            && LatestConfig(hist) == (if LatestConfig(tail) > 0 then k + LatestConfig(tail) else LatestConfig(hist[..k]))
  {
    assert hist == hist[..k] + hist[k..];
    ConfigOfSplit(initial, hist[..k], hist[k..]);
    LatestConfigSplit(hist[..k], hist[k..]);
    ConfigOfLatest(ConfigOf(initial, hist[..k]), hist[k..]);
  }

  lemma RepresentsTracked(r: Replica, hist: Log)
    requires Represents(r, hist)
    ensures ConfigTracked(r) && BaseConfigIndex(r) == r.base
  {
    hide Run, Commands;
    SplitConfig(r.initialVoters, hist, r.base);
    if r.snapshot.None? { assert hist[..r.base] == []; }
    ConfigOfLatest(BaseVoters(r), r.log);
  }

  lemma AppendRecovers(r: Replica, hist: Log, prev: nat, es: Log)
    requires Represents(r, hist) && r.base <= prev <= LastIndex(r) && SparesCommitted(r.commit, hist, prev, es)
    ensures Represents(AppendLoop(r, prev, es), Merge(hist, prev, es))
    ensures prev + |es| <= |Merge(hist, prev, es)|
  {
    hide Represents, Merge, Agreement, LatestConfig, AdoptFromLog, ConfigTracked, AppendLoop;
    RepresentsTracked(r, hist);
    LoopIsMerged(r, prev, es);
    MergedRecovers(r, hist, prev, es);
    ImageRepresents(AppendLoop(r, prev, es), AdoptFromLog(r, Merge(r.log, prev - r.base, es)), Merge(hist, prev, es));
  }

  lemma MergedRecovers(r: Replica, hist: Log, prev: nat, es: Log)
    requires Represents(r, hist) && r.base <= prev <= LastIndex(r) && SparesCommitted(r.commit, hist, prev, es)
    ensures prev + |es| <= |Merge(hist, prev, es)|
    ensures Represents(AdoptFromLog(r, Merge(r.log, prev - r.base, es)), Merge(hist, prev, es))
  {
    HistoryLength(r, hist);
    AppendedLog(r, hist, prev, es);
    MergeSpares(hist, prev, es, r.commit);
    hide Represents, Merge, Agreement, LatestConfig;
    CutRecovers(r, hist, Merge(hist, prev, es));
  }

  lemma LiveTail(r: Replica, hist: Log)
    requires Represents(r, hist)
    ensures r.base <= |hist| && r.log == hist[r.base..]
  {}

  lemma AppendedLog(r: Replica, hist: Log, prev: nat, es: Log)
    requires Represents(r, hist) && r.base <= prev <= LastIndex(r)
    ensures Merge(r.log, prev - r.base, es) == Merge(hist, prev, es)[r.base..]
  {
    hide Represents, Merge, Agreement;
    HistoryLength(r, hist);
    LiveTail(r, hist);
    MergeShift(hist, r.base, prev, es);
  }

  lemma CutRecovers(r: Replica, hist: Log, hist': Log)
    requires Represents(r, hist) && r.commit <= |hist'| && hist'[..r.commit] == hist[..r.commit]
    ensures Represents(AdoptFromLog(r, hist'[r.base..]), hist')
  {
    SamePrefixFits(r, hist, hist');
    ConfigAfterCut(r, hist, hist');
  }

  lemma AppendOwnRecovers(r: Replica, hist: Log, e: Entry)
    requires Represents(r, hist)
    ensures Represents(AppendOwn(r, e), hist + [e])
  {
    var hist' := hist + [e];
    ConfigOfSnoc(r.initialVoters, hist, e);
    LatestConfigSplit(hist, [e]);
    assert [e][..0] == [];
    assert hist'[..r.commit] == hist[..r.commit];
    SamePrefixFits(r, hist, hist');
    assert hist'[r.base..] == hist[r.base..] + [e];
  }

  /** Accepting an AppendEntries: the history becomes the merge, then more of it is applied. */
  lemma AbsorbRecovers(r: Replica, hist: Log, m: Message)
    requires Represents(r, hist) && m.AppendEntries? && r.base <= m.prevIndex <= LastIndex(r)
    requires SparesCommitted(r.commit, hist, m.prevIndex, m.entries)
    ensures Represents(Absorb(r, m), Merge(hist, m.prevIndex, m.entries))
  {
    hide Represents, AppendLoop, FollowCommit, Merge;
    AppendRecovers(r, hist, m.prevIndex, m.entries);
    FollowRecovers(AppendLoop(r, m.prevIndex, m.entries), Merge(hist, m.prevIndex, m.entries), m.leaderCommit,
                   m.prevIndex + |m.entries|);
  }

  lemma FollowRecovers(r: Replica, hist: Log, announced: nat, matched: nat)
    requires Represents(r, hist) && matched <= |hist|
    ensures Represents(FollowCommit(r, announced, matched), hist)
    ensures FollowCommit(r, announced, matched).commit == Largest(r.commit, Least(announced, matched))
  {
    CommitRecovers(r, hist, Largest(r.commit, Least(announced, matched)));
  }

  // ---- snapshots from the leader ----

  function HistoryAfterInstall(r: Replica, hist: Log, s: Snapshot, image: Log): Log {
    image + (if KeepsTail(r, s) then Drop(hist, s.lastIndex) else [])
  }

  /** Installing the image of a history `image`: the state is the image's, and entries beyond it
      survive only if the log agreed with the image's last term. */
  lemma InstallRecovers(r: Replica, hist: Log, s: Snapshot, image: Log)
    requires Represents(r, hist) && s.lastIndex > r.base && SnapshotOf(s, r.initialVoters, image)
    ensures Represents(Install(r, s), HistoryAfterInstall(r, hist, s, image))
    ensures Install(r, s).kv == StateAfter(image) && Install(r, s).commit == |image|
  {
    var hist' := HistoryAfterInstall(r, hist, s, image);
    var r1 := r.(
      log := if KeepsTail(r, s) then r.log[s.lastIndex - r.base..] else [],
      kv := s.kv, snapshot := Some(s), base := s.lastIndex, baseTerm := s.lastTerm,
      commit := s.lastIndex, lastApplied := s.lastIndex, applied := [], version := r.version + 1);
    assert hist'[..s.lastIndex] == image;
    assert r1.log == hist'[s.lastIndex..];
    assert hist'[s.lastIndex..s.lastIndex] == [];
    RebuildFits(r1, hist');
  }

  // ---- whole handlers ----

  /** The history a handler leaves behind. */
  function HistoryAfter(n: NodeState, hist: Log, m: Message, image: Log): Log {
    if !n.alive || m.term < n.term then hist
    else if m.AppendEntries? && !LogInconsistent(Recognise(n, m.term, m.leader), m) && m.prevIndex <= |hist| then
      Merge(hist, m.prevIndex, m.entries)
    else if m.InstallSnapshot? && m.lastIndex > n.replica.base then HistoryAfterInstall(n.replica, hist, ImageOf(m), image)
    else hist
  }

  /** What the sender of a message must have ensured: entries that spare what is committed here,
      or the image of a real history. */
  predicate Trustworthy(n: NodeState, hist: Log, m: Message, image: Log) {
    && (m.AppendEntries? && m.term >= n.term && !LogInconsistent(Recognise(n, m.term, m.leader), m) ==>
          SparesCommitted(n.replica.commit, hist, m.prevIndex, m.entries))
    && (m.InstallSnapshot? ==> SnapshotOf(ImageOf(m), n.replica.initialVoters, image))
  }

  /** Every message handler keeps the correspondence, compaction included. */
  lemma HandleRecovers(n: NodeState, hist: Log, m: Message, image: Log)
    requires Represents(n.replica, hist) && AboveBase(n, m) && Trustworthy(n, hist, m, image)
    ensures Represents(Handle(n, m).replica, HistoryAfter(n, hist, m, image))
  {
    hide Represents, SparesCommitted, SnapshotOf, Absorb, Install, AdvanceCommit, MaybeWin, Merge;
    match m
    case AppendEntries(_, _, _, _, _, _) => OnAppendRecovers(n, hist, m);
    case InstallSnapshot(_, _, _, _, _, _, _) =>
      if m.term >= n.term && m.lastIndex > n.replica.base { InstallRecovers(n.replica, hist, ImageOf(m), image); }
    case AppendReply(_, _, _, _) => OnReplyRecovers(n, hist, m);
    case _ =>
      OthersRecover(n, m);
      ImageRepresents(Handle(n, m).replica, n.replica, hist);
  }

  lemma OnAppendRecovers(n: NodeState, hist: Log, m: Message)
    requires Represents(n.replica, hist) && m.AppendEntries? && m.prevIndex >= n.replica.base
    requires m.term >= n.term && !LogInconsistent(Recognise(n, m.term, m.leader), m) ==> SparesCommitted(n.replica.commit, hist, m.prevIndex, m.entries)
    ensures Represents(OnAppendEntries(n, m).replica, HistoryAfter(n.(alive := true), hist, m, []))
  {
    HistoryLength(n.replica, hist);
    hide Represents, SparesCommitted, Absorb, Merge;
    if m.term >= n.term && !LogInconsistent(Recognise(n, m.term, m.leader), m) { AbsorbRecovers(n.replica, hist, m); }
  }

  lemma OnReplyRecovers(n: NodeState, hist: Log, m: Message)
    requires Represents(n.replica, hist) && m.AppendReply?
    ensures Represents(OnAppendReply(n, m).replica, hist)
  {
    HistoryLength(n.replica, hist);
    hide Represents, SetCommit, CommitPoint;
    var n1 := NoteMatch(n, m.follower, m.matchIndex);
    CommitPointBounds(n1, Last(n1));
    CommitRecovers(n.replica, hist, CommitPoint(n1, Last(n1)));
  }

  lemma OthersRecover(n: NodeState, m: Message)
    requires m.RequestVote? || m.VoteReply? || m.ReadHeartbeat? || m.ReadAck?
    ensures SameImage(Handle(n, m).replica, n.replica)
  {}

  lemma {:induction false} CommitPointBounds(n: NodeState, k: nat)
    ensures n.replica.commit <= CommitPoint(n, k)
    ensures CommitPoint(n, k) > n.replica.commit ==> CommitPoint(n, k) <= k
  {
    if k > n.replica.commit && TermAt(n.replica, k) == n.term && !QuorumHolds(n, k) { CommitPointBounds(n, k - 1); }
  }

  /** Client commands, configuration changes, crashes, timers and reads. */
  lemma LocalStepsRecover(n: NodeState, hist: Log, cmd: Command, read: Command, voters: set<NodeId>)
    requires Represents(n.replica, hist) && !cmd.Config?
    ensures Represents(Pause(n).replica, hist) && Represents(Resume(n).replica, hist)
    ensures Represents(ElectionTimeout(n).replica, hist) && Represents(HeartbeatTick(n).replica, hist)
    ensures Represents(RequestRead(n, read).0.replica, hist)
    ensures Represents(ClientCommand(n, cmd).0.replica,
                       if n.role.Leader? && n.alive && !AlreadyAppended(n, cmd) then hist + [Entry(n.term, cmd)] else hist)
    ensures Represents(ChangeConfig(n, voters).0.replica,
                       if MayChangeConfig(n, voters) then hist + [Entry(n.term, Config(voters))] else hist)
  {
    hide Represents;
    RestartRecovers(n.replica, hist);
    ImageRepresents(RequestRead(n, read).0.replica, n.replica, hist);
    AppendOwnRecovers(n.replica, hist, Entry(n.term, cmd));
    AppendOwnRecovers(n.replica, hist, Entry(n.term, Config(voters)));
  }
}
