/** Where a server with compaction does not keep what the rest of it keeps, and exactly when it does
    (raftverified/node.py, `_on_install_snapshot`). Without compaction none of this occurs: no snapshot is ever
    sent (ClusterSafety.AlwaysAboveBase). */
module SnapshotLimits {
  import opened Types
  import opened Logs
  import opened Replicas
  import opened NodeSpec
  import opened Recovery
  import opened AppendSteps

  // ---- an installed snapshot and the commit index ----

  /** A snapshot never lowers the commit index exactly when it is outdated, already covered, or reaches at
      least as far as what is committed here. */
  lemma InstallKeepsCommit(n: NodeState, m: Message)
    requires m.InstallSnapshot?
    ensures n.replica.commit <= OnInstallSnapshot(n, m).replica.commit
            <==> m.term < n.term || m.lastIndex <= n.replica.base || n.replica.commit <= m.lastIndex
  {
    hide ConfigOf, LatestConfig, TermAt;
  }

  // Two servers of a cluster with threshold 3 that hold the same five entries.

  /** A server that holds five entries and has not learnt of any commit yet. */
  ghost predicate Holder(r: Replica, hist: Log) {
    Represents(r, hist) && |hist| == 5 && r.threshold == 3 && r.base == 0 && r.commit == 0
  }

  const FIVE: Log := [Entry(1, Opaque("a")), Entry(2, Opaque("b")), Entry(2, Opaque("c")), Entry(2, Opaque("d")), Entry(2, Opaque("e"))]

  /** A new server that accepts the five entries is one. */
  lemma NewHolder()
    ensures Holder(AppendLoop(Blank({0, 1}, 3), 0, FIVE), FIVE) && AppendLoop(Blank({0, 1}, 3), 0, FIVE).initialVoters == {0, 1}
  {
    hide Represents, SparesCommitted, Merge, AppendLoop;
    Blanks(3, FIVE);
    LoopFrame(Blank({0, 1}, 3), 0, FIVE);
    AppendRecovers(Blank({0, 1}, 3), [], 0, FIVE);
  }

  lemma Blanks(threshold: int, es: Log)
    ensures Represents(Blank({0, 1}, threshold), []) && SparesCommitted(0, [], 0, es) && Merge([], 0, es) == es
  {
    var nothing: Log := [];
    assert nothing[..0] == nothing && nothing[0..0] == nothing;
  }

  /** One learns of three commits, compacts, and then learns of the other two. */
  function CaughtUp(holder: Replica): Replica { SetCommit(SetCommit(holder, 3), 5) }

  /** The other learns of four commits at once and compacts there. */
  function Ahead(holder: Replica): Replica { SetCommit(holder, 4) }

  function Sending(s: Snapshot, term: nat, leader: NodeId): Message {
    InstallSnapshot(term, leader, s.lastIndex, s.lastTerm, s.kv.store, s.kv.sessions, s.voters)
  }

  function ServerWith(r: Replica): NodeState {
    Initial(1, {0}, r.initialVoters, r.threshold).(term := 2, replica := r)
  }

  /** Where committing up to an index leaves the compaction point. */
  lemma CommitCompacts(r: Replica, hist: Log, index: nat)
    requires Represents(r, hist) && r.commit < index <= |hist|
    ensures var r' := SetCommit(r, index);
            && Represents(r', hist) && r'.commit == index && r'.threshold == r.threshold && r'.initialVoters == r.initialVoters
            && r'.base == if r.threshold > 0 && index - r.base >= r.threshold then index else r.base
  {
    CommitRecovers(r, hist, index);
    hide ConfigOf, LatestConfig, LogFits, SnapshotFits, StateFits, ConfigFits, ApplyReports, VotersUpTo;
  }

  lemma ReachedByCommits(holder: Replica, hist: Log)
    requires Holder(holder, hist)
    ensures var r := CaughtUp(holder); Represents(r, hist) && r.base == 3 && r.commit == 5 && r.initialVoters == holder.initialVoters
    ensures var r := Ahead(holder);
            && Represents(r, hist) && r.base == 4 && r.initialVoters == holder.initialVoters && r.snapshot.Some?
            && r.snapshot.value.lastIndex == 4 && SnapshotOf(r.snapshot.value, holder.initialVoters, hist[..4])
  {
    hide Represents, SetCommit, SnapshotOf;
    CommitCompacts(holder, hist, 3);
    CommitCompacts(SetCommit(holder, 3), hist, 5);
    CommitCompacts(holder, hist, 4);
    SnapshotAtBase(Ahead(holder), hist);
  }

  lemma SnapshotAtBase(r: Replica, hist: Log)
    requires Represents(r, hist) && r.base > 0
    ensures r.base <= |hist| && r.snapshot.Some? && SnapshotOf(r.snapshot.value, r.initialVoters, hist[..r.base])
    ensures r.snapshot.value.lastIndex == r.base
  {}

  /** A delayed snapshot of four entries takes a server that has committed five back by one: the server was in
      order before and is in order after, but the fifth commit is gone. */
  lemma InstallMayForgetCommits(holder: Replica, hist: Log)
    requires Holder(holder, hist)
    ensures Represents(CaughtUp(holder), hist) && CaughtUp(holder).commit == 5 && Ahead(holder).snapshot.Some?
    ensures var after := OnInstallSnapshot(ServerWith(CaughtUp(holder)), Sending(Ahead(holder).snapshot.value, 2, 0)).replica;
            after.commit == 4 && exists left :: Represents(after, left) && left[..4] == hist[..4]
  {
    hide CaughtUp, Ahead, Represents, SnapshotOf, KeepsTail, Install;
    ReachedByCommits(holder, hist);
    var r, s := CaughtUp(holder), Ahead(holder).snapshot.value;
    assert ImageOf(Sending(s, 2, 0)) == s;
    InstallRecovers(r, hist, s, hist[..4]);
    var left := HistoryAfterInstall(r, hist, s, hist[..4]);
    assert OnInstallSnapshot(ServerWith(r), Sending(s, 2, 0)).replica == Install(r, s);
    assert left[..4] == hist[..4];
  }

  // ---- the acknowledgement of a covered snapshot ----

  predicate AgreeUpTo(leader: Log, hist: Log, k: nat) {
    k <= |leader| && k <= |hist| && leader[..k] == hist[..k]
  }

  /** Agreement up to k says nothing about what lies beyond it. */
  lemma AgreementEnds(hist: Log, k: nat)
    requires k <= |hist|
    ensures (forall leader: Log | AgreeUpTo(leader, hist, k) :: hist <= leader) <==> k == |hist|
  {
    if k < |hist| {
      assert AgreeUpTo(hist[..k], hist, k) && !(hist <= hist[..k]);
    }
  }

  /** A snapshot that is already covered is acknowledged up to the end of the receiver's log. That is true of
      every leader that agrees with the receiver up to the snapshot exactly when the receiver holds nothing beyond
      the snapshot, and of every leader that has all the receiver has committed exactly when it holds nothing
      uncommitted. */
  lemma CoveredSnapshotAck(n: NodeState, hist: Log, m: Message)
    requires m.InstallSnapshot? && Represents(n.replica, hist) && m.term >= n.term && m.lastIndex <= n.replica.base
    ensures Packet(n.id, m.leader, AppendReply(m.term, n.id, true, |hist|)) in OnInstallSnapshot(n, m).sent
    ensures (forall leader: Log | AgreeUpTo(leader, hist, m.lastIndex) :: hist <= leader)
            <==> n.replica.base == m.lastIndex && n.replica.log == []
    ensures (forall leader: Log | AgreeUpTo(leader, hist, n.replica.commit) :: hist <= leader) <==> n.replica.commit == Last(n)
  {
    hide Represents, AgreeUpTo;
    HistoryLength(n.replica, hist);
    AgreementEnds(hist, m.lastIndex);
    AgreementEnds(hist, n.replica.commit);
  }

  /** A server that has committed and compacted three of its five entries acknowledges all five to a leader that
      has the three committed ones and a different fourth. */
  lemma CoveredSnapshotAckIsFalse(holder: Replica, hist: Log, leader: Log)
    requires Holder(holder, hist) && leader == hist[..3] + [Entry(3, Opaque("other"))] && hist[3].term < 3
    ensures var n, m := ServerWith(SetCommit(holder, 3)), InstallSnapshot(3, 0, 3, hist[2].term, map[], map[], {0, 1});
            && Represents(n.replica, hist) && n.replica.commit == 3
            && AgreeUpTo(leader, hist, 3) && !(hist <= leader)
            && Packet(1, 0, AppendReply(3, 1, true, 5)) in OnInstallSnapshot(n, m).sent
  {
    hide Represents, SetCommit;
    CommitCompacts(holder, hist, 3);
    CoveredSnapshotAck(ServerWith(SetCommit(holder, 3)), hist, InstallSnapshot(3, 0, 3, hist[2].term, map[], map[], {0, 1}));
  }
}
