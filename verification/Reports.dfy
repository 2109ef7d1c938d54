/** What the apply callback is told. With compaction on or off, every report a handler makes is the
    one an uninterrupted execution of the replica's full history makes at that index. */
module Reports {
  import opened Types
  import opened Logs
  import opened Kv
  import opened Replicas
  import opened NodeSpec
  import opened AppendSteps
  import opened Recovery

  /** The report is what executing `hist` from the empty store gives at its index. */
  predicate Fits(hist: Log, rep: Report) {
    match rep
    case Applied(k, cmd, result) =>
      1 <= k <= |hist| && hist[k - 1].command == cmd && result == Apply(StateAfter(hist[..k - 1]), cmd).1
    case ReadServed(_, k, cmd, result) =>
      k <= |hist| && result == ApplyRead(StateAfter(hist[..k]), cmd)
  }

  /** Reports are only added, and the added ones fit the history. */
  predicate Adds(old': seq<Report>, new': seq<Report>, hist: Log) {
    && old' <= new'
    && forall x {:trigger new'[x]} | |old'| <= x < |new'| :: Fits(hist, new'[x])
  }

  lemma FitsLonger(hist: Log, longer: Log, rep: Report)
    requires Fits(hist, rep) && hist <= longer
    ensures Fits(longer, rep)
  {
    match rep
    case Applied(k, _, _) => assert longer[..k - 1] == hist[..k - 1];
    case ReadServed(_, k, _, _) => assert longer[..k] == hist[..k];
  }

  lemma {:induction false} ApplyReportsFit(kv: KvState, before: Log, es: Log)
    requires kv == StateAfter(before)
    ensures forall x | 0 <= x < |ApplyReports(kv, |before|, es)| :: Fits(before + es, ApplyReports(kv, |before|, es)[x])
  {
    if es != [] {
      var front := es[..|es| - 1];
      var hist := before + es;
      ApplyReportsFit(kv, before, front);
      assert before + front <= hist;
      forall x | 0 <= x < |ApplyReports(kv, |before|, front)| ensures Fits(hist, ApplyReports(kv, |before|, front)[x]) {
        FitsLonger(before + front, hist, ApplyReports(kv, |before|, front)[x]);
      }
      assert hist[..|hist| - 1] == before + front;
      RunConcat(EMPTY_KV, before, front);
    }
  }

  lemma CommitReports(r: Replica, hist: Log, index: nat)
    requires Represents(r, hist) && index <= |hist|
    ensures Adds(r.reports, SetCommit(r, index).reports, hist[..Largest(r.commit, index)])
  {
    hide ConfigFits, SnapshotFits, ConfigOf, LatestConfig, Run, Fits;
    HistoryLength(r, hist);
    if index > r.commit {
      var es := NewlyCommitted(r, index);
      assert es == hist[r.commit..index];
      assert hist[..r.commit] + es == hist[..index];
      ApplyReportsFit(r.kv, hist[..r.commit], es);
      assert SetCommit(r, index).reports == r.reports + ApplyReports(r.kv, r.commit, es);
    }
  }

  lemma AddsNothing(reports: seq<Report>, hist: Log)
    ensures Adds(reports, reports, hist)
  {}

  lemma ReadReports(n: NodeState, hist: Log, id: nat)
    requires Represents(n.replica, hist)
    ensures Adds(n.replica.reports, TryServeRead(n, id).replica.reports, hist[..n.replica.commit])
    ensures TryServeRead(n, id).replica.commit == n.replica.commit
  {
    hide ConfigFits, SnapshotFits, ConfigOf, LatestConfig, Run, ReadConfirmed;
    HistoryLength(n.replica, hist);
    assert hist[..n.replica.commit][..n.replica.commit] == hist[..n.replica.commit];
  }

  /** The entries a replica with history `hist` knows to be committed. */
  function Settled(r: Replica, hist: Log): Log {
    if r.commit <= |hist| then hist[..r.commit] else hist
  }

  lemma AbsorbReports(r: Replica, hist: Log, m: Message)
    requires Represents(r, hist) && m.AppendEntries? && r.base <= m.prevIndex <= LastIndex(r)
    requires SparesCommitted(r.commit, hist, m.prevIndex, m.entries)
    ensures Adds(r.reports, Absorb(r, m).reports, Settled(Absorb(r, m), Merge(hist, m.prevIndex, m.entries)))
  {
    hide Represents, Merge, Fits, Adds, Agreement, LatestConfig, SetCommit, SparesCommitted;
    HistoryLength(r, hist);
    var hist' := Merge(hist, m.prevIndex, m.entries);
    var reach := m.prevIndex + |m.entries|;
    AppendRecovers(r, hist, m.prevIndex, m.entries);
    var r1 := AppendLoop(r, m.prevIndex, m.entries);
    AppendKeepsReports(r, m.prevIndex, m.entries);
    var index := Largest(r1.commit, Least(m.leaderCommit, reach));
    HistoryLength(r1, hist');
    if m.leaderCommit > r1.commit {
      CommitReports(r1, hist', index);
      CommitRecovers(r1, hist', index);
    } else {
      AddsNothing(r.reports, hist'[..r1.commit]);
    }
  }

  lemma AppendKeepsReports(r: Replica, prev: nat, es: Log)
    ensures AppendLoop(r, prev, es).reports == r.reports && AppendLoop(r, prev, es).commit == r.commit
  {
    hide AppendLoop;
    LoopFrame(r, prev, es);
  }

  /** Handling a message: each new report fits the history the handler leaves behind. */
  lemma HandleReports(n: NodeState, hist: Log, m: Message, image: Log)
    requires Represents(n.replica, hist) && AboveBase(n, m) && Trustworthy(n, hist, m, image)
    ensures Adds(n.replica.reports, Handle(n, m).replica.reports, Settled(Handle(n, m).replica, HistoryAfter(n, hist, m, image)))
  {
    hide Represents, SparesCommitted, SnapshotOf, Absorb, Install, AdvanceCommit, MaybeWin, Merge, Fits, Adds, TryServeRead,
         NoteMatch, BackOff, Settled;
    match m
    case AppendEntries(_, _, _, _, _, _) => OnAppendReports(n, hist, m);
    case InstallSnapshot(_, _, _, _, _, _, _) => InstallReports(n, m, Settled(Handle(n, m).replica, HistoryAfter(n, hist, m, image)));
    case AppendReply(_, _, _, _) => OnReplyReports(n, hist, m);
    case ReadAck(_, _, _) => OnAckReports(n, hist, m);
    case _ => VotesReportNothing(n, m, Settled(Handle(n, m).replica, HistoryAfter(n, hist, m, image)));
  }

  lemma OnAppendReports(n: NodeState, hist: Log, m: Message)
    requires Represents(n.replica, hist) && m.AppendEntries? && m.prevIndex >= n.replica.base
    requires m.term >= n.term && !LogInconsistent(Recognise(n, m.term, m.leader), m) ==>
               SparesCommitted(n.replica.commit, hist, m.prevIndex, m.entries)
    ensures Adds(n.replica.reports, OnAppendEntries(n, m).replica.reports,
                 Settled(OnAppendEntries(n, m).replica, HistoryAfter(n.(alive := true), hist, m, [])))
    ensures Adds(n.replica.reports, n.replica.reports, Settled(n.replica, hist))
  {
    HistoryLength(n.replica, hist);
    hide Represents, SparesCommitted, Absorb, Merge, Adds, Settled;
    AddsNothing(n.replica.reports, Settled(n.replica, hist));
    if m.term >= n.term && !LogInconsistent(Recognise(n, m.term, m.leader), m) { AbsorbReports(n.replica, hist, m); }
  }

  lemma InstallReports(n: NodeState, m: Message, hist: Log)
    requires m.InstallSnapshot?
    ensures Adds(n.replica.reports, OnInstallSnapshot(n, m).replica.reports, hist) && Adds(n.replica.reports, n.replica.reports, hist)
  {
    hide ConfigOf, LatestConfig, Fits;
  }

  lemma OnReplyReports(n: NodeState, hist: Log, m: Message)
    requires Represents(n.replica, hist) && m.AppendReply?
    ensures Adds(n.replica.reports, OnAppendReply(n, m).replica.reports, Settled(OnAppendReply(n, m).replica, hist))
    ensures Adds(n.replica.reports, n.replica.reports, Settled(n.replica, hist))
  {
    HistoryLength(n.replica, hist);
    hide Represents, SetCommit, CommitPoint, Adds;
    AddsNothing(n.replica.reports, Settled(n.replica, hist));
    var n1 := NoteMatch(n, m.follower, m.matchIndex);
    var k := CommitPoint(n1, Last(n1));
    CommitPointBounds(n1, Last(n1));
    CommitReports(n.replica, hist, k);
    CommitRecovers(n.replica, hist, k);
  }

  lemma OnAckReports(n: NodeState, hist: Log, m: Message)
    requires Represents(n.replica, hist) && m.ReadAck?
    ensures Adds(n.replica.reports, OnReadAck(n, m).replica.reports, Settled(OnReadAck(n, m).replica, hist))
    ensures Adds(n.replica.reports, n.replica.reports, Settled(n.replica, hist))
  {
    HistoryLength(n.replica, hist);
    hide Represents, TryServeRead, Adds;
    AddsNothing(n.replica.reports, Settled(n.replica, hist));
    if m.readId in n.readTable.pending {
      var n1 := NoteAck(n, m.readId, m.follower);
      ReadReports(n1, hist, m.readId);
    }
  }

  lemma VotesReportNothing(n: NodeState, m: Message, hist: Log)
    requires m.RequestVote? || m.VoteReply? || m.ReadHeartbeat?
    ensures Adds(n.replica.reports, Handle(n, m).replica.reports, hist)
  {
    hide Fits;
  }

  /** Reads served at once; the other local steps report nothing. */
  lemma RequestReports(n: NodeState, hist: Log, cmd: Command)
    requires Represents(n.replica, hist)
    ensures Adds(n.replica.reports, RequestRead(n, cmd).0.replica.reports, Settled(n.replica, hist))
    ensures RequestRead(n, cmd).0.replica.commit == n.replica.commit
  {
    HistoryLength(n.replica, hist);
    hide Represents, TryServeRead, Adds;
    AddsNothing(n.replica.reports, Settled(n.replica, hist));
    if n.role.Leader? && n.alive && n.committedThisTerm {
      var id := n.readTable.nextId;
      var n1 := n.(readTable := ReadTable(n.readTable.pending[id := PendingRead(cmd, n.replica.commit, {n.id})], id + 1),
                   sent := n.sent + HeartbeatPackets(n, id, OtherVoters(n)));
      ReadReports(n1, hist, id);
    }
  }
}
