/** What each handler promises, told by the server's full history instead of its compacted fields, and by the
    messages it puts on the network (raftverified/node.py). */
module HandlerLaws {
  import opened Types
  import opened Quorums
  import opened Logs
  import opened Kv
  import opened Replicas
  import opened NodeSpec
  import opened AppendSteps
  import opened Recovery

  // ---- terms ----

  /** A live server that has handled a message is in the newer of the two terms, and if that was the message's, it
      follows: it leads nothing, stands for nothing and has given up its unconfirmed reads. */
  lemma NewerTermWins(n: NodeState, m: Message)
    requires n.alive
    ensures var n' := Handle(n, m);
            && n'.term == Largest(n.term, m.term)
            && (m.term > n.term ==> n'.role.Follower? && n'.readTable.pending == map[])
  {
    hide Absorb, Install, SetCommit, CommitPoint, MaybeWin, LogInconsistent, ReadConfirmed, Outgoing, GrantsVote;
    if m.VoteReply? { WinKeepsTerm(n.(votes := n.votes + {m.voter})); }
  }

  lemma WinKeepsTerm(n: NodeState)
    ensures MaybeWin(n).term == n.term
  {
    hide ClientIndex, BroadcastPackets, Majority;
  }

  /** Whoever sends entries or a snapshot in a term that is not older is its leader. */
  lemma SenderIsLeader(n: NodeState, m: Message)
    requires n.alive && (m.AppendEntries? || m.InstallSnapshot? || m.ReadHeartbeat?) && m.term >= n.term
    ensures Handle(n, m).leaderId == Some(m.leader) && (!m.ReadHeartbeat? ==> Handle(n, m).role.Follower?)
  {
    hide Absorb, Install, LogInconsistent;
  }

  // ---- votes ----

  lemma LastTermOf(r: Replica, hist: Log)
    requires Represents(r, hist)
    ensures LastIndex(r) == |hist| && TermAt(r, LastIndex(r)) == LastTerm(hist)
  {
    if r.log == [] { assert hist[..r.base] == hist; } else { assert r.log[|r.log| - 1] == hist[|hist| - 1]; }
  }

  /** A live server votes for a candidate if and only if its term is not older, no vote of that term went to another,
      and its last entry is of a later term, or of the same and not before the server's own (section 5.4.1). */
  lemma VoteIsExact(n: NodeState, hist: Log, m: Message)
    requires n.alive && Represents(n.replica, hist) && m.RequestVote?
    ensures var n' := Handle(n, m);
            var free := m.term > n.term || n.votedFor == None || n.votedFor == Some(m.candidate);
            var upToDate := m.lastTerm > LastTerm(hist) || (m.lastTerm == LastTerm(hist) && m.lastIndex >= |hist|);
            var granted := m.term >= n.term && free && upToDate;
            && n'.sent == n.sent + {Packet(n.id, m.candidate, VoteReply(Largest(n.term, m.term), n.id, granted))}
            && n'.votedFor == (if granted then Some(m.candidate) else if m.term > n.term then None else n.votedFor)
            && n'.replica == n.replica
  {
    hide Represents;
    LastTermOf(n.replica, hist);
  }

  // ---- what a leader sends ----

  /** The one message that takes a peer from entry `prev` on: all entries after it, or, if they are compacted, the
      image of the compacted part. */
  ghost predicate Updates(n: NodeState, hist: Log, prev: nat, msg: Message) {
    if prev >= n.replica.base then
      prev <= |hist| && msg == AppendEntries(n.term, n.id, prev, LastTerm(hist[..prev]), hist[prev..], n.replica.commit)
    else
      && n.replica.base <= |hist| && msg.InstallSnapshot? && msg.term == n.term && msg.leader == n.id
      && SnapshotOf(ImageOf(msg), n.replica.initialVoters, hist[..n.replica.base])
  }

  ghost predicate IsUpdate(n: NodeState, hist: Log, p: NodeId, pk: Packet) {
    && p in n.progress.nextIndex && n.progress.nextIndex[p] >= 1
    && pk.src == n.id && pk.dst == p && Updates(n, hist, n.progress.nextIndex[p] - 1, pk.msg)
  }

  lemma TermOf(r: Replica, hist: Log, k: nat)
    requires Represents(r, hist) && r.base <= k <= |hist|
    ensures TermAt(r, k) == LastTerm(hist[..k])
  {
    if k > r.base { assert r.log[k - r.base - 1] == hist[k - 1]; }
  }

  lemma SendsUpdate(n: NodeState, hist: Log, p: NodeId)
    requires Represents(n.replica, hist) && CanSend(n, p) && n.progress.nextIndex[p] >= 1
    ensures exists pk :: IsUpdate(n, hist, p, pk) && Outgoing(n, p) == {pk}
  {
    hide Represents, Outgoing, Updates;
    HistoryLength(n.replica, hist);
    var prev := n.progress.nextIndex[p] - 1;
    if prev < n.replica.base { SendsImage(n, hist, p, prev); } else { SendsTail(n, hist, p, prev); }
  }

  lemma SendsImage(n: NodeState, hist: Log, p: NodeId, prev: nat)
    requires Represents(n.replica, hist) && CanSend(n, p) && prev + 1 == n.progress.nextIndex[p] && prev < n.replica.base
    ensures exists pk :: IsUpdate(n, hist, p, pk) && Outgoing(n, p) == {pk}
  {
    SnapshotThere(n.replica, hist);
    hide Represents, SnapshotOf;
    var s := n.replica.snapshot.value;
    var pk := Packet(n.id, p, InstallSnapshot(n.term, n.id, s.lastIndex, s.lastTerm, s.kv.store, s.kv.sessions, s.voters));
    assert ImageOf(pk.msg) == s;
    assert IsUpdate(n, hist, p, pk) && Outgoing(n, p) == {pk};
  }

  lemma SnapshotThere(r: Replica, hist: Log)
    requires Represents(r, hist) && r.base > 0
    ensures r.base <= |hist| && r.snapshot.Some? && SnapshotOf(r.snapshot.value, r.initialVoters, hist[..r.base])
  {}

  lemma SendsTail(n: NodeState, hist: Log, p: NodeId, prev: nat)
    requires Represents(n.replica, hist) && CanSend(n, p) && prev + 1 == n.progress.nextIndex[p] && prev >= n.replica.base
    ensures exists pk :: IsUpdate(n, hist, p, pk) && Outgoing(n, p) == {pk}
  {
    HistoryLength(n.replica, hist);
    TailMessage(n, hist, prev);
    OutgoingTail(n, p, prev);
    hide Represents, TailFor, Outgoing, LastTerm;
    var pk := Packet(n.id, p, TailFor(n, prev));
    assert IsUpdate(n, hist, p, pk) && Outgoing(n, p) == {pk};
  }

  lemma OutgoingTail(n: NodeState, p: NodeId, prev: nat)
    requires CanSend(n, p) && prev + 1 == n.progress.nextIndex[p] && n.replica.base <= prev <= Last(n)
    ensures Outgoing(n, p) == {Packet(n.id, p, TailFor(n, prev))}
  {
    hide TailFor;
  }

  lemma TailMessage(n: NodeState, hist: Log, prev: nat)
    requires Represents(n.replica, hist) && n.replica.base <= prev <= |hist|
    ensures prev <= Last(n)
    ensures TailFor(n, prev) == AppendEntries(n.term, n.id, prev, LastTerm(hist[..prev]), hist[prev..], n.replica.commit)
  {
    HistoryLength(n.replica, hist);
    LiveTail(n.replica, hist);
    TermOf(n.replica, hist, prev);
    TailOfTail(hist, n.replica.base, prev);
    hide Represents, TermAt, LastTerm;
  }

  lemma TailOfTail(hist: Log, a: nat, b: nat)
    requires a <= b <= |hist|
    ensures hist[a..][b - a..] == hist[b..]
  {}

  predicate CanUpdateAll(n: NodeState) {
    CanBroadcast(n) && forall p | p in OtherVoters(n) && p in n.progress.nextIndex :: n.progress.nextIndex[p] >= 1
  }

  /** A live leader's heartbeat sends every other voter its update, sends nothing else and changes nothing else;
      nobody else's does anything. */
  lemma HeartbeatIsExact(n: NodeState, hist: Log)
    requires Represents(n.replica, hist) && CanUpdateAll(n)
    ensures var n' := HeartbeatTick(n);
            && n' == n.(sent := n'.sent) && n.sent <= n'.sent
            && (!(n.alive && n.role.Leader?) ==> n'.sent == n.sent)
            && (n.alive && n.role.Leader? ==>
                  && (forall p | p in n.replica.voters && p != n.id :: exists pk :: pk in n'.sent && IsUpdate(n, hist, p, pk))
                  && (forall pk | pk in n'.sent && pk !in n.sent :: pk.dst in n.replica.voters && pk.dst != n.id && IsUpdate(n, hist, pk.dst, pk)))
  {
    hide Represents, IsUpdate, Outgoing;
    if n.alive && n.role.Leader? {
      BroadcastIsExact(n, hist);
      forall p | p in n.replica.voters && p != n.id ensures exists pk :: pk in Broadcast(n).sent && IsUpdate(n, hist, p, pk) {
        assert p in OtherVoters(n);
      }
    }
  }

  lemma BroadcastIsExact(n: NodeState, hist: Log)
    requires Represents(n.replica, hist) && CanUpdateAll(n)
    ensures forall p | p in OtherVoters(n) :: exists pk :: pk in Broadcast(n).sent && IsUpdate(n, hist, p, pk)
    ensures forall pk | pk in Broadcast(n).sent && pk !in n.sent :: pk.dst in OtherVoters(n) && IsUpdate(n, hist, pk.dst, pk)
  {
    hide Represents, Outgoing, Updates;
    forall p | p in OtherVoters(n) ensures exists pk :: pk in Broadcast(n).sent && IsUpdate(n, hist, p, pk) {
      SendsUpdate(n, hist, p);
      var pk :| IsUpdate(n, hist, p, pk) && Outgoing(n, p) == {pk};
      assert pk in BroadcastPackets(n, OtherVoters(n));
    }
    forall pk | pk in Broadcast(n).sent && pk !in n.sent ensures pk.dst in OtherVoters(n) && IsUpdate(n, hist, pk.dst, pk) {
      var p :| p in OtherVoters(n) && pk in Outgoing(n, p);
      SendsUpdate(n, hist, p);
    }
  }

  // ---- log repair, one reply at a time ----

  /** A refused update moves the peer's next index down by one, to no less than one, and sends what comes from
      there; nothing else changes. */
  lemma RefusalBacksOff(n: NodeState, hist: Log, m: Message)
    requires n.alive && n.role.Leader? && Represents(n.replica, hist)
    requires m.AppendReply? && m.term == n.term && !m.success
    requires m.follower in n.progress.nextIndex && 1 <= n.progress.nextIndex[m.follower] <= |hist| + 1
    ensures var n' := Handle(n, m);
            var next := n.progress.nextIndex[m.follower];
            && n' == n.(progress := n'.progress, sent := n'.sent)
            && n'.progress == Progress(n.progress.nextIndex[m.follower := if next > 1 then next - 1 else 1], n.progress.matchIndex)
            && exists pk :: IsUpdate(n', hist, m.follower, pk) && n'.sent == n.sent + {pk}
  {
    hide Represents, Outgoing, IsUpdate;
    HistoryLength(n.replica, hist);
    var n1 := BackOff(n, m.follower);
    SendsUpdate(n1, hist, m.follower);
    var pk :| IsUpdate(n1, hist, m.follower, pk) && Outgoing(n1, m.follower) == {pk};
    UpdateIgnoresSent(n1, Handle(n, m), hist, m.follower, pk);
  }

  lemma UpdateIgnoresSent(n: NodeState, n': NodeState, hist: Log, p: NodeId, pk: Packet)
    requires n' == n.(sent := n'.sent)
    ensures IsUpdate(n', hist, p, pk) <==> IsUpdate(n, hist, p, pk)
  {}

  /** A success never moves a peer's progress back: its known match is at least the one reported, the next index is
      beyond it, each is either the old or the reported one, and nobody else's progress changes. */
  lemma SuccessMovesForward(n: NodeState, m: Message)
    requires n.alive && n.role.Leader? && m.AppendReply? && m.term == n.term && m.success
    ensures var n', f := Handle(n, m), m.follower;
            var had, next := if f in n.progress.matchIndex then n.progress.matchIndex[f] else 0, if f in n.progress.nextIndex then n.progress.nextIndex[f] else 1;
            && f in n'.progress.matchIndex && f in n'.progress.nextIndex
            && n'.progress == Progress(n.progress.nextIndex[f := n'.progress.nextIndex[f]], n.progress.matchIndex[f := n'.progress.matchIndex[f]])
            && n'.progress.matchIndex[f] >= had && n'.progress.matchIndex[f] >= m.matchIndex && n'.progress.matchIndex[f] in {had, m.matchIndex}
            && n'.progress.nextIndex[f] >= next && n'.progress.nextIndex[f] > m.matchIndex && n'.progress.nextIndex[f] in {next, m.matchIndex + 1}
  {
    hide SetCommit, CommitPoint;
  }

  // ---- snapshots ----

  /** The entries of hist beyond the image survive exactly if hist reaches at least as far as the image and, as far
      as the receiver can tell, has the image's last entry; otherwise nothing but the image is left. */
  lemma InstallIsExact(r: Replica, hist: Log, s: Snapshot, image: Log)
    requires Represents(r, hist) && SnapshotOf(s, r.initialVoters, image) && |image| > r.base
    ensures var agrees := |hist| >= |image| && hist[|image| - 1].term == LastTerm(image);
            Represents(Install(r, s), if agrees then image + hist[|image|..] else image)
    ensures Install(r, s).commit == |image| && Install(r, s).kv == StateAfter(image)
  {
    hide Represents, Install, StateAfter;
    HistoryLength(r, hist);
    if |hist| >= |image| { TermOf(r, hist, |image|); }
    InstallRecovers(r, hist, s, image);
    assert |hist| < |image| ==> image + [] == image;
    if |hist| >= |image| && hist[|image| - 1].term != LastTerm(image) { assert image + [] == image; }
  }

  /** So a receiver whose history agrees with the image loses nothing it held beyond it. */
  lemma AgreeingTailSurvives(r: Replica, hist: Log, s: Snapshot, image: Log)
    requires Represents(r, hist) && SnapshotOf(s, r.initialVoters, image) && |image| > r.base && image <= hist
    ensures Represents(Install(r, s), hist)
  {
    hide Represents, Install, SnapshotOf;
    InstallIsExact(r, hist, s, image);
    assert image + hist[|image|..] == hist;
  }

  /** A peer behind a leader's compaction point is brought there by one message: it then represents the leader's
      compacted history, or that and whatever it held beyond it, with the same state machine. */
  lemma SnapshotCatchesUp(leader: NodeState, written: Log, f: NodeState, hist: Log)
    requires Represents(leader.replica, written) && Represents(f.replica, hist) && f.replica.initialVoters == leader.replica.initialVoters
    requires f.alive && f.term <= leader.term && f.replica.base < leader.replica.base && CanSend(leader, f.id)
    requires 1 <= leader.progress.nextIndex[f.id] <= leader.replica.base
    ensures leader.replica.base <= |written|
    ensures exists pk :: Outgoing(leader, f.id) == {pk} && CaughtUpBy(leader, written, f, hist, pk.msg)
  {
    hide Represents, Outgoing, Install, SnapshotOf;
    HistoryLength(leader.replica, written);
    SendsUpdate(leader, written, f.id);
    var pk :| IsUpdate(leader, written, f.id, pk) && Outgoing(leader, f.id) == {pk};
    var image := written[..leader.replica.base];
    ImageLength(ImageOf(pk.msg), leader.replica.initialVoters, image);
    InstallIsExact(f.replica, hist, ImageOf(pk.msg), image);
    assert CaughtUpBy(leader, written, f, hist, pk.msg);
  }

  lemma ImageLength(s: Snapshot, initial: set<NodeId>, image: Log)
    requires SnapshotOf(s, initial, image)
    ensures s.lastIndex == |image|
  {}

  ghost predicate CaughtUpBy(leader: NodeState, written: Log, f: NodeState, hist: Log, msg: Message)
    requires leader.replica.base <= |written| && 0 < leader.replica.base
  {
    var image, f' := written[..leader.replica.base], Handle(f, msg);
    var agrees := |hist| >= |image| && hist[|image| - 1].term == LastTerm(image);
    && Represents(f'.replica, if agrees then image + hist[|image|..] else image)
    && f'.replica.commit == |image| && f'.replica.kv == StateAfter(image)
    && Packet(f.id, leader.id, AppendReply(leader.term, f.id, true, |image|)) in f'.sent
  }

  // ---- reads ----

  /** A live leader that has committed an entry of its own term registers a read at its commit index, with its own
      acknowledgement, and asks every other voter; it is answered at once exactly if its own is a majority. Anyone
      else refuses it and changes nothing. */
  lemma ReadIsRegistered(n: NodeState, cmd: Command)
    ensures var (n', accepted) := RequestRead(n, cmd); var id := n.readTable.nextId;
            && (accepted <==> n.alive && n.role.Leader? && n.committedThisTerm)
            && (!accepted ==> n' == n)
            && (accepted ==>
                  && n'.readTable.nextId == id + 1
                  && (forall pk :: pk in n'.sent <==> pk in n.sent || (pk.dst in n.replica.voters && pk.dst != n.id && pk == Packet(n.id, pk.dst, ReadHeartbeat(n.term, n.id, id))))
                  && (|{n.id} * n.replica.voters| * 2 <= |n.replica.voters| ==>
                        n'.readTable.pending == n.readTable.pending[id := PendingRead(cmd, n.replica.commit, {n.id})] && n'.replica == n.replica))
  {
    hide ApplyRead;
  }

  // ---- configuration changes ----

  /** A change is taken exactly by a live leader that has committed an entry of its own term, whose last change is
      committed, if it adds one server or removes one other than the leader. */
  lemma ChangeIsExact(n: NodeState, hist: Log, voters: set<NodeId>)
    requires Represents(n.replica, hist)
    ensures ChangeConfig(n, voters).1 <==>
              && n.alive && n.role.Leader? && n.committedThisTerm && LatestConfig(hist) <= n.replica.commit
              && n.id in voters && exists v :: AddsOrRemoves(n.replica.voters, v, voters)
  {
    hide Broadcast, Extend, LatestConfig, ConfigOf, Run;
    OneApartMeans(voters, n.replica.voters);
  }

  predicate AddsOrRemoves(before: set<NodeId>, v: NodeId, after: set<NodeId>) {
    (v !in before && after == before + {v}) || (v in before && after == before - {v})
  }

  lemma OneApartMeans(a: set<NodeId>, b: set<NodeId>)
    ensures OneApart(a, b) <==> exists v :: AddsOrRemoves(b, v, a)
  {
    var d := (a - b) + (b - a);
    if OneApart(a, b) {
      var v :| v in d;
      assert |d - {v}| == 0;
      assert forall w | w in d :: w == v;
      assert AddsOrRemoves(b, v, a);
    }
    if v: NodeId :| AddsOrRemoves(b, v, a) {
      assert d == {v};
    }
  }

  // ---- what a follower answers ----

  /** A live server accepts entries exactly if they are of a term that is not older and build on nothing or on an entry
      it has with that term; it says so, with the index up to which it then agrees, and otherwise keeps what it has.
      The entries build on no compacted one. */
  lemma AppendIsAnswered(n: NodeState, hist: Log, m: Message)
    requires n.alive && Represents(n.replica, hist) && m.AppendEntries? && m.prevIndex >= n.replica.base
    ensures var n' := Handle(n, m);
            var builds := m.prevIndex == 0 || (m.prevIndex <= |hist| && hist[m.prevIndex - 1].term == m.prevTerm);
            var accepted := m.term >= n.term && builds;
            && n'.sent == n.sent + {Packet(n.id, m.leader, AppendReply(Largest(n.term, m.term), n.id, accepted, if accepted then m.prevIndex + |m.entries| else 0))}
            && (!accepted ==> n'.replica == n.replica)
            && (accepted && SparesCommitted(n.replica.commit, hist, m.prevIndex, m.entries) ==>
                  && Represents(n'.replica, Merge(hist, m.prevIndex, m.entries))
                  && n'.replica.commit == Largest(n.replica.commit, Least(m.leaderCommit, m.prevIndex + |m.entries|)))
  {
    hide Represents, Absorb, SparesCommitted, Merge;
    HistoryLength(n.replica, hist);
    if 0 < m.prevIndex <= |hist| { TermOf(n.replica, hist, m.prevIndex); }
    if m.prevIndex <= |hist| && SparesCommitted(n.replica.commit, hist, m.prevIndex, m.entries) {
      AbsorbRecovers(n.replica, hist, m);
      AbsorbCommits(n.replica, hist, m);
    }
  }

  lemma AbsorbCommits(r: Replica, hist: Log, m: Message)
    requires Represents(r, hist) && m.AppendEntries? && r.base <= m.prevIndex <= LastIndex(r)
    requires SparesCommitted(r.commit, hist, m.prevIndex, m.entries)
    ensures Absorb(r, m).commit == Largest(r.commit, Least(m.leaderCommit, m.prevIndex + |m.entries|))
  {
    hide Represents, AppendLoop, FollowCommit, Merge;
    AppendRecovers(r, hist, m.prevIndex, m.entries);
    LoopFrame(r, m.prevIndex, m.entries);
    FollowRecovers(AppendLoop(r, m.prevIndex, m.entries), Merge(hist, m.prevIndex, m.entries), m.leaderCommit, m.prevIndex + |m.entries|);
  }

  /** What a merge is: nothing changes if every entry is there already; from the first one that is not, or that is there
      with another term, what was there gives way to what was sent. */
  lemma MergeIsExact(log: Log, k: nat, es: Log, a: nat)
    requires k <= |log| && a <= |es| && k + a <= |log| && forall j | 0 <= j < a :: log[k + j].term == es[j].term
    requires a < |es| ==> k + a == |log| || log[k + a].term != es[a].term
    ensures Merge(log, k, es) == if a == |es| then log else log[..k + a] + es[a..]
  {
    AgreementIs(log, k, es, a);
  }

  lemma {:induction false} AgreementIs(log: Log, k: nat, es: Log, a: nat)
    requires k <= |log| && a <= |es| && k + a <= |log| && forall j | 0 <= j < a :: log[k + j].term == es[j].term
    requires a < |es| ==> k + a == |log| || log[k + a].term != es[a].term
    ensures Agreement(log, k, es) == a
    decreases a
  {
    if a > 0 {
      assert log[k + 0].term == es[0].term;
      forall j | 0 <= j < a - 1 ensures log[k + 1 + j].term == es[1..][j].term { assert log[k + (j + 1)].term == es[j + 1].term; }
      AgreementIs(log, k + 1, es[1..], a - 1);
    }
  }

  /** A live server refuses the snapshot of an older term, and acknowledges any other: with its last index if it has
      compacted that far itself, which changes nothing, and with the snapshot's otherwise. */
  lemma SnapshotIsAnswered(n: NodeState, hist: Log, m: Message)
    requires n.alive && Represents(n.replica, hist) && m.InstallSnapshot?
    ensures var n', covered := Handle(n, m), m.lastIndex <= n.replica.base;
            var index := if m.term < n.term then 0 else if covered then |hist| else m.lastIndex;
            && n'.sent == n.sent + {Packet(n.id, m.leader, AppendReply(Largest(n.term, m.term), n.id, m.term >= n.term, index))}
            && (m.term < n.term || covered ==> n'.replica == n.replica)
  {
    HistoryLength(n.replica, hist);
    hide Represents, Install;
  }

  /** A live server answers every round of confirmation with its own term, which is then no older, and changes neither
      its log nor, in that term, its vote. */
  lemma ReadHeartbeatIsAnswered(n: NodeState, m: Message)
    requires n.alive && m.ReadHeartbeat?
    ensures var n' := Handle(n, m);
            && n'.sent == n.sent + {Packet(n.id, m.leader, ReadAck(Largest(n.term, m.term), n.id, m.readId))}
            && n'.replica == n.replica && (m.term <= n.term ==> n'.votedFor == n.votedFor && n'.role == n.role)
  {}

  // ---- crashes and compaction ----

  /** A crashed server handles nothing, and restarted it is a live follower of the same term that has given the same
      vote, holds the same history and has forgotten what it knew as a candidate or leader. */
  lemma CrashKeepsPromises(n: NodeState, hist: Log, m: Message)
    requires Represents(n.replica, hist)
    ensures Handle(Pause(n), m) == Pause(n) && HeartbeatTick(Pause(n)) == Pause(n) && ElectionTimeout(Pause(n)) == Pause(n)
    ensures var n' := Resume(Pause(n));
            && n'.alive && n'.role.Follower? && n'.term == n.term && n'.votedFor == n.votedFor && n'.sent == n.sent
            && n'.leaderId == None && n'.readTable == ReadTable(map[], n.readTable.nextId) && n'.incarnation == n.incarnation + 1
            && n'.votes == {} && n'.progress == NO_PROGRESS && n'.requests == NO_REQUESTS && !n'.committedThisTerm
            && Represents(n'.replica, hist) && n'.replica.voters == n.replica.voters && n'.replica.commit == n.replica.base
  {
    hide Represents, Restart;
    RestartRecovers(n.replica, hist);
  }

  /** Committing further compacts everything committed, exactly if the threshold is positive and that many entries or
      more then are. */
  lemma CompactsWhenDue(r: Replica, hist: Log, index: nat)
    requires Represents(r, hist) && r.commit < index <= |hist|
    ensures var due := 0 < r.threshold <= index - r.base;
            && Represents(SetCommit(r, index), hist) && SetCommit(r, index).commit == index
            && SetCommit(r, index).base == if due then index else r.base
  {
    HistoryLength(r, hist);
    LastApplied(r, hist);
    hide Represents, Run, ApplyReports, Commands, VotersUpTo;
    CommitRecovers(r, hist, index);
  }

  lemma LastApplied(r: Replica, hist: Log)
    requires Represents(r, hist)
    ensures r.lastApplied == r.commit
  {}
}
