/** Each handler of a server without snapshots is a short sequence of protocol moves. */
module NodeRefinement {
  import opened Types
  import opened Quorums
  import opened Logs
  import opened Kv
  import opened Replicas
  import opened NodeSpec
  import opened AppendSteps
  import opened Recovery
  import opened Protocol
  import opened ProtocolSteps
  import opened ProtocolMoves

  function CoreOf(n: NodeState): Core {
    Core(n.term, n.votedFor, n.replica.log, n.role, n.replica.commit, n.progress.matchIndex, n.votes, n.committedThisTerm)
  }

  /** Server i of the protocol is in n's state, and what n sent is on the network. */
  ghost predicate Mirrors(s: State, i: NodeId, n: NodeState) {
    && i in s.nodes && s.nodes[i] == CoreOf(n) && n.id == i
    && n.sent <= s.net
  }

  /** Compaction is off, nothing was compacted, and the log is the whole history. */
  predicate Uncompacted(n: NodeState, initial: set<NodeId>) {
    && n.replica.threshold <= 0 && n.replica.base == 0 && n.replica.initialVoters == initial
    && Represents(n.replica, n.replica.log)
  }

  lemma UncompactedFacts(n: NodeState, initial: set<NodeId>)
    requires Uncompacted(n, initial)
    ensures n.replica.base == 0 && n.replica.threshold <= 0 && n.replica.snapshot.None? && n.replica.baseTerm == 0 && n.replica.voters == ConfigOf(initial, n.replica.log)
    ensures n.replica.configIndex == LatestConfig(n.replica.log)
    ensures n.replica.lastApplied == n.replica.commit <= |n.replica.log|
    ensures forall k | 0 < k <= |n.replica.log| :: TermAt(n.replica, k) == n.replica.log[k - 1].term
    ensures TermAt(n.replica, 0) == 0
  {}

  lemma LastTermIs(n: NodeState, initial: set<NodeId>, k: nat)
    requires Uncompacted(n, initial) && k <= |n.replica.log|
    ensures TermAt(n.replica, k) == LastTerm(n.replica.log[..k])
  {
    UncompactedFacts(n, initial);
  }

  /** The server only sent messages: its protocol state is as before. */
  lemma Sends(s: State, i: NodeId, n: NodeState, n': NodeState, added: set<Packet>)
    requires Mirrors(s, i, n) && Advances(s, Step(s, i, s.nodes[i], added, s.h), i)
    requires CoreOf(n') == CoreOf(n) && n'.id == n.id && n'.sent <= n.sent + added
    ensures Mirrors(Step(s, i, s.nodes[i], added, s.h), i, n')
  {}

  // ---- sending ----

  lemma BroadcastRefines(s: State, i: NodeId, n: NodeState) returns (s': State)
    requires Inv(s) && Mirrors(s, i, n) && Uncompacted(n, s.initial) && n.role.Leader?
    ensures Advances(s, s', i) && Mirrors(s', i, Broadcast(n))
  {
    var added := BroadcastPackets(n, OtherVoters(n));
    forall pk | pk in added ensures FromLeader(i, s.nodes[i], pk) {
      var p :| p in OtherVoters(n) && pk in Outgoing(n, p);
      OutgoingFromLeader(n, s.initial, p, pk);
    }
    hide Inv, Uncompacted, FromLeader, BroadcastPackets;
    SendKeepsInv(s, i, added);
    s' := Step(s, i, s.nodes[i], added, s.h);
    Sends(s, i, n, Broadcast(n), added);
  }

  lemma OutgoingFromLeader(n: NodeState, initial: set<NodeId>, p: NodeId, pk: Packet)
    requires Uncompacted(n, initial) && pk in Outgoing(n, p)
    ensures FromLeader(n.id, CoreOf(n), pk)
  {
    hide Uncompacted, LastTerm, TermAt, ConfigOf, LatestConfig;
    UncompactedFacts(n, initial);
    var prev := n.progress.nextIndex[p] - 1;
    if 0 <= prev <= Last(n) { LastTermIs(n, initial, prev); }
  }

  /** Replies and read traffic promise nothing. */
  lemma ChatterRefines(s: State, i: NodeId, n: NodeState, n': NodeState, added: set<Packet>) returns (s': State)
    requires Inv(s) && Mirrors(s, i, n)
    requires CoreOf(n') == CoreOf(n) && n'.id == n.id && n'.sent == n.sent + added
    requires forall pk | pk in added :: Harmless(pk)
    ensures Advances(s, s', i) && Mirrors(s', i, n')
  {
    hide Inv, Harmless;
    ChatterKeepsInv(s, i, added);
    s' := Step(s, i, s.nodes[i], added, s.h);
    Sends(s, i, n, n', added);
  }

  // ---- terms ----

  lemma BecomeFollowerRefines(s: State, i: NodeId, n: NodeState, t: nat) returns (s': State)
    requires Inv(s) && Mirrors(s, i, n) && t >= n.term
    ensures Advances(s, s', i) && Mirrors(s', i, BecomeFollower(n, t))
  {
    hide Inv;
    if t > n.term {
      BumpKeepsInv(s, i, t);
      s' := Step(s, i, Bumped(s.nodes[i], t), {}, s.h);
    } else {
      StepDownKeepsInv(s, i);
      s' := Step(s, i, s.nodes[i].(role := Follower), {}, s.h);
    }
  }

  lemma StepDownIfNewerRefines(s: State, i: NodeId, n: NodeState, t: nat) returns (s': State)
    requires Inv(s) && Mirrors(s, i, n)
    ensures Advances(s, s', i) && Mirrors(s', i, StepDownIfNewer(n, t))
  {
    if t > n.term { s' := BecomeFollowerRefines(s, i, n, t); } else { s' := s; AdvancesReflexive(s, i); }
  }

  lemma RecogniseRefines(s: State, i: NodeId, n: NodeState, t: nat, leader: NodeId) returns (s': State)
    requires Inv(s) && Mirrors(s, i, n) && t >= n.term
    ensures Advances(s, s', i) && Mirrors(s', i, Recognise(n, t, leader))
    ensures Recognise(n, t, leader).role.Follower? && Recognise(n, t, leader).term == t
    ensures Recognise(n, t, leader).replica == n.replica
  {
    if t > n.term || !n.role.Follower? {
      s' := BecomeFollowerRefines(s, i, n, t);
    } else {
      s' := s;
      AdvancesReflexive(s, i);
    }
  }

  lemma CrashRefines(s: State, i: NodeId, n: NodeState) returns (s': State)
    requires Inv(s) && Mirrors(s, i, n) && Uncompacted(n, s.initial)
    ensures Advances(s, s', i) && Mirrors(s', i, Pause(n))
  {
    UncompactedFacts(n, s.initial);
    hide Inv, Uncompacted;
    CrashKeepsInv(s, i);
    s' := Step(s, i, Crashed(s.nodes[i]), {}, s.h);
  }

  // ---- elections ----

  lemma MaybeWinRefines(s: State, i: NodeId, n: NodeState) returns (s': State)
    requires Inv(s) && Mirrors(s, i, n) && Uncompacted(n, s.initial)
    ensures Advances(s, s', i) && Mirrors(s', i, MaybeWin(n))
  {
    UncompactedFacts(n, s.initial);
    if n.role.Candidate? && Majority(n.votes, n.replica.voters) {
      var s1 := LeadRefines(s, i, n);
      s' := BroadcastRefines(s1, i, Lead(n));
      AdvancesTransitive(s, s1, s', i);
    } else {
      s' := s;
      AdvancesReflexive(s, i);
    }
  }

  lemma LeadRefines(s: State, i: NodeId, n: NodeState) returns (s': State)
    requires Inv(s) && Mirrors(s, i, n) && n.role.Candidate? && Majority(n.votes, ConfigOf(s.initial, n.replica.log))
    requires n.replica.base == 0
    ensures Advances(s, s', i) && Mirrors(s', i, Lead(n))
  {
    hide Inv, ConfigOf, Majority;
    WinKeepsInv(s, i, Lead(n).progress.matchIndex);
    s' := Step(s, i, Winning(s.nodes[i], Lead(n).progress.matchIndex), {}, WinHistory(i, s.nodes[i], s.h));
  }

  lemma CampaignRefines(s: State, i: NodeId, n: NodeState) returns (s': State)
    requires Inv(s) && Mirrors(s, i, n) && Uncompacted(n, s.initial)
    ensures var c := Campaign(n);
            Advances(s, s', i) && Mirrors(s', i, c.(sent := c.sent + SolicitPackets(c, OtherVoters(c))))
  {
    var c := Campaign(n);
    var added := SolicitPackets(c, OtherVoters(c));
    LastTermIs(n, s.initial, |n.replica.log|);
    assert n.replica.log[..|n.replica.log|] == n.replica.log;
    assert forall pk | pk in added :: Solicits(i, s.nodes[i], pk);
    hide Inv, Uncompacted, SolicitPackets, Solicits;
    CampaignKeepsInv(s, i, added);
    s' := Step(s, i, Campaigning(i, s.nodes[i]), added, CampaignHistory(i, s.nodes[i], s.h));
  }

  lemma StartElectionRefines(s: State, i: NodeId, n: NodeState) returns (s': State)
    requires Inv(s) && Mirrors(s, i, n) && Uncompacted(n, s.initial)
    ensures Advances(s, s', i) && Mirrors(s', i, StartElection(n))
  {
    if n.id !in n.replica.voters {
      s' := s;
      AdvancesReflexive(s, i);
    } else {
      var c := Campaign(n);
      var s1 := CampaignRefines(s, i, n);
      s' := MaybeWinRefines(s1, i, c.(sent := c.sent + SolicitPackets(c, OtherVoters(c))));
      AdvancesTransitive(s, s1, s', i);
    }
  }

  lemma AnswerVoteRefines(s: State, i: NodeId, n: NodeState, pk: Packet) returns (s': State)
    requires Inv(s) && Mirrors(s, i, n) && Uncompacted(n, s.initial) && pk in s.net && pk.msg.RequestVote?
    ensures Advances(s, s', i) && Mirrors(s', i, AnswerVote(n, pk.msg))
  {
    LastTermIs(n, s.initial, |n.replica.log|);
    assert n.replica.log[..|n.replica.log|] == n.replica.log;
    hide Inv, Uncompacted;
    var granted := GrantsVote(n, pk.msg);
    var reply := Packet(n.id, pk.msg.candidate, VoteReply(n.term, n.id, granted));
    if granted {
      GrantKeepsInv(s, i, pk, {reply});
      s' := Step(s, i, s.nodes[i].(votedFor := Some(pk.msg.candidate)), {reply}, GrantHistory(i, pk.msg.candidate, s.nodes[i], s.h));
    } else {
      s' := ChatterRefines(s, i, n, AnswerVote(n, pk.msg), {reply});
    }
  }

  lemma OnVoteReplyRefines(s: State, i: NodeId, n: NodeState, pk: Packet) returns (s': State)
    requires Inv(s) && Mirrors(s, i, n) && Uncompacted(n, s.initial) && pk in s.net && pk.dst == i && pk.msg.VoteReply?
    ensures Advances(s, s', i) && Mirrors(s', i, OnVoteReply(n, pk.msg))
  {
    var m := pk.msg;
    if m.term > n.term {
      s' := BecomeFollowerRefines(s, i, n, m.term);
    } else if !n.role.Candidate? || m.term < n.term || !m.granted {
      s' := s;
      AdvancesReflexive(s, i);
    } else {
      CollectVoteKeepsInv(s, i, pk);
      var s1 := Step(s, i, s.nodes[i].(votes := s.nodes[i].votes + {m.voter}), {}, s.h);
      s' := MaybeWinRefines(s1, i, n.(votes := n.votes + {m.voter}));
      AdvancesTransitive(s, s1, s', i);
    }
  }

  // ---- appending ----

  lemma SparesFromAgreement(n: Core, m: Message)
    requires Consistent(n, m) && n.commit <= |n.log|
    requires Agree(n.log, Accepting(n, m).log, n.commit)
    ensures SparesCommitted(n.commit, n.log, m.prevIndex, m.entries)
  {
    var a := Agreement(n.log, m.prevIndex, m.entries);
    var log' := Accepting(n, m).log;
    if a < |m.entries| {
      assert log'[m.prevIndex + a] == m.entries[a];
    }
    forall k | 0 <= k < n.commit ensures n.log[k] == log'[k] {
      assert n.log[..n.commit][k] == log'[..n.commit][k];
    }
  }

  /** An accepted AppendEntries as moves: accept, take over the commit index, acknowledge. */
  lemma AcceptMoves(s: State, i: NodeId, pk: Packet, reply: Packet) returns (s': State)
    requires Inv(s) && i in s.nodes && s.nodes[i].role.Follower? && pk in s.net
    requires pk.msg.AppendEntries? && Consistent(s.nodes[i], pk.msg) && pk.msg.term == s.nodes[i].term
    requires reply == Packet(i, pk.msg.leader, AppendReply(pk.msg.term, i, true, Reach(pk.msg)))
    ensures Advances(s, s', i) && reply in s'.net
    ensures var n := s.nodes[i];
            s'.nodes[i] == Accepting(n, pk.msg).(commit := Largest(n.commit, Least(pk.msg.leaderCommit, Reach(pk.msg))))
    ensures Agree(s.nodes[i].log, Accepting(s.nodes[i], pk.msg).log, s.nodes[i].commit)
  {
    hide Inv, Consistent, Merge, PacketOK;
    var m := pk.msg;
    AcceptHolds(s, i, pk);
    AcceptKeepsInv(s, i, pk);
    var s1 := Step(s, i, Accepting(s.nodes[i], m), {}, AckHistory(i, m.term, Reach(m), s.h));
    var s2 := FollowRefines(s1, i, pk, Reach(m), Largest(s1.nodes[i].commit, Least(m.leaderCommit, Reach(m))));
    AdvancesTransitive(s, s1, s2, i);
    AcknowledgeKeepsInv(s2, i, {reply});
    s' := Step(s2, i, s2.nodes[i], {reply}, s2.h);
    AdvancesTransitive(s, s2, s', i);
  }

  /** Absorbing an accepted message changes log and commit index and keeps the rest of the core. */
  lemma AbsorbRefines(s: State, i: NodeId, n: NodeState, pk: Packet) returns (s': State)
    requires Inv(s) && Mirrors(s, i, n) && Uncompacted(n, s.initial) && n.role.Follower?
    requires pk in s.net && pk.msg.AppendEntries? && pk.msg.term == n.term && !LogInconsistent(n, pk.msg)
    ensures pk.msg.prevIndex <= |n.replica.log| && SparesCommitted(n.replica.commit, n.replica.log, pk.msg.prevIndex, pk.msg.entries)
    ensures Advances(s, s', i)
    ensures Mirrors(s', i, Send(n.(replica := Absorb(n.replica, pk.msg)), pk.msg.leader, AppendReply(n.term, n.id, true, Reach(pk.msg))))
  {
    var m := pk.msg;
    UncompactedFacts(n, s.initial);
    assert Consistent(s.nodes[i], m);
    hide Inv, Uncompacted, Absorb, Merge, SparesCommitted, Consistent;
    s' := AcceptMoves(s, i, pk, Packet(i, m.leader, AppendReply(n.term, i, true, Reach(m))));
    SparesFromAgreement(s.nodes[i], m);
    AbsorbedCore(n, s.initial, m);
  }

  lemma FollowRefines(s: State, i: NodeId, pk: Packet, m: nat, k: nat) returns (s': State)
    requires Inv(s) && i in s.nodes && s.nodes[i].role.Follower?
    requires pk in s.net && pk.msg.AppendEntries? && pk.msg.term == s.nodes[i].term
    requires m <= |s.nodes[i].log| && Written(s.h, s.nodes[i].term, m) == s.nodes[i].log[..m]
    requires k == Largest(s.nodes[i].commit, Least(pk.msg.leaderCommit, m))
    ensures Advances(s, s', i) && s'.nodes[i] == s.nodes[i].(commit := k) && s'.h == s.h
  {
    hide Inv;
    if k > s.nodes[i].commit {
      LearnCommitKeepsInv(s, i, pk, m, k);
      s' := Step(s, i, s.nodes[i].(commit := k), {}, s.h);
    } else {
      s' := s;
      AdvancesReflexive(s, i);
    }
  }

  lemma AbsorbedCore(n: NodeState, initial: set<NodeId>, m: Message)
    requires Uncompacted(n, initial) && m.AppendEntries? && m.prevIndex <= |n.replica.log|
    requires SparesCommitted(n.replica.commit, n.replica.log, m.prevIndex, m.entries)
    ensures n.replica.base == 0
    ensures Absorb(n.replica, m).log == Merge(n.replica.log, m.prevIndex, m.entries)
    ensures Absorb(n.replica, m).commit == Largest(n.replica.commit, Least(m.leaderCommit, Reach(m)))
  {
    hide Agreement, Merge, AppendLoop, ConfigOf, LatestConfig, Run, SparesCommitted, SetCommit, LogFits, SnapshotFits, StateFits, ConfigFits, ConfigTracked;
    RepresentsTracked(n.replica, n.replica.log);
    var r1 := AppendLoop(n.replica, m.prevIndex, m.entries);
    AppendLoopFields(n.replica, m.prevIndex, m.entries);
    SetCommitFields(r1, Largest(r1.commit, Least(m.leaderCommit, Reach(m))));
  }

  lemma AppendLoopFields(r: Replica, prev: nat, es: Log)
    requires r.base == 0 && prev <= |r.log| && ConfigTracked(r) && BaseConfigIndex(r) == 0
    ensures var r' := AppendLoop(r, prev, es);
            && r'.log == Merge(r.log, prev, es) && r'.commit == r.commit && r'.threshold == r.threshold && r'.base == 0
  {
    hide Merge, AppendLoop, AppendMerged, ConfigTracked;
    LoopIsMerged(r, prev, es);
    LoopBase(r, prev, es);
    LoopFrame(r, prev, es);
  }

  lemma SetCommitFields(r: Replica, index: nat)
    requires r.threshold <= 0
    ensures var r' := SetCommit(r, index);
            && r'.log == r.log && r'.base == r.base && r'.threshold == r.threshold && r'.initialVoters == r.initialVoters
            && r'.snapshot == r.snapshot && r'.voters == r.voters && r'.commit == Largest(r.commit, index)
  {}

  lemma OnAppendEntriesRefines(s: State, i: NodeId, n: NodeState, pk: Packet) returns (s': State)
    requires Inv(s) && Mirrors(s, i, n) && Uncompacted(n, s.initial) && pk in s.net && pk.msg.AppendEntries?
    ensures Advances(s, s', i) && Mirrors(s', i, OnAppendEntries(n, pk.msg))
    ensures Trustworthy(n, n.replica.log, pk.msg, [])
  {
    var m := pk.msg;
    UncompactedFacts(n, s.initial);
    if m.term < n.term {
      hide Inv, Uncompacted, Absorb, Recognise, LogInconsistent, SparesCommitted;
      s' := RefusalRefines(s, i, n, m.leader);
    } else {
      s' := RecognisedRefines(s, i, n, pk);
    }
  }

  function Refusal(n: NodeState, leader: NodeId): NodeState {
    Send(n, leader, AppendReply(n.term, n.id, false, 0))
  }

  lemma RefusalRefines(s: State, i: NodeId, n: NodeState, leader: NodeId) returns (s': State)
    requires Inv(s) && Mirrors(s, i, n)
    ensures Advances(s, s', i) && Mirrors(s', i, Refusal(n, leader))
  {
    hide Inv;
    s' := ChatterRefines(s, i, n, Refusal(n, leader), {Packet(n.id, leader, AppendReply(n.term, n.id, false, 0))});
  }

  lemma RecognisedReplica(n: NodeState, t: nat, leader: NodeId, initial: set<NodeId>)
    requires Uncompacted(n, initial)
    ensures Uncompacted(Recognise(n, t, leader), initial) && Recognise(n, t, leader).replica == n.replica
  {
    hide Represents;
  }

  lemma RecognisedRefines(s: State, i: NodeId, n: NodeState, pk: Packet) returns (s': State)
    requires Inv(s) && Mirrors(s, i, n) && Uncompacted(n, s.initial) && pk in s.net && pk.msg.AppendEntries?
    requires pk.msg.term >= n.term && n.replica.base == 0
    ensures Advances(s, s', i) && Mirrors(s', i, OnAppendEntries(n, pk.msg))
    ensures !LogInconsistent(Recognise(n, pk.msg.term, pk.msg.leader), pk.msg) ==>
              SparesCommitted(n.replica.commit, n.replica.log, pk.msg.prevIndex, pk.msg.entries)
  {
    hide Inv, Uncompacted, Absorb, Recognise, LogInconsistent, SparesCommitted, Mirrors, Advances;
    var m := pk.msg;
    var n1 := Recognise(n, m.term, m.leader);
    RecognisedReplica(n, m.term, m.leader, s.initial);
    var s1 := RecogniseRefines(s, i, n, m.term, m.leader);
    if LogInconsistent(n1, m) {
      s' := RefusalRefines(s1, i, n1, m.leader);
    } else {
      s' := AbsorbRefines(s1, i, n1, pk);
    }
    AdvancesTransitive(s, s1, s', i);
  }

  lemma OnAppendReplyRefines(s: State, i: NodeId, n: NodeState, pk: Packet) returns (s': State)
    requires Inv(s) && Mirrors(s, i, n) && Uncompacted(n, s.initial) && pk in s.net && pk.msg.AppendReply?
    ensures Advances(s, s', i) && Mirrors(s', i, OnAppendReply(n, pk.msg))
  {
    hide Inv, Uncompacted, AdvanceCommit, BackOff, NoteMatch, Outgoing, Mirrors;
    var m := pk.msg;
    assert s.nodes[i] == CoreOf(n) && i in s.nodes by { MirrorsFacts(s, i, n); }
    if m.term > n.term {
      s' := BecomeFollowerRefines(s, i, n, m.term);
    } else if !n.role.Leader? || m.term < n.term {
      s' := s;
      AdvancesReflexive(s, i);
    } else if m.success {
      var s1 := NoteMatchRefines(s, i, n, pk);
      s' := AdvanceCommitRefines(s1, i, NoteMatch(n, m.follower, m.matchIndex));
      AdvancesTransitive(s, s1, s', i);
    } else {
      s' := BackOffRefines(s, i, n, m.follower);
    }
  }

  lemma MirrorsFacts(s: State, i: NodeId, n: NodeState)
    requires Mirrors(s, i, n)
    ensures i in s.nodes && s.nodes[i] == CoreOf(n) && n.id == i && n.sent <= s.net
  {}

  lemma NoteMatchRefines(s: State, i: NodeId, n: NodeState, pk: Packet) returns (s': State)
    requires Inv(s) && Mirrors(s, i, n) && Uncompacted(n, s.initial) && n.role.Leader?
    requires pk in s.net && pk.msg.AppendReply? && pk.msg.success && pk.msg.term == n.term
    ensures Advances(s, s', i) && Mirrors(s', i, NoteMatch(n, pk.msg.follower, pk.msg.matchIndex))
    ensures Uncompacted(NoteMatch(n, pk.msg.follower, pk.msg.matchIndex), s.initial) && NoteMatch(n, pk.msg.follower, pk.msg.matchIndex).role.Leader?
  {
    hide Inv, Represents;
    var n1 := NoteMatch(n, pk.msg.follower, pk.msg.matchIndex);
    CollectMatchKeepsInv(s, i, pk);
    s' := Step(s, i, CoreOf(n1), {}, s.h);
  }

  lemma BackOffRefines(s: State, i: NodeId, n: NodeState, f: NodeId) returns (s': State)
    requires Inv(s) && Mirrors(s, i, n) && Uncompacted(n, s.initial) && n.role.Leader?
    ensures var n1 := BackOff(n, f);
            Advances(s, s', i) && Mirrors(s', i, n1.(sent := n1.sent + Outgoing(n1, f)))
  {
    hide Inv, Represents, FromLeader, Outgoing;
    var n1 := BackOff(n, f);
    var added := Outgoing(n1, f);
    forall pk | pk in added ensures FromLeader(i, s.nodes[i], pk) { OutgoingFromLeader(n1, s.initial, f, pk); }
    SendKeepsInv(s, i, added);
    s' := Step(s, i, s.nodes[i], added, s.h);
    Sends(s, i, n, n1.(sent := n1.sent + added), added);
  }

  lemma {:induction false} CommitPointFacts(n: NodeState, k: nat)
    ensures var p := CommitPoint(n, k);
            p > n.replica.commit ==> p <= k && TermAt(n.replica, p) == n.term && QuorumHolds(n, p)
  {
    if k > n.replica.commit && TermAt(n.replica, k) == n.term && !QuorumHolds(n, k) { CommitPointFacts(n, k - 1); }
  }

  lemma AdvanceCommitRefines(s: State, i: NodeId, n: NodeState) returns (s': State)
    requires Inv(s) && Mirrors(s, i, n) && Uncompacted(n, s.initial) && n.role.Leader?
    ensures Advances(s, s', i) && Mirrors(s', i, AdvanceCommit(n))
  {
    UncompactedFacts(n, s.initial);
    var k := CommitPoint(n, Last(n));
    CommitPointFacts(n, Last(n));
    if k > n.replica.commit {
      HoldersAreQuorum(s.initial, n, k);
      SetCommitFields(n.replica, k);
      hide Inv, Uncompacted, SetCommit, CommitPoint;
      CommitKeepsInv(s, i, k);
      s' := Step(s, i, s.nodes[i].(commit := k, committedThisTerm := true), {}, CommitHistory(s.initial, s.nodes[i], k, s.h));
    } else {
      s' := s;
      AdvancesReflexive(s, i);
    }
  }

  lemma HoldersAreQuorum(initial: set<NodeId>, n: NodeState, k: nat)
    requires n.replica.voters == ConfigOf(initial, n.replica.log) && QuorumHolds(n, k)
    ensures Majority(Holders(initial, CoreOf(n), k), ConfigOf(initial, n.replica.log))
  {
    var hs := Holders(initial, CoreOf(n), k);
    assert hs == set v | v in n.replica.voters && MatchOf(n, v) >= k;
    assert hs * ConfigOf(initial, n.replica.log) == hs;
  }

  // ---- the leader's own log ----

  lemma {:induction false} LatestConfigIsLast(log: Log)
    ensures forall j | LatestConfig(log) <= j < |log| :: !ConfigAt(log, j)
  {
    if log != [] && !log[|log| - 1].command.Config? {
      var front := log[..|log| - 1];
      LatestConfigIsLast(front);
      forall j | LatestConfig(log) <= j < |log| ensures !ConfigAt(log, j) {
        if j < |front| { assert !ConfigAt(front, j); }
      }
    }
  }

  lemma ExtendRefines(s: State, i: NodeId, n: NodeState, cmd: Command) returns (s': State)
    requires Inv(s) && Mirrors(s, i, n) && Uncompacted(n, s.initial) && n.role.Leader?
    requires cmd.Config? ==> MayChangeConfig(n, cmd.voters)
    ensures Advances(s, s', i) && Mirrors(s', i, Extend(n, cmd)) && Uncompacted(Extend(n, cmd), s.initial)
  {
    hide Inv, MayAppend, Uncompacted, Represents;
    UncompactedFacts(n, s.initial);
    MayAppendHere(s.initial, n, cmd);
    ExtendedUncompacted(n, s.initial, cmd);
    AppendKeepsInv(s, i, cmd);
    s' := Step(s, i, Appending(i, s.nodes[i], cmd), {}, AppendHistory(i, s.nodes[i], cmd, s.h));
  }

  lemma MayAppendHere(initial: set<NodeId>, n: NodeState, cmd: Command)
    requires Uncompacted(n, initial) && (cmd.Config? ==> MayChangeConfig(n, cmd.voters))
    ensures MayAppend(initial, CoreOf(n), cmd)
  {
    UncompactedFacts(n, initial);
    LatestConfigIsLast(n.replica.log);
  }

  lemma ExtendedUncompacted(n: NodeState, initial: set<NodeId>, cmd: Command)
    requires Uncompacted(n, initial)
    ensures Uncompacted(Extend(n, cmd), initial)
  {
    hide Represents;
    AppendOwnRecovers(n.replica, n.replica.log, Entry(n.term, cmd));
  }

  lemma ExtendAndSendRefines(s: State, i: NodeId, n: NodeState, cmd: Command) returns (s': State)
    requires Inv(s) && Mirrors(s, i, n) && Uncompacted(n, s.initial) && n.role.Leader?
    requires cmd.Config? ==> MayChangeConfig(n, cmd.voters)
    ensures Advances(s, s', i) && Mirrors(s', i, Broadcast(Extend(n, cmd)))
  {
    var s1 := ExtendRefines(s, i, n, cmd);
    s' := BroadcastRefines(s1, i, Extend(n, cmd));
    AdvancesTransitive(s, s1, s', i);
  }
}
