/** The server object: RaftNode of raftverified/node.py, field by field. Every method is proved to do
    exactly what NodeSpec says of the corresponding step. */
module RaftNode {
  import opened Types
  import opened Logs
  import opened Kv
  import opened KvMachine
  import opened Replicas
  import opened NodeSpec
  import opened AppendSteps
  import opened Soundness

  class RaftNode {
    const id: NodeId
    const peers: set<NodeId>
    const threshold: int
    const initialVoters: set<NodeId>

    // persistent
    var term: nat
    var votedFor: Option<NodeId>
    var log: seq<Entry>
    var baseIndex: nat
    var baseTerm: nat
    var snapshot: Option<Snapshot>

    // membership, derived from the log
    var voters: set<NodeId>
    var configIndex: nat

    // volatile
    var role: Role
    var commitIndex: nat
    var lastApplied: nat
    var applied: seq<Command>
    var kv: KVStateMachine
    var leaderId: Option<NodeId>
    var alive: bool
    var logVersion: nat
    var incarnation: nat

    // leaders only
    var nextIndex: map<NodeId, nat>
    var matchIndex: map<NodeId, nat>
    var votes: set<NodeId>
    var clientIndex: map<int, int>
    var pendingReads: map<nat, PendingRead>
    var nextReadId: nat
    var committedThisTerm: bool

    // what was handed to the network and to the apply callback
    var sent: set<Packet>
    var reports: seq<Report>

    ghost function Image(): Replica
      reads this`log, this`baseIndex, this`baseTerm, this`snapshot, this`voters, this`configIndex, this`commitIndex, this`lastApplied,
            this`applied, this`kv, this`logVersion, this`reports, kv
    {
      Replica(initialVoters, threshold, log, baseIndex, baseTerm, snapshot, voters, configIndex,
              commitIndex, lastApplied, applied, kv.View(), logVersion, reports)
    }

    ghost function ProgressView(): Progress
      reads this`nextIndex, this`matchIndex
    {
      Progress(nextIndex, matchIndex)
    }

    ghost function RequestView(): RequestTable
      reads this`clientIndex
    {
      RequestTable(clientIndex)
    }

    ghost function ReadView(): ReadTable
      reads this`pendingReads, this`nextReadId
    {
      ReadTable(pendingReads, nextReadId)
    }

    ghost function View(): NodeState
      reads this, kv
    {
      NodeState(id, peers, term, votedFor, Image(), role, leaderId, alive, incarnation, votes,
                ProgressView(), RequestView(), ReadView(), committedThisTerm, sent)
    }

    constructor (id: NodeId, peers: set<NodeId>, initialVoters: set<NodeId>, threshold: int)
      ensures View() == Initial(id, peers, initialVoters, threshold) && Bounded(Image()) && fresh(kv)
    {
      this.id, this.peers, this.initialVoters, this.threshold := id, peers, initialVoters, threshold;
      term, votedFor, log := 0, None, [];
      baseIndex, baseTerm, snapshot := 0, 0, None;
      voters, configIndex := initialVoters, 0;
      role, commitIndex, lastApplied, applied := Follower, 0, 0, [];
      leaderId, alive, logVersion, incarnation := None, true, 0, 0;
      nextIndex, matchIndex, votes, clientIndex := map[], map[], {}, map[];
      pendingReads, nextReadId, committedThisTerm := map[], 0, false;
      sent, reports := {}, [];
      kv := new KVStateMachine();
    }

    // ---- log helpers ----

    function LastLogIndex(): (index: nat)
      reads this
    {
      baseIndex + |log|
    }

    function TermAtIndex(index: nat): (t: nat)
      requires index <= LastLogIndex()
      reads this
    {
      if index <= baseIndex then baseTerm else log[index - baseIndex - 1].term
    }

    // ---- membership ----

    /** The latest configuration entry in the log governs; below the log, the snapshot's, then the
        initial configuration. */
    method RebuildConfig()
      modifies this`voters, this`configIndex
      ensures Image() == Replicas.RebuildConfig(old(Image()))
    {
      var v, index := initialVoters, 0;
      if snapshot.Some? {
        v, index := snapshot.value.voters, snapshot.value.lastIndex;
      }
      for i := 0 to |log|
        invariant v == ConfigOf(BaseVoters(Image()), log[..i])
        invariant index == if LatestConfig(log[..i]) > 0 then baseIndex + LatestConfig(log[..i]) else BaseConfigIndex(Image())
      {
        assert log[..i + 1][..i] == log[..i];
        if log[i].command.Config? {
          v, index := log[i].command.voters, baseIndex + i + 1;
        }
      }
      assert log[..|log|] == log;
      voters, configIndex := v, index;
    }

    /** The configuration in force at logical index `upto`. */
    method ConfigAt(upto: nat) returns (v: set<NodeId>)
      requires baseIndex <= upto <= LastLogIndex()
      ensures v == VotersUpTo(Image(), upto - baseIndex)
    {
      var i := upto - baseIndex;
      while i > 0
        invariant 0 <= i <= upto - baseIndex
        invariant ConfigOf(BaseVoters(Image()), log[..upto - baseIndex]) == ConfigOf(BaseVoters(Image()), log[..i])
      {
        if log[i - 1].command.Config? {
          return log[i - 1].command.voters;
        }
        assert log[..i][..i - 1] == log[..i - 1];
        i := i - 1;
      }
      v := if snapshot.Some? then snapshot.value.voters else initialVoters;
    }

    // ---- commit, apply, compact ----

    /** Commit up to `index`, apply what is new in order, and report each result. */
    method SetCommitIndex(index: nat)
      requires Bounded(Image()) && (index <= commitIndex || index <= LastLogIndex())
      modifies this`commitIndex, this`lastApplied, this`applied, this`reports, this`log, this`baseIndex, this`baseTerm,
               this`snapshot, this`logVersion, kv
      ensures Image() == SetCommit(old(Image()), index)
    {
      hide Replicas.MaybeCompact, ApplyUpTo, Kv.Apply;
      if index <= commitIndex {
        return;
      }
      ApplyUpToIndex(index);
      MaybeCompact();
    }

    /** Apply the entries above `lastApplied` up to the new commit index, oldest first. */
    method ApplyUpToIndex(index: nat)
      requires baseIndex <= lastApplied == commitIndex <= index <= LastLogIndex()
      modifies this`commitIndex, this`lastApplied, this`applied, this`reports, kv
      ensures Image() == ApplyUpTo(old(Image()), index)
      ensures lastApplied == index
    {
      hide ApplyUpTo, Kv.Apply;
      ghost var r0 := Image();
      ApplyNothing(r0);
      commitIndex := index;
      while lastApplied < commitIndex
        invariant r0.lastApplied <= lastApplied <= commitIndex == index
        invariant Image() == ApplyUpTo(r0, lastApplied).(commit := index)
      {
        lastApplied := lastApplied + 1;
        var command := log[lastApplied - baseIndex - 1].command;
        applied := applied + [command];
        var result := kv.Apply(command);
        reports := reports + [Applied(lastApplied, command, result)];
        ApplyOneMore(r0, lastApplied - 1);
      }
      ApplyCommits(r0, index);
    }

    /** Fold the applied prefix into a snapshot once enough entries have piled up. */
    method MaybeCompact()
      requires baseIndex <= lastApplied <= LastLogIndex()
      modifies this`log, this`applied, this`baseIndex, this`baseTerm, this`snapshot, this`logVersion
      ensures Image() == Replicas.MaybeCompact(old(Image()))
    {
      if threshold <= 0 || lastApplied - baseIndex < threshold {
        return;
      }
      var upto := lastApplied;
      var lastTerm := TermAtIndex(upto);
      var image := kv.Capture();
      var v := ConfigAt(upto);
      log := log[upto - baseIndex..];
      applied := Drop(applied, upto - baseIndex);
      baseIndex, baseTerm := upto, lastTerm;
      snapshot := Some(Snapshot(upto, lastTerm, image, v));
      logVersion := logVersion + 1;
    }

    // ---- lifecycle ----

    /** The state machine a server restarts with: its snapshot's, or an empty one. */
    method ResetMachine()
      modifies this`kv, this`commitIndex, this`lastApplied, this`applied
      ensures fresh(kv)
      ensures Image() == old(Image()).(kv := if old(Image()).snapshot.Some? then old(Image()).snapshot.value.kv else EMPTY_KV, commit := BaseConfigIndex(old(Image())),
                                       lastApplied := BaseConfigIndex(old(Image())), applied := [])
    {
      kv := new KVStateMachine();
      if snapshot.Some? {
        kv.Restore(snapshot.value.kv);
        commitIndex, lastApplied := snapshot.value.lastIndex, snapshot.value.lastIndex;
      } else {
        commitIndex, lastApplied := 0, 0;
      }
      applied := [];
    }

    method ResetRole()
      modifies this`role, this`leaderId, this`nextIndex, this`matchIndex, this`votes, this`clientIndex, this`pendingReads, this`committedThisTerm, this`incarnation
      ensures incarnation == old(incarnation) + 1
      ensures role == Follower && leaderId == None && votes == {} && !committedThisTerm
      ensures ProgressView() == NO_PROGRESS && RequestView() == NO_REQUESTS && ReadView() == NoReads(old(View()))
    {
      role, leaderId := Follower, None;
      nextIndex, matchIndex, votes, clientIndex := map[], map[], {}, map[];
      pendingReads, committedThisTerm, incarnation := map[], false, incarnation + 1;
    }

    method RestartReplica()
      modifies this`kv, this`commitIndex, this`lastApplied, this`applied, this`voters, this`configIndex
      ensures Image() == Restart(old(Image())) && fresh(kv)
    {
      hide Replicas.RebuildConfig, Image;
      ResetMachine();
      RebuildConfig();
    }

    /** A crash: everything volatile is lost, the state machine and the configuration are rebuilt from
        what is stored. */
    method Pause()
      modifies this
      ensures View() == NodeSpec.Pause(old(View())) && fresh(kv)
    {
      hide Restart, Image, ProgressView, RequestView, ReadView;
      alive := false;
      RestartReplica();
      ResetRole();
    }

    method Resume()
      modifies this`alive
      ensures View() == NodeSpec.Resume(old(View()))
    {
      alive := true;
    }

    method BecomeFollower(newTerm: nat)
      modifies this`term, this`votedFor, this`role, this`pendingReads
      ensures View() == NodeSpec.BecomeFollower(old(View()), newTerm)
    {
      hide Image, ProgressView, RequestView;
      if newTerm > term {
        votedFor := None;
      }
      term := newTerm;
      role := Follower;
      pendingReads := map[];
    }

    // ---- sending ----

    method Send(to: NodeId, msg: Message)
      modifies this`sent
      ensures View() == NodeSpec.Send(old(View()), to, msg)
    {
      hide Image, ProgressView, RequestView, ReadView;
      sent := sent + {Packet(id, to, msg)};
    }

    /** A log tail, or the snapshot for a peer behind the compaction point. */
    method SendAppendEntries(peer: NodeId)
      requires CanSend(View(), peer)
      modifies this`sent
      ensures View() == old(View()).(sent := old(sent) + Outgoing(old(View()), peer))
    {
      var prev := (nextIndex[peer] as int) - 1;
      if prev < baseIndex {
        if snapshot.Some? {
          var s := snapshot.value;
          Send(peer, InstallSnapshot(term, id, s.lastIndex, s.lastTerm, s.kv.store, s.kv.sessions, s.voters));
        }
      } else {
        Send(peer, AppendEntries(term, id, prev, TermAtIndex(prev), log[prev - baseIndex..], commitIndex));
      }
    }

    /** To every other voter, in whatever order. */
    method BroadcastHeartbeats()
      requires CanBroadcast(View())
      modifies this`sent
      ensures View() == Broadcast(old(View()))
    {
      hide Outgoing;
      ghost var n := View();
      var rest := voters - {id};
      ghost var done: set<NodeId> := {};
      while rest != {}
        invariant done + rest == OtherVoters(n) && done * rest == {}
        invariant View() == n.(sent := n.sent + BroadcastPackets(n, done))
      {
        var p :| p in rest;
        OutgoingIgnoresSent(n, View(), p);
        SendAppendEntries(p);
        BroadcastMore(n, done, p);
        rest, done := rest - {p}, done + {p};
      }
      assert done == OtherVoters(n);
    }

    // ---- elections ----

    method MaybeWin()
      requires OtherVoters(View()) <= peers
      modifies this`role, this`leaderId, this`nextIndex, this`matchIndex, this`committedThisTerm, this`clientIndex, this`sent
      ensures View() == NodeSpec.MaybeWin(old(View()))
    {
      hide ClientIndex, BroadcastPackets;
      if role.Candidate? && |votes * voters| * 2 > |voters| {
        BecomeLeader();
      }
    }

    method BecomeLeader()
      requires OtherVoters(View()) <= peers
      modifies this`role, this`leaderId, this`nextIndex, this`matchIndex, this`committedThisTerm, this`clientIndex, this`sent
      ensures View() == NodeSpec.BecomeLeader(old(View()))
    {
      hide Broadcast, Image, ReadView, ClientIndex;
      LeadCanBroadcast(View());
      ImageLog();
      TakeLead();
      BroadcastHeartbeats();
    }

    /** A new leader assumes nothing of its followers. */
    method TakeLead()
      modifies this`role, this`leaderId, this`nextIndex, this`matchIndex, this`committedThisTerm, this`clientIndex
      ensures role == Leader && leaderId == Some(id) && !committedThisTerm && clientIndex == ClientIndex(log)
      ensures ProgressView() == Lead(old(View())).progress
    {
      hide ClientIndex, Image;
      ImageLog();
      var last := LastLogIndex();
      role, leaderId, committedThisTerm := Leader, Some(id), false;
      nextIndex := map p | p in peers :: last + 1;
      matchIndex := (map p | p in peers :: 0)[id := last];
      RebuildClientIndex();
    }

    lemma ImageLog()
      ensures Image().log == log && LastIndex(Image()) == LastLogIndex() && Image().voters == voters
      ensures Image().configIndex == configIndex && Image().commit == commitIndex && Image().lastApplied == lastApplied && Image().base == baseIndex
    {}

    /** The highest request id per client in this log. */
    method RebuildClientIndex()
      modifies this`clientIndex
      ensures clientIndex == ClientIndex(log)
    {
      var index: map<int, int> := map[];
      for i := 0 to |log|
        invariant index == ClientIndex(log[..i])
      {
        assert log[..i + 1][..i] == log[..i];
        var cmd := log[i].command;
        if cmd.IsStructured() && cmd.req > HighestRequest(index, cmd.client) {
          index := index[cmd.client := cmd.req];
        }
      }
      assert log[..|log|] == log;
      clientIndex := index;
    }

    method StartElection()
      requires OtherVoters(View()) <= peers
      modifies this
      ensures View() == NodeSpec.StartElection(old(View())) && kv == old(kv)
    {
      hide NodeSpec.MaybeWin, Image, ProgressView, RequestView, ReadView, SolicitPackets;
      ImageLog();
      if id !in voters {
        return;
      }
      BecomeCandidate();
      SolicitVotes();
      MaybeWin();
    }

    method BecomeCandidate()
      modifies this`term, this`role, this`votedFor, this`leaderId, this`votes
      ensures term == old(term) + 1 && role == Candidate && votedFor == Some(id) && leaderId == None && votes == {id}
    {
      term := term + 1;
      role, votedFor, leaderId, votes := Candidate, Some(id), None, {id};
    }

    method SolicitVotes()
      modifies this`sent
      ensures View() == old(View()).(sent := old(sent) + SolicitPackets(old(View()), OtherVoters(old(View()))))
    {
      ghost var c := View();
      var req := RequestVote(term, id, LastLogIndex(), TermAtIndex(LastLogIndex()));
      var rest := voters - {id};
      ghost var done: set<NodeId> := {};
      while rest != {}
        invariant done + rest == OtherVoters(c) && done * rest == {}
        invariant View() == c.(sent := c.sent + SolicitPackets(c, done))
      {
        var p :| p in rest;
        Send(p, req);
        rest, done := rest - {p}, done + {p};
      }
      assert done == OtherVoters(c);
    }

    method OnElectionTimeout()
      requires OtherVoters(View()) <= peers
      modifies this
      ensures View() == ElectionTimeout(old(View())) && kv == old(kv)
    {
      if !alive || role.Leader? {
        return;
      }
      StartElection();
    }

    method OnHeartbeat()
      requires alive && role.Leader? ==> CanBroadcast(View())
      modifies this`sent
      ensures View() == HeartbeatTick(old(View()))
    {
      if !alive || !role.Leader? {
        return;
      }
      BroadcastHeartbeats();
    }

    // ---- client interface ----

    /** A leader's own entry: appended, effective at once, and counted as replicated on itself. */
    method AppendEntry(cmd: Command)
      modifies this`log, this`logVersion, this`voters, this`configIndex, this`matchIndex
      ensures Image() == AppendOwn(old(Image()), Entry(term, cmd))
      ensures matchIndex == old(matchIndex)[id := old(LastLogIndex()) + 1]
    {
      log, logVersion := log + [Entry(term, cmd)], logVersion + 1;
      if cmd.Config? {
        voters, configIndex := cmd.voters, LastLogIndex();
      }
      matchIndex := matchIndex[id := LastLogIndex()];
    }

    /** `client_command`: append a request unless this log already holds it. */
    method ClientCommand(cmd: Command) returns (accepted: bool)
      requires !cmd.Config?
      requires role.Leader? && alive && !AlreadyAppended(View(), cmd) ==> CanBroadcast(Extend(View(), cmd))
      modifies this`log, this`logVersion, this`voters, this`configIndex, this`matchIndex, this`clientIndex, this`sent
      ensures (View(), accepted) == NodeSpec.ClientCommand(old(View()), cmd)
    {
      hide Image, ReadView, Broadcast, CanBroadcast, AppendOwn, AlreadyAppended;
      ghost var n := View();
      ImageLog();
      if !role.Leader? || !alive {
        return false;
      }
      if cmd.IsStructured() {
        var highest := HighestRequest(clientIndex, cmd.client);
        assert AlreadyAppended(n, cmd) == (cmd.req <= highest) by { AppendedBefore(n, cmd); }
        if cmd.req <= highest {
          return true;
        }
        clientIndex := clientIndex[cmd.client := cmd.req];
      } else {
        assert !AlreadyAppended(n, cmd) by { AppendedBefore(n, cmd); }
      }
      AppendEntry(cmd);
      assert View() == Extend(n, cmd);
      BroadcastHeartbeats();
      accepted := true;
    }

    /** `change_config`: one server added or removed, under both guards. */
    method ChangeConfig(newVoters: set<NodeId>) returns (accepted: bool)
      requires MayChangeConfig(View(), newVoters) ==> CanBroadcast(Extend(View(), Config(newVoters)))
      modifies this`log, this`logVersion, this`voters, this`configIndex, this`matchIndex, this`sent
      ensures (View(), accepted) == NodeSpec.ChangeConfig(old(View()), newVoters)
    {
      hide Image, ReadView, RequestView, Broadcast, CanBroadcast, AppendOwn;
      ghost var n := View();
      ImageLog();
      if !role.Leader? || !alive {
        return false;
      }
      if |(newVoters - voters) + (voters - newVoters)| != 1 {
        return false; // not a single-server change
      }
      if id !in newVoters {
        return false; // a leader never removes itself
      }
      if configIndex > commitIndex {
        return false; // the previous change is still in flight
      }
      if !committedThisTerm {
        return false; // the commit index may be stale until a commit of this term
      }
      AppendEntry(Config(newVoters));
      assert View() == Extend(n, Config(newVoters));
      BroadcastHeartbeats();
      accepted := true;
    }

    // ---- elections: messages ----

    method OnRequestVote(m: Message)
      requires m.RequestVote?
      modifies this`term, this`votedFor, this`role, this`pendingReads, this`sent
      ensures View() == NodeSpec.OnRequestVote(old(View()), m)
    {
      hide Image, ProgressView, RequestView, ReadView, NodeSpec.BecomeFollower, TermAt;
      if m.term > term {
        BecomeFollower(m.term);
      }
      ghost var n := View();
      ImageLog();
      ImageTerm(LastLogIndex());
      var granted := false;
      if m.term == term && (votedFor == None || votedFor == Some(m.candidate)) {
        var myLastTerm := TermAtIndex(LastLogIndex());
        if m.lastTerm > myLastTerm || (m.lastTerm == myLastTerm && m.lastIndex >= LastLogIndex()) {
          granted := true;
          votedFor := Some(m.candidate);
        }
      }
      Send(m.candidate, VoteReply(term, id, granted));
      assert View() == AnswerVote(n, m);
    }

    lemma ImageTerm(index: nat)
      requires index <= LastLogIndex()
      ensures TermAt(Image(), index) == TermAtIndex(index)
    {}

    method OnVoteReply(m: Message)
      requires m.VoteReply? && OtherVoters(View()) <= peers
      modifies this
      ensures View() == NodeSpec.OnVoteReply(old(View()), m) && kv == old(kv)
    {
      hide Image, ProgressView, RequestView, ReadView, NodeSpec.BecomeFollower, NodeSpec.MaybeWin;
      if m.term > term {
        BecomeFollower(m.term);
        return;
      }
      if !role.Candidate? || m.term < term || !m.granted {
        return;
      }
      votes := votes + {m.voter};
      MaybeWin();
    }

    // ---- AppendEntries ----

    /** One turn of the append loop. */
    method AppendOneEntry(index: nat, e: Entry)
      modifies this`log, this`logVersion, this`voters, this`configIndex
      ensures Image() == AppendOne(old(Image()), index, e)
    {
      hide Replicas.RebuildConfig, CutAtOffset;
      if LastLogIndex() >= index {
        if TermAtIndex(index) != e.term {
          CutAt(index);
        } else {
          return;
        }
      }
      PushEntry(index, e);
    }

    method CutAt(index: nat)
      modifies this`log, this`logVersion, this`voters, this`configIndex
      ensures Image() == Cut(old(Image()), index)
    {
      hide Replicas.RebuildConfig, CutAtOffset;
      log, logVersion := CutAtOffset(log, index - baseIndex - 1), logVersion + 1;
      if configIndex >= index {
        RebuildConfig();
      }
    }

    method PushEntry(index: nat, e: Entry)
      modifies this`log, this`logVersion, this`voters, this`configIndex
      ensures Image() == Push(old(Image()), index, e)
    {
      log, logVersion := log + [e], logVersion + 1;
      if e.command.Config? {
        voters, configIndex := e.command.voters, index; // effective on append
      }
    }

    /** Entries that already match stay untouched; a conflicting suffix is deleted. */
    method AppendAll(prev: nat, entries: seq<Entry>)
      modifies this`log, this`logVersion, this`voters, this`configIndex
      ensures Image() == AppendLoop(old(Image()), prev, entries)
    {
      hide AppendLoop, AppendOne;
      ghost var r := Image();
      LoopStart(r, prev);
      for k := 0 to |entries|
        invariant Image() == AppendLoop(r, prev, entries[..k])
      {
        LoopSnoc(r, prev, entries[..k], entries[k]);
        assert entries[..k] + [entries[k]] == entries[..k + 1];
        AppendOneEntry(prev + k + 1, entries[k]);
      }
      assert entries[..|entries|] == entries;
    }

    /** Take the sender for the leader of the message's term. */
    method Recognise(newTerm: nat, leader: NodeId)
      modifies this`term, this`votedFor, this`role, this`pendingReads, this`leaderId
      ensures View() == NodeSpec.Recognise(old(View()), newTerm, leader)
    {
      hide Image, ProgressView, RequestView, ReadView, NodeSpec.BecomeFollower;
      if newTerm > term || !role.Follower? {
        BecomeFollower(newTerm);
      }
      leaderId := Some(leader);
    }

    method OnAppendEntries(m: Message)
      requires m.AppendEntries? && Bounded(Image())
      modifies this, kv
      ensures View() == NodeSpec.OnAppendEntries(old(View()), m) && kv == old(kv)
    {
      hide Image, ProgressView, RequestView, ReadView, NodeSpec.Recognise, LogInconsistent, Absorb, Bounded, NodeSpec.Send;
      if m.term < term {
        Send(m.leader, AppendReply(term, id, false, 0));
        return;
      }
      Recognise(m.term, m.leader);
      ConsiderEntries(m);
    }

    /** The consistency check of section 5.3: this log must hold the entry the message builds on. */
    method CheckConsistency(m: Message) returns (inconsistent: bool)
      requires m.AppendEntries?
      ensures inconsistent == LogInconsistent(View(), m)
    {
      hide Image, TermAt;
      ImageLog();
      if m.prevIndex <= LastLogIndex() { ImageTerm(m.prevIndex); }
      var tooShort := LastLogIndex() < m.prevIndex;
      var termMismatch := !tooShort && TermAtIndex(m.prevIndex) != m.prevTerm;
      inconsistent := m.prevIndex > 0 && (tooShort || termMismatch);
    }

    method ConsiderEntries(m: Message)
      requires m.AppendEntries? && Bounded(Image())
      modifies this`log, this`logVersion, this`voters, this`configIndex, this`commitIndex, this`lastApplied, this`applied, this`reports,
               this`baseIndex, this`baseTerm, this`snapshot, this`sent, kv
      ensures View() == Considered(old(View()), m)
    {
      hide Image, ProgressView, RequestView, ReadView, LogInconsistent, Absorb, Bounded;
      var inconsistent := CheckConsistency(m);
      if inconsistent {
        Send(m.leader, AppendReply(term, id, false, 0));
        return;
      }
      ConsistentPrev(View(), m);
      ImageLog();
      AbsorbEntries(m);
      Send(m.leader, AppendReply(term, id, true, m.prevIndex + |m.entries|));
    }

    /** Append what is new, then follow the leader's commit index, which never moves back. */
    method AbsorbEntries(m: Message)
      requires m.AppendEntries? && m.prevIndex <= LastLogIndex() && Bounded(Image())
      modifies this`log, this`logVersion, this`voters, this`configIndex, this`commitIndex, this`lastApplied, this`applied, this`reports,
               this`baseIndex, this`baseTerm, this`snapshot, kv
      ensures Image() == Absorb(old(Image()), m)
    {
      hide Image, AppendLoop, SetCommit;
      ghost var r := Image();
      ImageLog();
      LoopFrame(r, m.prevIndex, m.entries);
      LoopLength(r, m.prevIndex, m.entries);
      AppendAll(m.prevIndex, m.entries);
      ImageLog();
      var match_ := m.prevIndex + |m.entries|;
      if m.leaderCommit > commitIndex {
        SetCommitIndex(Largest(commitIndex, Least(m.leaderCommit, match_)));
      }
    }

    method OnAppendReply(m: Message)
      requires m.AppendReply? && Bounded(Image())
      requires role.Leader? && m.term == term && !m.success ==> CanSend(BackOff(View(), m.follower), m.follower)
      modifies this, kv
      ensures View() == NodeSpec.OnAppendReply(old(View()), m) && kv == old(kv)
    {
      hide Image, RequestView, ReadView, NodeSpec.BecomeFollower, NodeSpec.AdvanceCommit, Outgoing, CanSend, Bounded;
      if m.term > term {
        BecomeFollower(m.term);
        return;
      }
      if !role.Leader? || m.term < term {
        return;
      }
      var f := m.follower;
      var next := if f in nextIndex then nextIndex[f] else 1;
      if m.success {
        matchIndex := matchIndex[f := Largest(if f in matchIndex then matchIndex[f] else 0, m.matchIndex)];
        nextIndex := nextIndex[f := Largest(next, m.matchIndex + 1)];
        assert View() == NoteMatch(old(View()), f, m.matchIndex);
        AdvanceCommit();
      } else {
        nextIndex := nextIndex[f := if next <= 1 then 1 else next - 1];
        assert View() == BackOff(old(View()), f);
        SendAppendEntries(f);
      }
    }

    /** The greatest index of this term that more than half of the configuration holds, scanning down
        from the end of the log; the current commit index if there is none. */
    method FindCommitPoint() returns (k: nat)
      ensures k == CommitPoint(View(), Last(View()))
    {
      hide Image, RequestView, ReadView, TermAt;
      ImageLog();
      k := LastLogIndex();
      while k > commitIndex
        invariant k <= LastLogIndex()
        invariant CommitPoint(View(), LastLogIndex()) == CommitPoint(View(), k)
      {
        ImageTerm(k);
        if TermAtIndex(k) != term {
          return commitIndex; // the guard forbids committing older entries directly
        }
        var holders := set v | v in voters && (if v in matchIndex then matchIndex[v] else 0) >= k;
        assert (|holders| * 2 > |voters|) == QuorumHolds(View(), k) by { HoldersOf(View(), k, holders); }
        if |holders| * 2 > |voters| {
          return k;
        }
        k := k - 1;
      }
      k := commitIndex;
    }

    method AdvanceCommit()
      requires Bounded(Image())
      modifies this`commitIndex, this`lastApplied, this`applied, this`reports, this`log, this`baseIndex, this`baseTerm,
               this`snapshot, this`logVersion, this`committedThisTerm, kv
      ensures View() == NodeSpec.AdvanceCommit(old(View()))
    {
      hide Image, ProgressView, RequestView, ReadView, SetCommit, Bounded, CommitPoint;
      ImageLog();
      var k := FindCommitPoint();
      if k > commitIndex {
        CommitPointWithin(View(), LastLogIndex());
        SetCommitIndex(k);
        committedThisTerm := true;
      }
    }

    // ---- InstallSnapshot ----

    method OnInstallSnapshot(m: Message)
      requires m.InstallSnapshot?
      modifies this, kv
      ensures View() == NodeSpec.OnInstallSnapshot(old(View()), m) && (kv == old(kv) || fresh(kv))
    {
      hide Image, ProgressView, RequestView, ReadView, NodeSpec.Recognise, Replicas.Install, NodeSpec.Send;
      if m.term < term {
        Send(m.leader, AppendReply(term, id, false, 0));
        return;
      }
      Recognise(m.term, m.leader);
      ConsiderSnapshot(m);
    }

    method ConsiderSnapshot(m: Message)
      requires m.InstallSnapshot?
      modifies this`log, this`kv, this`snapshot, this`baseIndex, this`baseTerm, this`commitIndex, this`lastApplied, this`applied,
               this`logVersion, this`voters, this`configIndex, this`sent
      ensures View() == ConsideredSnapshot(old(View()), m) && (kv == old(kv) || fresh(kv))
    {
      hide Image, ProgressView, RequestView, ReadView, Replicas.Install;
      ImageLog();
      if m.lastIndex <= baseIndex {
        Send(m.leader, AppendReply(term, id, true, LastLogIndex()));
        return;
      }
      Install(ImageOf(m));
      Send(m.leader, AppendReply(term, id, true, m.lastIndex));
    }

    /** Replace everything up to the snapshot by its image, keeping a consistent tail. */
    method Install(s: Snapshot)
      requires s.lastIndex > baseIndex
      modifies this`log, this`kv, this`snapshot, this`baseIndex, this`baseTerm, this`commitIndex, this`lastApplied, this`applied,
               this`logVersion, this`voters, this`configIndex
      ensures Image() == Replicas.Install(old(Image()), s) && fresh(kv)
    {
      hide Replicas.RebuildConfig;
      ghost var r := Image();
      TakeImage(s);
      assert Image() == WithImage(r, s);
      RebuildConfig();
    }

    method TakeImage(s: Snapshot)
      requires s.lastIndex > baseIndex
      modifies this`log, this`kv, this`snapshot, this`baseIndex, this`baseTerm, this`commitIndex, this`lastApplied, this`applied,
               this`logVersion
      ensures log == if KeepsTail(old(Image()), s) then old(log)[s.lastIndex - old(baseIndex)..] else []
      ensures kv.View() == s.kv && fresh(kv) && snapshot == Some(s) && baseIndex == s.lastIndex && baseTerm == s.lastTerm
      ensures commitIndex == s.lastIndex && lastApplied == s.lastIndex && applied == [] && logVersion == old(logVersion) + 1
    {
      var keepTail := LastLogIndex() >= s.lastIndex && TermAtIndex(s.lastIndex) == s.lastTerm;
      log := if keepTail then log[s.lastIndex - baseIndex..] else [];
      kv := new KVStateMachine();
      kv.Restore(s.kv);
      snapshot := Some(s);
      baseIndex, baseTerm, logVersion := s.lastIndex, s.lastTerm, logVersion + 1;
      commitIndex, lastApplied, applied := s.lastIndex, s.lastIndex, [];
    }

    // ---- ReadIndex ----

    /** Record the commit index and ping the other voters; false if not a leader that has committed an
        entry of its own term. */
    method RequestRead(cmd: Command) returns (accepted: bool)
      modifies this`pendingReads, this`nextReadId, this`sent, this`reports
      ensures (View(), accepted) == NodeSpec.RequestRead(old(View()), cmd)
    {
      hide Image, ProgressView, RequestView, NodeSpec.TryServeRead;
      if !role.Leader? || !alive || !committedThisTerm {
        return false;
      }
      var readId := nextReadId;
      ImageLog();
      StartRead(cmd);
      PingVoters(readId);
      TryServeRead(readId);
      accepted := true;
    }

    method StartRead(cmd: Command)
      modifies this`pendingReads, this`nextReadId
      ensures ReadView() == ReadTable(old(pendingReads)[old(nextReadId) := PendingRead(cmd, commitIndex, {id})], old(nextReadId) + 1)
    {
      pendingReads, nextReadId := pendingReads[nextReadId := PendingRead(cmd, commitIndex, {id})], nextReadId + 1;
    }

    method PingVoters(readId: nat)
      modifies this`sent
      ensures View() == old(View()).(sent := old(sent) + HeartbeatPackets(old(View()), readId, OtherVoters(old(View()))))
    {
      hide ProgressView, RequestView, ReadView;
      ghost var n := View();
      var rest := voters - {id};
      ghost var done: set<NodeId> := {};
      while rest != {}
        invariant done + rest == OtherVoters(n) && done * rest == {}
        invariant View() == n.(sent := n.sent + HeartbeatPackets(n, readId, done))
      {
        var p :| p in rest;
        Send(p, ReadHeartbeat(term, id, readId));
        rest, done := rest - {p}, done + {p};
      }
      assert done == OtherVoters(n);
    }

    method OnReadHeartbeat(m: Message)
      requires m.ReadHeartbeat?
      modifies this`term, this`votedFor, this`role, this`pendingReads, this`leaderId, this`sent
      ensures View() == NodeSpec.OnReadHeartbeat(old(View()), m)
    {
      hide Image, ProgressView, RequestView, ReadView, NodeSpec.BecomeFollower;
      if m.term > term {
        BecomeFollower(m.term);
      }
      if m.term >= term {
        leaderId := Some(m.leader);
      }
      Send(m.leader, ReadAck(term, id, m.readId));
    }

    method OnReadAck(m: Message)
      requires m.ReadAck?
      modifies this`term, this`votedFor, this`role, this`pendingReads, this`reports
      ensures View() == NodeSpec.OnReadAck(old(View()), m)
    {
      hide Image, ProgressView, RequestView, NodeSpec.BecomeFollower, NodeSpec.TryServeRead;
      if m.term > term {
        BecomeFollower(m.term);
        return;
      }
      if m.readId !in pendingReads || m.term != term || !role.Leader? {
        return;
      }
      var p := pendingReads[m.readId];
      pendingReads := pendingReads[m.readId := p.(acks := p.acks + {m.follower})];
      assert View() == NoteAck(old(View()), m.readId, m.follower);
      TryServeRead(m.readId);
    }

    /** Serve the read from the local state once a majority has confirmed the leader's term. */
    method TryServeRead(readId: nat)
      modifies this`pendingReads, this`reports
      ensures View() == NodeSpec.TryServeRead(old(View()), readId)
    {
      hide ProgressView, RequestView;
      if readId !in pendingReads {
        return;
      }
      var p := pendingReads[readId];
      if |p.acks * voters| * 2 > |voters| && lastApplied >= p.index {
        pendingReads := pendingReads - {readId};
        var result := kv.ApplyRead(p.command);
        reports := reports + [ReadServed(readId, lastApplied, p.command, result)];
      }
    }

    // ---- dispatch ----

    /** What the lookups of the handlers need of a message and this server; it always holds in a
        cluster without snapshots (see LookupSafety). */
    ghost predicate Ready(m: Message)
      reads this, kv
    {
      && Bounded(Image()) && OtherVoters(View()) <= peers
      && (m.AppendReply? && role.Leader? && m.term == term && !m.success ==> CanSend(BackOff(View(), m.follower), m.follower))
    }

    method Handle(m: Message)
      requires alive ==> Ready(m)
      modifies this, kv
      ensures View() == NodeSpec.Handle(old(View()), m) && (kv == old(kv) || fresh(kv))
    {
      hide View, NodeSpec.OnRequestVote, NodeSpec.OnVoteReply, NodeSpec.OnAppendEntries, NodeSpec.OnAppendReply,
           NodeSpec.OnInstallSnapshot, NodeSpec.OnReadHeartbeat, NodeSpec.OnReadAck, Bounded, Image;
      ViewFacts();
      if !alive {
        return;
      }
      match m
      case RequestVote(_, _, _, _) => OnRequestVote(m);
      case VoteReply(_, _, _) => OnVoteReply(m);
      case AppendEntries(_, _, _, _, _, _) => OnAppendEntries(m);
      case AppendReply(_, _, _, _) => OnAppendReply(m);
      case InstallSnapshot(_, _, _, _, _, _, _) => OnInstallSnapshot(m);
      case ReadHeartbeat(_, _, _) => OnReadHeartbeat(m);
      case ReadAck(_, _, _) => OnReadAck(m);
    }

    lemma ViewFacts()
      ensures View().alive == alive && View().replica == Image() && View().replica.base == baseIndex
    {}
  }

  function ConsideredSnapshot(n: NodeState, m: Message): NodeState
    requires m.InstallSnapshot?
  {
    if m.lastIndex <= n.replica.base then NodeSpec.Send(n, m.leader, AppendReply(n.term, n.id, true, Last(n)))
    else NodeSpec.Send(n.(replica := Replicas.Install(n.replica, ImageOf(m))), m.leader, AppendReply(n.term, n.id, true, m.lastIndex))
  }

  /** Installation before the configuration is rebuilt. */
  function WithImage(r: Replica, s: Snapshot): Replica
    requires s.lastIndex > r.base
  {
    r.(log := if KeepsTail(r, s) then r.log[s.lastIndex - r.base..] else [],
       kv := s.kv, snapshot := Some(s), base := s.lastIndex, baseTerm := s.lastTerm,
       commit := s.lastIndex, lastApplied := s.lastIndex, applied := [], version := r.version + 1)
  }

  lemma {:induction false} CommitPointWithin(n: NodeState, k: nat)
    ensures CommitPoint(n, k) <= k || CommitPoint(n, k) == n.replica.commit
  {
    if k > n.replica.commit && TermAt(n.replica, k) == n.term && !QuorumHolds(n, k) { CommitPointWithin(n, k - 1); }
  }

  lemma HoldersOf(n: NodeState, k: nat, holders: set<NodeId>)
    requires holders == set v | v in n.replica.voters && (if v in n.progress.matchIndex then n.progress.matchIndex[v] else 0) >= k
    ensures QuorumHolds(n, k) == (|holders| * 2 > |n.replica.voters|)
  {
    assert holders == set v | v in n.replica.voters && MatchOf(n, v) >= k;
  }

  /** What a receiver does with entries once it has recognised their sender. */
  function Considered(n: NodeState, m: Message): NodeState
    requires m.AppendEntries?
  {
    if LogInconsistent(n, m) then NodeSpec.Send(n, m.leader, AppendReply(n.term, n.id, false, 0))
    else NodeSpec.Send(n.(replica := Absorb(n.replica, m)), m.leader, AppendReply(n.term, n.id, true, m.prevIndex + |m.entries|))
  }

  lemma ConsistentPrev(n: NodeState, m: Message)
    requires m.AppendEntries? && !LogInconsistent(n, m)
    ensures m.prevIndex <= Last(n)
  {}

  lemma LoopStart(r: Replica, prev: nat)
    ensures AppendLoop(r, prev, []) == r
  {}

  lemma AppendedBefore(n: NodeState, cmd: Command)
    ensures AlreadyAppended(n, cmd) == (cmd.IsStructured() && cmd.req <= HighestRequest(n.requests.highest, cmd.client))
  {}

  /** What goes to a peer does not depend on what was sent before. */
  lemma OutgoingIgnoresSent(n: NodeState, n': NodeState, p: NodeId)
    requires n' == n.(sent := n'.sent)
    ensures Outgoing(n', p) == Outgoing(n, p) && CanSend(n', p) == CanSend(n, p)
  {}

  lemma LeadCanBroadcast(n: NodeState)
    requires OtherVoters(n) <= n.peers
    ensures CanBroadcast(Lead(n))
  {
    hide ClientIndex;
  }

  lemma BroadcastMore(n: NodeState, done: set<NodeId>, p: NodeId)
    ensures BroadcastPackets(n, done + {p}) == BroadcastPackets(n, done) + Outgoing(n, p)
  {
    hide Outgoing;
  }

  lemma ApplyCommits(r: Replica, index: nat)
    ensures ApplyUpTo(r, index).(commit := index) == ApplyUpTo(r, index)
  {}

  lemma ApplyNothing(r: Replica)
    requires r.base <= r.lastApplied == r.commit
    ensures ApplyUpTo(r, r.commit) == r
  {
    assert NewlyCommitted(r, r.commit) == [];
  }

  /** One more applied entry. */
  lemma ApplyOneMore(r: Replica, k: nat)
    requires r.base <= r.lastApplied <= k < LastIndex(r)
    ensures var cmd, before, after := r.log[k - r.base].command, ApplyUpTo(r, k), ApplyUpTo(r, k + 1);
            after == before.(commit := k + 1, lastApplied := k + 1, applied := before.applied + [cmd],
                             kv := Kv.Apply(before.kv, cmd).0,
                             reports := before.reports + [Applied(k + 1, cmd, Kv.Apply(before.kv, cmd).1)])
  {
    var es := NewlyCommitted(r, k + 1);
    assert es[..|es| - 1] == NewlyCommitted(r, k);
  }
}
