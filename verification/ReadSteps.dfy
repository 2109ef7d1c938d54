/** How one event changes a server's unconfirmed reads, and what it sends about them
    (`request_read`, `_on_read_heartbeat`, `_on_read_ack`, `_try_serve_read`). */
module ReadSteps {
  import opened Types
  import opened Quorums
  import opened Logs
  import opened Kv
  import opened Replicas
  import opened NodeSpec
  import opened AppendSteps
  import opened Cluster

  /** Only a leader has unconfirmed reads, under ids it has handed out; served ids are old too. */
  predicate ReadsOK(n: NodeState) {
    && (forall id | id in n.readTable.pending :: id < n.readTable.nextId && n.role.Leader?)
    && (forall rep | rep in n.replica.reports && rep.ReadServed? :: rep.readId < n.readTable.nextId)
  }

  /** The server an acknowledgement of read `id` in the current term comes from. */
  function NewAcks(n: NodeState, e: Event, id: nat): set<NodeId> {
    if e.Deliver? && e.packet.msg.ReadAck? && e.packet.msg.readId == id && e.packet.msg.term == n.term
    then {e.packet.msg.follower} else {}
  }

  /** What read `id` can look like right after the event, before it is served. */
  predicate PendingAfter(n: NodeState, e: Event, id: nat, p: PendingRead) {
    || (id in n.readTable.pending
        && p.command == n.readTable.pending[id].command && p.index == n.readTable.pending[id].index
        && p.acks <= n.readTable.pending[id].acks + NewAcks(n, e, id))
    || (e.Read? && id == n.readTable.nextId && n.role.Leader? && n.alive && n.committedThisTerm
        && p == PendingRead(e.command, n.replica.commit, {n.id}))
  }

  /** A report of a served read comes from a read that a majority has confirmed. */
  ghost predicate ServedAfter(n: NodeState, e: Event, rep: Report) {
    rep.ReadServed? && exists p :: ServedFrom(n, e, rep, p)
  }

  predicate ServedFrom(n: NodeState, e: Event, rep: Report, p: PendingRead) {
    && rep.ReadServed? && PendingAfter(n, e, rep.readId, p) && n.role.Leader?
    && Majority(p.acks, n.replica.voters)
    && rep.index == n.replica.lastApplied >= p.index && rep.command == p.command
  }

  ghost predicate ReadStep(n: NodeState, e: Event, n': NodeState) {
    && n'.id == n.id && n'.term >= n.term && n'.readTable.nextId >= n.readTable.nextId
    && (forall id | id in n'.readTable.pending ::
         n'.role.Leader? && n'.term == n.term && id < n'.readTable.nextId && PendingAfter(n, e, id, n'.readTable.pending[id]))
    && n.replica.reports <= n'.replica.reports
    && (forall x | |n.replica.reports| <= x < |n'.replica.reports| && n'.replica.reports[x].ReadServed? ::
         ServedAfter(n, e, n'.replica.reports[x]) && n'.replica.reports[x].readId < n'.readTable.nextId)
  }

  // ---- handlers that do not touch reads ----

  /** No read is added, acknowledged or served; stepping down or restarting drops them all. */
  predicate NoReadProgress(n: NodeState, n': NodeState) {
    && n'.id == n.id && n'.term >= n.term && n'.readTable.nextId == n.readTable.nextId
    && (n'.readTable.pending == map[] || (n'.readTable == n.readTable && n'.role == n.role && n'.term == n.term))
    && n.replica.reports <= n'.replica.reports
    && (forall x | |n.replica.reports| <= x < |n'.replica.reports| :: n'.replica.reports[x].Applied?)
  }

  lemma NoProgressIsStep(n: NodeState, e: Event, n': NodeState)
    requires ReadsOK(n) && NoReadProgress(n, n')
    ensures ReadStep(n, e, n')
  {}

  lemma {:induction false} AppliedOnly(kv: KvState, from: nat, es: Log)
    ensures forall x | 0 <= x < |ApplyReports(kv, from, es)| :: ApplyReports(kv, from, es)[x].Applied?
  {
    if es != [] { AppliedOnly(kv, from, es[..|es| - 1]); }
  }

  lemma CommitAppliesOnly(r: Replica, index: nat)
    ensures r.reports <= SetCommit(r, index).reports
    ensures forall x | |r.reports| <= x < |SetCommit(r, index).reports| :: SetCommit(r, index).reports[x].Applied?
  {
    hide ConfigOf, Run, Commands;
    AppliedOnly(r.kv, r.lastApplied, NewlyCommitted(r, index));
  }

  lemma LoopReportsNothing(r: Replica, prev: nat, es: Log)
    ensures AppendLoop(r, prev, es).reports == r.reports
  {
    hide AppendLoop;
    LoopFrame(r, prev, es);
  }

  lemma AppendReadStep(n: NodeState, m: Message)
    requires m.AppendEntries? && ReadsOK(n)
    ensures NoReadProgress(n, OnAppendEntries(n, m))
  {
    hide AppendLoop, SetCommit;
    if m.term >= n.term && !LogInconsistent(Recognise(n, m.term, m.leader), m) {
      LoopReportsNothing(n.replica, m.prevIndex, m.entries);
      var r := AppendLoop(n.replica, m.prevIndex, m.entries);
      CommitAppliesOnly(r, Largest(r.commit, Least(m.leaderCommit, m.prevIndex + |m.entries|)));
    }
  }

  lemma ReplyReadStep(n: NodeState, m: Message)
    requires m.AppendReply? && ReadsOK(n)
    ensures NoReadProgress(n, OnAppendReply(n, m))
  {
    hide SetCommit, CommitPoint, Outgoing;
    var n1 := NoteMatch(n, m.follower, m.matchIndex);
    CommitAppliesOnly(n.replica, CommitPoint(n1, Last(n1)));
  }

  lemma OtherReadStep(n: NodeState, m: Message)
    requires ReadsOK(n) && (m.RequestVote? || m.VoteReply? || m.InstallSnapshot? || m.ReadHeartbeat?)
    ensures NoReadProgress(n, Handle(n, m))
  {
    hide BroadcastPackets, ClientIndex, Majority, ConfigOf, LatestConfig;
  }

  lemma LocalReadStep(n: NodeState, e: Event)
    requires ReadsOK(n) && !e.Deliver? && !e.Read? && (e.Client? ==> !e.command.Config?)
    ensures NoReadProgress(n, Act(n, e))
  {
    hide ConfigOf, LatestConfig, BroadcastPackets, ClientIndex, Majority, OneApart, SolicitPackets;
  }

  // ---- reads ----

  lemma AckReadStep(n: NodeState, e: Event)
    requires ReadsOK(n) && n.alive && e.Deliver? && e.packet.msg.ReadAck?
    ensures ReadStep(n, e, OnReadAck(n, e.packet.msg))
  {
    hide Majority, ApplyRead;
    var m := e.packet.msg;
    if m.term == n.term && m.readId in n.readTable.pending && n.role.Leader? {
      var n1 := NoteAck(n, m.readId, m.follower);
      var p := n1.readTable.pending[m.readId];
      assert PendingAfter(n, e, m.readId, p);
      if ReadConfirmed(n1, m.readId) { assert ServedFrom(n, e, ServedReport(n1, m.readId), p); }
      assert OnReadAck(n, m) == TryServeRead(n1, m.readId);
    }
  }

  function ServedReport(n: NodeState, id: nat): Report
    requires id in n.readTable.pending
  {
    var cmd := n.readTable.pending[id].command;
    ReadServed(id, n.replica.lastApplied, cmd, ApplyRead(n.replica.kv, cmd))
  }

  lemma RequestReadStep(n: NodeState, e: Event)
    requires ReadsOK(n) && e.Read?
    ensures ReadStep(n, e, RequestRead(n, e.command).0)
  {
    hide Majority, ApplyRead, HeartbeatPackets;
    if n.role.Leader? && n.alive && n.committedThisTerm {
      var id := n.readTable.nextId;
      var p := PendingRead(e.command, n.replica.commit, {n.id});
      var n1 := n.(readTable := ReadTable(n.readTable.pending[id := p], id + 1),
                   sent := n.sent + HeartbeatPackets(n, id, OtherVoters(n)));
      assert PendingAfter(n, e, id, p);
      if ReadConfirmed(n1, id) { assert ServedFrom(n, e, ServedReport(n1, id), p); }
    }
  }

  /** One event: reads are only added by requests, acknowledged by delivered acks, served when confirmed,
      and dropped; a server with unconfirmed reads stays the leader of its term. */
  lemma ActReadStep(n: NodeState, e: Event)
    requires ReadsOK(n) && (e.Client? ==> !e.command.Config?)
    ensures ReadStep(n, e, Act(n, e)) && ReadsOK(Act(n, e))
  {
    hide ReadStep, NoReadProgress, OnRequestVote, OnVoteReply, OnAppendEntries, OnAppendReply, OnInstallSnapshot,
         OnReadHeartbeat, OnReadAck, RequestRead, ClientCommand, ChangeConfig, Pause, ElectionTimeout, HeartbeatTick, ReadsOK, PendingAfter, Majority;
    var n' := Act(n, e);
    if e.Deliver? && n.alive {
      match e.packet.msg
      case AppendEntries(_, _, _, _, _, _) => AppendReadStep(n, e.packet.msg); NoProgressIsStep(n, e, n');
      case AppendReply(_, _, _, _) => ReplyReadStep(n, e.packet.msg); NoProgressIsStep(n, e, n');
      case ReadAck(_, _, _) => AckReadStep(n, e);
      case _ => OtherReadStep(n, e.packet.msg); NoProgressIsStep(n, e, n');
    } else if e.Deliver? {
      NothingIsNoProgress(n);
      NoProgressIsStep(n, e, n');
    } else if e.Read? {
      RequestReadStep(n, e);
    } else {
      LocalReadStep(n, e);
      NoProgressIsStep(n, e, n');
    }
    ReadsStayOK(n, e, n');
  }

  lemma NothingIsNoProgress(n: NodeState)
    ensures NoReadProgress(n, n)
  {}

  lemma ReadsStayOK(n: NodeState, e: Event, n': NodeState)
    requires ReadsOK(n) && ReadStep(n, e, n')
    ensures ReadsOK(n')
  {
    forall rep | rep in n'.replica.reports && rep.ReadServed? ensures rep.readId < n'.readTable.nextId {
      var x :| 0 <= x < |n'.replica.reports| && n'.replica.reports[x] == rep;
      if x < |n.replica.reports| { assert n.replica.reports[x] == rep; }
    }
  }

  // ---- read messages ----

  /** New pings carry fresh ids of their sender; new acks answer the delivered ping. */
  predicate ReadMessages(n: NodeState, e: Event, n': NodeState) {
    && n.sent <= n'.sent
    && (forall pk | pk in n'.sent && pk !in n.sent && pk.msg.ReadHeartbeat? ::
         pk.msg.leader == n.id && n.readTable.nextId <= pk.msg.readId < n'.readTable.nextId)
    && (forall pk | pk in n'.sent && pk !in n.sent && pk.msg.ReadAck? ::
         && e.Deliver? && e.packet.msg.ReadHeartbeat? && e.packet.msg.leader == pk.dst && e.packet.msg.readId == pk.msg.readId
         && pk.msg.follower == n.id && pk.msg.term == n'.term)
  }

  lemma DeliveredReadMessages(n: NodeState, e: Event)
    requires e.Deliver?
    ensures ReadMessages(n, e, Act(n, e))
  {
    hide Absorb, SetCommit, CommitPoint, Install, LogInconsistent, ReadConfirmed, ConfigOf, LatestConfig, Majority, OneApart,
         MaybeWin, ClientCommand, ChangeConfig, RequestRead, ElectionTimeout, HeartbeatTick, Pause, ClientIndex;
    if n.alive {
      match e.packet.msg
      case VoteReply(_, v, _) => WinSendsNoReads(n.(votes := n.votes + {v}));
      case _ =>
    }
  }

  lemma ElectionReadMessages(n: NodeState, e: Event)
    ensures ReadMessages(n, e, ElectionTimeout(n))
  {
    hide MaybeWin;
    var c := Campaign(n);
    WinSendsNoReads(c.(sent := c.sent + SolicitPackets(c, OtherVoters(c))));
  }

  lemma ActReadMessages(n: NodeState, e: Event)
    requires e.Client? ==> !e.command.Config?
    ensures ReadMessages(n, e, Act(n, e))
  {
    hide ReadConfirmed, ConfigOf, LatestConfig, Majority, OneApart, ClientIndex, AlreadyAppended, Handle, ElectionTimeout;
    if e.Deliver? {
      DeliveredReadMessages(n, e);
    } else if e.Timeout? {
      ElectionReadMessages(n, e);
    }
  }

  lemma WinSendsNoReads(n: NodeState)
    ensures MaybeWin(n).sent == n.sent || (forall pk | pk in MaybeWin(n).sent && pk !in n.sent :: pk.msg.AppendEntries? || pk.msg.InstallSnapshot?)
    ensures MaybeWin(n).id == n.id && n.sent <= MaybeWin(n).sent
  {
    hide ClientIndex, Majority;
  }
}
