/** ReadIndex reads are linearizable: a served read reflects everything any server had committed when
    the read was requested (section 8 of the Raft paper, section 6.4 of Ongaro's dissertation). */
module ReadIndex {
  import opened Types
  import opened Quorums
  import opened Logs
  import opened Replicas
  import opened NodeSpec
  import opened Protocol
  import opened ProtocolSteps
  import opened NodeRefinement
  import opened Cluster
  import opened ClusterSafety
  import opened CommitRule
  import opened ReadSteps
  import opened ReadSafety

  // ---- read ids are fresh over a whole run ----

  /** Pings and acks in the network carry ids their leader has already handed out. */
  predicate IdsUsed(c: Cluster) {
    && (forall i | i in c.nodes :: c.nodes[i].id == i && ReadsOK(c.nodes[i]))
    && (forall i, pk | i in c.nodes && pk in c.nodes[i].sent :: IdUsed(c, pk))
  }

  predicate IdUsed(c: Cluster, pk: Packet) {
    && (pk.msg.ReadHeartbeat? ==> pk.msg.leader in c.nodes && pk.msg.readId < c.nodes[pk.msg.leader].readTable.nextId)
    && (pk.msg.ReadAck? ==> pk.dst in c.nodes && pk.msg.readId < c.nodes[pk.dst].readTable.nextId)
  }

  lemma StartIdsUsed(c: Cluster)
    requires Starts(c)
    ensures IdsUsed(c)
  {}

  lemma StepReads(c: Cluster, e: Event, c': Cluster)
    requires StepBy(c, e, c') && IdsUsed(c)
    ensures ReadStep(c.nodes[Actor(e)], e, c'.nodes[Actor(e)]) && ReadsOK(c'.nodes[Actor(e)])
    ensures ReadMessages(c.nodes[Actor(e)], e, c'.nodes[Actor(e)])
  {
    hide ReadStep, ReadMessages, ReadsOK, Act, Sent;
    ActReadStep(c.nodes[Actor(e)], e);
    ActReadMessages(c.nodes[Actor(e)], e);
  }

  /** What one step means for the other servers' view of read ids. */
  lemma ReadStepFacts(n: NodeState, e: Event, n': NodeState)
    requires ReadStep(n, e, n')
    ensures n'.id == n.id && n'.term >= n.term && n'.readTable.nextId >= n.readTable.nextId && n.replica.reports <= n'.replica.reports
  {}

  lemma StepIdsUsed(c: Cluster, e: Event, c': Cluster)
    requires StepBy(c, e, c') && IdsUsed(c)
    ensures IdsUsed(c')
  {
    hide ReadStep, ReadsOK, Act;
    StepReads(c, e, c');
    var i := Actor(e);
    ReadStepFacts(c.nodes[i], e, c'.nodes[i]);
    forall j, pk | j in c'.nodes && pk in c'.nodes[j].sent ensures IdUsed(c', pk) {
      if pk in c.nodes[j].sent { assert IdUsed(c, pk); }
      else if pk.msg.ReadAck? {
        var l :| l in c.nodes && e.packet in c.nodes[l].sent;
        assert IdUsed(c, e.packet);
      }
    }
  }

  lemma {:induction false} RunIdsUsed(r: Execution, k: nat)
    requires IsRun(r) && k < |r.states|
    ensures IdsUsed(r.states[k])
  {
    hide StepBy, IdsUsed, Starts;
    if k == 0 {
      StartIdsUsed(r.states[0]);
    } else {
      RunIdsUsed(r, k - 1);
      StepIdsUsed(r.states[k - 1], r.events[k - 1], r.states[k]);
    }
  }

  /** Terms, handed-out read ids and reports only grow. */
  lemma {:induction false} Monotone(r: Execution, x: nat, y: nat, i: NodeId)
    requires At(r, x, i) && x <= y < |r.states|
    ensures At(r, y, i) && NodeAt(r, x, i).term <= NodeAt(r, y, i).term && NodeAt(r, y, i).id == i
    ensures NodeAt(r, x, i).readTable.nextId <= NodeAt(r, y, i).readTable.nextId
    ensures NodeAt(r, x, i).replica.reports <= NodeAt(r, y, i).replica.reports
    decreases y
  {
    hide StepBy, ReadStep, Starts, ReadsOK, ReadMessages, IdUsed;
    RunIdsUsed(r, y);
    if x < y {
      Monotone(r, x, y - 1, i);
      StepChanges(r, y - 1);
      RunIdsUsed(r, y - 1);
      StepReads(r.states[y - 1], r.events[y - 1], r.states[y]);
      if i == Actor(r.events[y - 1]) { ReadStepFacts(NodeAt(r, y - 1, i), r.events[y - 1], NodeAt(r, y, i)); }
    }
  }

  // ---- following one read ----

  /** Server i takes on a read at moment x. */
  predicate Requested(r: Execution, x: nat, i: NodeId) {
    && At(r, x, i) && x < |r.events| && r.events[x].Read? && r.events[x].node == i
    && NodeAt(r, x, i).role.Leader? && NodeAt(r, x, i).alive && NodeAt(r, x, i).committedThisTerm
  }

  function ReadId(r: Execution, x: nat, i: NodeId): nat
    requires At(r, x, i)
  {
    NodeAt(r, x, i).readTable.nextId
  }

  function TermOf(r: Execution, x: nat, i: NodeId): nat
    requires At(r, x, i)
  {
    NodeAt(r, x, i).term
  }

  /** At moment x server v had not moved past term t. */
  predicate BelowAt(r: Execution, x: nat, v: NodeId, t: nat) {
    At(r, x, v) && NodeAt(r, x, v).term <= t
  }

  /** Acks of the read were all sent after moment x, by servers still in or below the ack's term. */
  predicate AcksLate(r: Execution, x: nat, y: nat, i: NodeId)
    requires At(r, x, i) && y < |r.states|
  {
    forall j, pk | j in r.states[y].nodes && pk in r.states[y].nodes[j].sent && AckFor(pk, i, ReadId(r, x, i)) ::
      BelowAt(r, x, pk.msg.follower, pk.msg.term)
  }

  predicate AckFor(pk: Packet, i: NodeId, id: nat) {
    pk.msg.ReadAck? && pk.dst == i && pk.msg.readId == id
  }

  lemma NoAcksYet(c: Cluster, i: NodeId)
    requires IdsUsed(c) && i in c.nodes
    ensures forall j, pk | j in c.nodes && pk in c.nodes[j].sent :: !AckFor(pk, i, c.nodes[i].readTable.nextId)
  {
    forall j, pk | j in c.nodes && pk in c.nodes[j].sent ensures !AckFor(pk, i, c.nodes[i].readTable.nextId) {
      assert IdUsed(c, pk);
    }
  }

  lemma {:induction false} AcksAreLate(r: Execution, x: nat, y: nat, i: NodeId)
    requires At(r, x, i) && x <= y < |r.states|
    ensures AcksLate(r, x, y, i)
    decreases y
  {
    hide StepBy, Starts, ReadStep, ReadsOK;
    RunIdsUsed(r, y);
    if x == y {
      NoAcksYet(r.states[x], i);
    } else {
      AcksAreLate(r, x, y - 1, i);
      StepChanges(r, y - 1);
      RunIdsUsed(r, y - 1);
      StepReads(r.states[y - 1], r.events[y - 1], r.states[y]);
      forall j, pk | j in r.states[y].nodes && pk in r.states[y].nodes[j].sent && AckFor(pk, i, ReadId(r, x, i))
        ensures BelowAt(r, x, pk.msg.follower, pk.msg.term)
      {
        if pk !in r.states[y - 1].nodes[j].sent {
          ServersStay(r, x, y - 1);
          Monotone(r, x, y, j);
        }
      }
    }
  }

  lemma {:induction false} ServersStay(r: Execution, x: nat, y: nat)
    requires IsRun(r) && x <= y < |r.states|
    ensures r.states[y].nodes.Keys == r.states[x].nodes.Keys
    decreases y
  {
    hide StepBy, Starts;
    if x < y {
      ServersStay(r, x, y - 1);
      StepChanges(r, y - 1);
    }
  }

  /** The read as its leader remembers it at moment y. */
  predicate Tracks(r: Execution, x: nat, y: nat, i: NodeId, p: PendingRead)
    requires Requested(r, x, i)
  {
    && p.command == r.events[x].command && p.index == NodeAt(r, x, i).replica.commit
    && LeadsAt(r, y, i, TermOf(r, x, i))
    && forall v | v in p.acks :: BelowAt(r, x, v, TermOf(r, x, i))
  }

  /** What backs a served read: at some moment w its leader still led the same term, and a majority of
      its configuration then had not moved past that term when the read was requested. */
  predicate Confirmed(r: Execution, x: nat, w: nat, i: NodeId, q: set<NodeId>)
    requires At(r, x, i)
  {
    && x <= w && LeadsAt(r, w, i, TermOf(r, x, i))
    && Majority(q, NodeAt(r, w, i).replica.voters)
    && forall v | v in q :: BelowAt(r, x, v, TermOf(r, x, i))
  }

  ghost predicate ServedWell(r: Execution, x: nat, y: nat, i: NodeId, rep: Report)
    requires Requested(r, x, i)
  {
    && rep.ReadServed?
    && rep.index >= NodeAt(r, x, i).replica.commit && rep.command == r.events[x].command
    && exists w: nat, q :: w <= y && Confirmed(r, x, w, i, q)
  }

  ghost predicate Followed(r: Execution, x: nat, y: nat, i: NodeId)
    requires Requested(r, x, i)
  {
    && At(r, y, i)
    && (ReadId(r, x, i) in NodeAt(r, y, i).readTable.pending ==>
         Tracks(r, x, y, i, NodeAt(r, y, i).readTable.pending[ReadId(r, x, i)]))
    && (forall rep | rep in NodeAt(r, y, i).replica.reports && rep.ReadServed? && rep.readId == ReadId(r, x, i) ::
         ServedWell(r, x, y, i, rep))
  }

  lemma RequestTakesId(n: NodeState, cmd: Command)
    requires n.role.Leader? && n.alive && n.committedThisTerm
    ensures RequestRead(n, cmd).0.readTable.nextId == n.readTable.nextId + 1
  {
    hide ReadConfirmed, HeartbeatPackets;
  }

  lemma IdTaken(r: Execution, x: nat, y: nat, i: NodeId)
    requires Requested(r, x, i) && x < y < |r.states|
    ensures At(r, y, i) && ReadId(r, x, i) < NodeAt(r, y, i).readTable.nextId
  {
    hide IsRun, RequestRead, Starts;
    StepChanges(r, x) by { assert IsRun(r); }
    RequestTakesId(NodeAt(r, x, i), r.events[x].command);
    Monotone(r, x + 1, y, i);
  }

  /** Whatever the read looks like in the middle of an event, its acks are still from servers that had
      not moved past the term when it was requested. */
  lemma AcksStayLate(r: Execution, x: nat, y: nat, i: NodeId, p: PendingRead)
    requires Requested(r, x, i) && x <= y < |r.events| && Followed(r, x, y, i) && Actor(r.events[y]) == i
    requires PendingAfter(NodeAt(r, y, i), r.events[y], ReadId(r, x, i), p)
    ensures Tracks(r, x, y, i, p)
  {
    hide StepBy, Starts, IdUsed, ReadStep, Majority, IsRun;
    var n, e, id := NodeAt(r, y, i), r.events[y], ReadId(r, x, i);
    assert IsRun(r) && IdsUsed(r.states[x]) by { RequestedRun(r, x, i); RunIdsUsed(r, x); }
    if x < y { IdTaken(r, x, y, i); }
    AcksAreLate(r, x, y, i);
    forall v | v in p.acks ensures BelowAt(r, x, v, TermOf(r, x, i)) {
      if e.Deliver? && v in NewAcks(n, e, id) {
        assert Sent(r.states[y], e.packet) by { StepChanges(r, y); }
        assert AckFor(e.packet, i, id);
      }
    }
  }

  lemma RequestedRun(r: Execution, x: nat, i: NodeId)
    requires Requested(r, x, i)
    ensures IsRun(r) && At(r, x, i)
  {}

  lemma ServingIsBacked(r: Execution, x: nat, y: nat, i: NodeId, rep: Report)
    requires Requested(r, x, i) && x <= y < |r.events| && Followed(r, x, y, i) && Actor(r.events[y]) == i
    requires ServedAfter(NodeAt(r, y, i), r.events[y], rep) && rep.readId == ReadId(r, x, i)
    ensures ServedWell(r, x, y + 1, i, rep)
  {
    hide IsRun, Followed, Requested, Majority, BelowAt, PendingAfter, LeadsAt;
    RequestedRun(r, x, i);
    assert At(r, y, i) by { FollowedAt(r, x, y, i); }
    var p :| ServedFrom(NodeAt(r, y, i), r.events[y], rep, p);
    AcksStayLate(r, x, y, i, p);
    assert Confirmed(r, x, y, i, p.acks);
  }

  lemma FollowedAt(r: Execution, x: nat, y: nat, i: NodeId)
    requires Requested(r, x, i) && Followed(r, x, y, i)
    ensures At(r, y, i)
  {}

  lemma ReadStepPending(n: NodeState, e: Event, n': NodeState, id: nat)
    requires ReadStep(n, e, n') && id in n'.readTable.pending
    ensures n'.role.Leader? && n'.term == n.term && PendingAfter(n, e, id, n'.readTable.pending[id])
  {}

  lemma ReadStepServed(n: NodeState, e: Event, n': NodeState, rep: Report)
    requires ReadStep(n, e, n') && rep in n'.replica.reports && rep.ReadServed? && rep !in n.replica.reports
    ensures ServedAfter(n, e, rep)
  {
    hide ServedAfter, PendingAfter;
    assert forall z | 0 <= z < |n.replica.reports| :: n'.replica.reports[z] in n.replica.reports;
    var x :| 0 <= x < |n'.replica.reports| && n'.replica.reports[x] == rep;
    assert x >= |n.replica.reports|;
  }

  lemma FollowedStep(r: Execution, x: nat, y: nat, i: NodeId)
    requires Requested(r, x, i) && x <= y < |r.events| && Followed(r, x, y, i)
    ensures Followed(r, x, y + 1, i)
  {
    hide StepBy, Starts, ReadStep, ReadsOK, Majority, IsRun, Tracks, ServedWell, ServedAfter, Requested, ReadMessages, IdsUsed;
    RequestedRun(r, x, i);
    StepChanges(r, y);
    RunIdsUsed(r, y);
    StepReads(r.states[y], r.events[y], r.states[y + 1]);
    Monotone(r, y, y + 1, i);
    var n, n', id := NodeAt(r, y, i), NodeAt(r, y + 1, i), ReadId(r, x, i);
    if id in n'.readTable.pending {
      if i == Actor(r.events[y]) {
        ReadStepPending(n, r.events[y], n', id);
        AcksStayLate(r, x, y, i, n'.readTable.pending[id]);
      }
      StillTracked(r, x, y, i, n'.readTable.pending[id]);
    }
    forall rep | rep in n'.replica.reports && rep.ReadServed? && rep.readId == id ensures ServedWell(r, x, y + 1, i, rep) {
      if rep in n.replica.reports {
        StillServedWell(r, x, y, i, rep);
      } else {
        ReadStepServed(n, r.events[y], n', rep);
        ServingIsBacked(r, x, y, i, rep);
      }
    }
  }

  lemma StillTracked(r: Execution, x: nat, y: nat, i: NodeId, p: PendingRead)
    requires Requested(r, x, i) && Tracks(r, x, y, i, p) && At(r, y, i) && At(r, y + 1, i)
    requires NodeAt(r, y + 1, i) == NodeAt(r, y, i)
             || (NodeAt(r, y + 1, i).role.Leader? && NodeAt(r, y + 1, i).term == NodeAt(r, y, i).term)
    ensures Tracks(r, x, y + 1, i, p)
  {}

  lemma StillServedWell(r: Execution, x: nat, y: nat, i: NodeId, rep: Report)
    requires Requested(r, x, i) && ServedWell(r, x, y, i, rep)
    ensures ServedWell(r, x, y + 1, i, rep)
  {
    var w: nat, q :| w <= y && Confirmed(r, x, w, i, q);
    assert w <= y + 1 && Confirmed(r, x, w, i, q);
  }

  lemma {:induction false} FollowRead(r: Execution, x: nat, y: nat, i: NodeId)
    requires Requested(r, x, i) && x <= y < |r.states|
    ensures Followed(r, x, y, i)
    decreases y
  {
    hide StepBy, Starts, ServedWell, Tracks;
    if x == y {
      RunIdsUsed(r, x);
    } else {
      FollowRead(r, x, y - 1, i);
      FollowedStep(r, x, y - 1, i);
    }
  }

  // ---- the theorem ----

  lemma BelowHasNotVoted(r: Execution, ss: seq<State>, x: nat, v: NodeId, t: nat)
    requires BelowAt(r, x, v, t) && ShadowRun(r, ss)
    ensures x < |ss| && StaysBelow(ss[x].h, v, t)
  {
    hide IsRun, ShadowRun, HistoryOK, Genuine, LeaderOK, CandidateOK, Reflects, Covered, Uncompacted;
    RunLength(r, ss);
    NodeFacts(r, ss, x, v);
  }

  lemma RequestCommit(r: Execution, ss: seq<State>, x: nat, i: NodeId) returns (c: Commit)
    requires Requested(r, x, i) && ShadowRun(r, ss)
    ensures x < |ss| && c in ss[x].h.commits && c.term == TermOf(r, x, i) && c.index == NodeAt(r, x, i).replica.commit
    ensures forall d | d in ss[x].h.commits && d.term == c.term :: d.index <= c.index
  {
    hide IsRun, ShadowRun, HistoryOK, Genuine, UsesSlotsUpTo, CandidateOK, Reflects, Covered, Uncompacted;
    RunLength(r, ss);
    NodeFacts(r, ss, x, i);
    var n := NodeAt(r, x, i);
    c :| c in ss[x].h.commits && c.term == n.term && c.index == n.replica.commit;
  }

  /** A confirmed read was requested when its leader already knew the latest commit. */
  lemma ConfirmedIsLatest(r: Execution, x: nat, w: nat, i: NodeId, q: set<NodeId>, d: Commit, ss: seq<State>)
    requires Requested(r, x, i) && Confirmed(r, x, w, i, q) && ShadowRun(r, ss)
    requires x < |ss| && d in ss[x].h.commits
    ensures d.index <= NodeAt(r, x, i).replica.commit
  {
    hide IsRun, ShadowRun, HistoryOK, Majority, Grows, Requested, BelowAt, StaysBelow, ConfigOf, LatestConfig;
    RequestedRun(r, x, i);
    var t := TermOf(r, x, i);
    var c := RequestCommit(r, ss, x, i);
    RunLength(r, ss);
    AtRun(r, w, i, t);
    LeaderFacts(r, ss, w, i, t);
    MembershipIsDerived(r, w, i);
    InitialFixed(r, ss, w);
    InitialFixed(r, ss, x);
    HistoryHolds(r, ss, x);
    Growing(r, ss, x, w);
    forall v | v in q ensures StaysBelow(ss[x].h, v, t) { BelowHasNotVoted(r, ss, x, v, t); }
    NoNewerLeader(ss[x].initial, ss[x].h, ss[w].h, c, q, d.term);
    CommitFacts(ss[x].initial, ss[x].h, d);
    OwnCommitIsLatest(ss[x].initial, ss[x].h, c, d);
  }

  /** ReadIndex: whenever a read requested at moment x has been served, its index is at least every
      commit index any server had reached by then, whatever crashes, elections and configuration
      changes happen in between; and it answers the command that was asked. */
  lemma ReadsAreFresh(r: Execution, x: nat, y: nat, i: NodeId, rep: Report, j: nat, v: NodeId)
    requires Requested(r, x, i) && x <= y && At(r, y, i)
    requires rep in NodeAt(r, y, i).replica.reports && rep.ReadServed? && rep.readId == ReadId(r, x, i)
    requires j <= x && At(r, j, v)
    ensures rep.index >= NodeAt(r, j, v).replica.commit && rep.command == r.events[x].command
  {
    hide IsRun, ShadowRun, Requested, Confirmed;
    RequestedRun(r, x, i);
    FollowRead(r, x, y, i);
    var w: nat, q :| w <= y && Confirmed(r, x, w, i, q);
    var ss := RunShadowed(r);
    RunLength(r, ss);
    CommittedAgreed(r, ss, j, v);
    CommittedAgreedLater(r, ss, j, x, v);
    if NodeAt(r, j, v).replica.commit > 0 {
      var d :| AgreedBy(ss[x].h, CommittedAt(r, j, v), NodeAt(r, j, v).term, d);
      ConfirmedIsLatest(r, x, w, i, q, d, ss);
    }
  }
}
