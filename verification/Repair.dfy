/** Log repair always gets there: from every state a run has reached, a live leader can bring any live voter whose
    term is not newer to hold its whole log and know its commit index, by exchanging updates and replies alone
    (raftverified/node.py, `_on_append_entries`, `_on_append_reply`; section 5.3 of the Raft paper). */
module Repair {
  import opened Types
  import opened Logs
  import opened Replicas
  import opened NodeSpec
  import opened NodeRefinement
  import opened AppendSteps
  import opened Recovery
  import opened Cluster
  import opened Protocol
  import opened ClusterSafety
  import opened CommitRule
  import opened LookupSafety
  import opened LogVersions
  import opened Replication
  import opened Rounds
  import opened HandlerLaws
  import opened Journeys
  import opened Elections

  /** The log a follower ends up with: its own if the leader's is the beginning of it, else the leader's. */
  function Repaired(log: Log, leader: Log): Log { if leader <= log then log else leader }

  // ---- the leader ----

  predicate CanUpdate(n: NodeState, f: NodeId) {
    f in n.progress.nextIndex && 1 <= n.progress.nextIndex[f] <= |n.replica.log| + 1
  }

  /** The update that comes from the follower's next index. */
  function Offer(n: NodeState, f: NodeId): Packet
    requires CanUpdate(n, f)
  {
    var log, prev := n.replica.log, n.progress.nextIndex[f] - 1;
    Packet(n.id, f, AppendEntries(n.term, n.id, prev, LastTerm(log[..prev]), log[prev..], n.replica.commit))
  }

  predicate Offered(n: NodeState, t: nat, f: NodeId) {
    InOffice(n, t) && CanUpdate(n, f) && Offer(n, f) in n.sent
  }

  lemma UpdateIsOffer(n: NodeState, f: NodeId, pk: Packet)
    requires n.replica.base == 0 && IsUpdate(n, n.replica.log, f, pk)
    ensures CanUpdate(n, f) && pk == Offer(n, f)
  {}

  lemma SaneFacts(n: NodeState, i: NodeId, ids: set<NodeId>, initial: set<NodeId>)
    requires Sane(n, i, ids, initial)
    ensures n.id == i && n.replica.base == 0 && n.replica.threshold <= 0 && Represents(n.replica, n.replica.log)
    ensures n.replica.commit == n.replica.lastApplied <= |n.replica.log|
    ensures Last(n) == |n.replica.log| && forall k | 0 < k <= |n.replica.log| :: TermAt(n.replica, k) == n.replica.log[k - 1].term
    ensures n.role.Leader? ==> forall f | f in ids && f != i :: CanUpdate(n, f)
  {
    hide Represents;
    UncompactedFacts(n, initial);
  }

  lemma HeartbeatOffers(n: NodeState, i: NodeId, ids: set<NodeId>, initial: set<NodeId>, t: nat, f: NodeId)
    requires Sane(n, i, ids, initial) && InOffice(n, t) && n.replica.voters <= ids && f in n.replica.voters && f != i
    ensures var n' := HeartbeatTick(n);
            n' == n.(sent := n'.sent) && n.sent <= n'.sent && Offered(n', t, f)
  {
    hide Represents, IsUpdate, Outgoing;
    SaneFacts(n, i, ids, initial);
    hide Uncompacted;
    forall p | p in OtherVoters(n) ensures CanSend(n, p) && n.progress.nextIndex[p] >= 1 { assert CanUpdate(n, p); }
    HeartbeatIsExact(n, n.replica.log);
    var pk :| pk in HeartbeatTick(n).sent && IsUpdate(n, n.replica.log, f, pk);
    UpdateIsOffer(n, f, pk);
  }

  lemma RefusalOffers(n: NodeState, i: NodeId, ids: set<NodeId>, initial: set<NodeId>, t: nat, f: NodeId)
    requires Sane(n, i, ids, initial) && InOffice(n, t) && CanUpdate(n, f) && n.progress.nextIndex[f] > 1
    ensures var n' := Handle(n, AppendReply(t, f, false, 0));
            && n' == n.(progress := n'.progress, sent := n'.sent) && n'.progress.matchIndex == n.progress.matchIndex
            && Offered(n', t, f) && n'.progress.nextIndex[f] == n.progress.nextIndex[f] - 1
  {
    hide Represents, IsUpdate, Handle;
    SaneFacts(n, i, ids, initial);
    var m := AppendReply(t, f, false, 0);
    RefusalBacksOff(n, n.replica.log, m);
    var n' := Handle(n, m);
    var pk :| IsUpdate(n', n.replica.log, f, pk) && n'.sent == n.sent + {pk};
    UpdateIsOffer(n', f, pk);
  }

  /** The servers of the configuration known to hold the first k entries. */
  function Holders(n: NodeState, k: nat): set<NodeId> {
    set v | v in n.replica.voters && v in n.progress.matchIndex && n.progress.matchIndex[v] >= k
  }

  /** The leader notes a follower that holds everything, and commits everything once more than half of its
      configuration is known to hold it and its last entry is of its own term. */
  lemma CountsHolder(n: NodeState, i: NodeId, ids: set<NodeId>, initial: set<NodeId>, t: nat, f: NodeId)
    requires Sane(n, i, ids, initial) && InOffice(n, t)
    ensures var n', size := Handle(n, AppendReply(t, f, true, |n.replica.log|)), |n.replica.log|;
            && InOffice(n', t) && SameLog(n, n') && n'.id == n.id && n.sent <= n'.sent
            && (forall v | v in n.progress.matchIndex :: v in n'.progress.matchIndex && n'.progress.matchIndex[v] >= n.progress.matchIndex[v])
            && f in n'.progress.matchIndex && n'.progress.matchIndex[f] >= size
            && n.replica.commit <= n'.replica.commit <= size && (n.committedThisTerm ==> n'.committedThisTerm)
            && (n'.replica.commit == n.replica.commit || n'.committedThisTerm)
            && (size > 0 && n.replica.log[size - 1].term == t && MostOf(Holders(n', size), n.replica.voters) && n.replica.commit < size ==>
                  n'.replica.commit == size && n'.committedThisTerm)
  {
    hide Represents, SetCommit;
    SaneFacts(n, i, ids, initial);
    hide Uncompacted;
    var n1 := NoteMatch(n, f, |n.replica.log|);
    var k := CommitPoint(n1, Last(n1));
    CommitPointBounds(n1, Last(n1));
    SetCommitFields(n.replica, k);
    if |n.replica.log| > 0 { SameHolders(n1, |n.replica.log|); }
    assert AdvanceCommit(n1).progress == n1.progress;
  }

  lemma SameHolders(n: NodeState, k: nat)
    requires k > 0
    ensures QuorumHolds(n, k) <==> MostOf(Holders(n, k), n.replica.voters)
  {
    assert (set v | v in n.replica.voters && MatchOf(n, v) >= k) == Holders(n, k);
    assert Holders(n, k) * n.replica.voters == Holders(n, k);
  }

  // ---- the follower ----

  predicate Lacks(log: Log, prev: nat, prevTerm: nat) {
    prev > 0 && (|log| < prev || log[prev - 1].term != prevTerm)
  }

  lemma Refuses(n: NodeState, i: NodeId, ids: set<NodeId>, initial: set<NodeId>, m: Message)
    requires Sane(n, i, ids, initial) && n.alive && m.AppendEntries? && n.term <= m.term && Lacks(n.replica.log, m.prevIndex, m.prevTerm)
    ensures var n' := Handle(n, m);
            && n'.replica == n.replica && n'.alive && n'.term == m.term
            && Packet(i, m.leader, AppendReply(m.term, i, false, 0)) in n'.sent
  {
    hide Represents, Absorb;
    SaneFacts(n, i, ids, initial);
  }

  lemma Takes(n: NodeState, i: NodeId, ids: set<NodeId>, initial: set<NodeId>, m: Message)
    requires Sane(n, i, ids, initial) && n.alive && m.AppendEntries? && n.term <= m.term && !Lacks(n.replica.log, m.prevIndex, m.prevTerm)
    ensures var n', reach := Handle(n, m), m.prevIndex + |m.entries|;
            && m.prevIndex <= |n.replica.log| && n'.replica.log == Merge(n.replica.log, m.prevIndex, m.entries) && n'.alive && n'.term == m.term
            && n'.replica.commit == Largest(n.replica.commit, Least(m.leaderCommit, reach))
            && Packet(i, m.leader, AppendReply(m.term, i, true, reach)) in n'.sent
  {
    hide Represents, Absorb, Merge, ProgressOK;
    SaneFacts(n, i, ids, initial);
    AcceptedLog(n, initial, m);
    hide Uncompacted;
    CommitFollows(n.replica, m);
  }

  lemma CommitFollows(r: Replica, m: Message)
    requires m.AppendEntries?
    ensures Absorb(r, m).commit == Largest(r.commit, Least(m.leaderCommit, m.prevIndex + |m.entries|))
  {
    hide AppendLoop, SetCommit;
    LoopFrame(r, m.prevIndex, m.entries);
    CommitRises(AppendLoop(r, m.prevIndex, m.entries), Largest(r.commit, Least(m.leaderCommit, m.prevIndex + |m.entries|)));
  }

  /** Merging from a place where both logs agree repairs the log, since equal terms mean equal beginnings. */
  lemma MergeRepairs(start: Cluster, c: Cluster, l: NodeId, f: NodeId, prev: nat)
    requires Reachable(start, c) && l in c.nodes && f in c.nodes
    requires var leader, log := c.nodes[l].replica.log, c.nodes[f].replica.log;
             prev <= |leader| && prev <= |log| && (prev > 0 ==> log[prev - 1].term == leader[prev - 1].term)
    ensures var leader, log := c.nodes[l].replica.log, c.nodes[f].replica.log;
            Merge(log, prev, leader[prev..]) == Repaired(log, leader)
  {
    hide Reachable, Agreement, Merge;
    var leader, log := c.nodes[l].replica.log, c.nodes[f].replica.log;
    var a := Agreement(log, prev, leader[prev..]);
    if prev > 0 { TermsAgree(start, c, f, l, prev - 1); }
    if a > 0 {
      assert leader[prev..][a - 1] == leader[prev + a - 1];
      TermsAgree(start, c, f, l, prev + a - 1);
    }
    MergeShape(log, leader, prev);
  }

  lemma MergeShape(log: Log, leader: Log, prev: nat)
    requires prev <= |leader| && prev <= |log|
    requires var a := Agreement(log, prev, leader[prev..]); prev + a <= |log| && log[..prev + a] == leader[..prev + a]
    ensures Merge(log, prev, leader[prev..]) == Repaired(log, leader)
  {
    hide Agreement;
    var es := leader[prev..];
    var a := Agreement(log, prev, es);
    if a == |es| {
      assert leader[..prev + a] == leader;
    } else {
      assert log[..prev + a] + es[a..] == leader;
      assert prev + a < |log| ==> es[a] == leader[prev + a];
    }
  }

  /** With an entry of its own term at the end, nothing goes on from the leader's log: then the follower's is equal. */
  lemma OwnEntrySettles(start: Cluster, c: Cluster, l: NodeId, f: NodeId)
    requires Reachable(start, c) && l in c.nodes && f in c.nodes && c.nodes[l].role.Leader? && c.nodes[f].term <= c.nodes[l].term
    requires var log := c.nodes[l].replica.log; log != [] && log[|log| - 1].term == c.nodes[l].term
    ensures Repaired(c.nodes[f].replica.log, c.nodes[l].replica.log) == c.nodes[l].replica.log
  {
    hide IsRun, HistoryOK, ShadowRun, Uncompacted, SortedTerms;
    var r :| EndsIn(r, start, c);
    var k := RunEnd(r);
    var ss := RunShadowed(r);
    RunLength(r, ss);
    LeaderFacts(r, ss, k, l, c.nodes[l].term);
    NodeFacts(r, ss, k, f);
    ReachableTermsSorted(r, k, f);
    MembershipIsDerived(r, k, f);
    NothingBeyond(ss[k].h, c.nodes[f], c.nodes[l].replica.log, c.nodes[l].term, start.initial);
  }

  lemma NothingBeyond(h: History, n: NodeState, leader: Log, t: nat, initial: set<NodeId>)
    requires Genuine(h, n.replica.log, n.term) && n.term <= t && t in h.leaderLog && h.leaderLog[t] == leader
    requires SortedTerms(n) && Uncompacted(n, initial) && leader != [] && leader[|leader| - 1].term == t
    ensures !(leader < n.replica.log)
  {
    if leader < n.replica.log {
      assert n.replica.log[|leader| - 1] == leader[|leader| - 1];
      NextIsOwn(h, n, |leader|, t, initial);
    }
  }

  /** What follows an entry of term t in a log of term t was written by the leader of term t. */
  lemma NextIsOwn(h: History, n: NodeState, x: nat, t: nat, initial: set<NodeId>)
    requires Genuine(h, n.replica.log, n.term) && n.term <= t && SortedTerms(n) && Uncompacted(n, initial)
    requires 0 < x < |n.replica.log| && n.replica.log[x - 1].term == t
    ensures t in h.leaderLog && |h.leaderLog[t]| > x
  {
    UncompactedFacts(n, initial);
    hide Uncompacted;
    assert TermAt(n.replica, x) <= TermAt(n.replica, x + 1);
    assert n.replica.log[..x + 1] <= h.leaderLog[n.replica.log[x].term];
  }

  // ---- the exchange ----

  /** Nobody but these two has done anything. */
  predicate OnlyBetween(c: Cluster, d: Cluster, l: NodeId, f: NodeId) {
    d.nodes.Keys == c.nodes.Keys && d.initial == c.initial && forall i | i in c.nodes && i != l && i != f :: d.nodes[i] == c.nodes[i]
  }

  /** What the leader knows and has only grows, and the follower is known to hold the whole log. */
  predicate LeaderAfter(n: NodeState, n': NodeState, t: nat, f: NodeId) {
    && InOffice(n', t) && SameLog(n, n') && n'.id == n.id
    && (forall v | v in n.progress.matchIndex :: v in n'.progress.matchIndex && n'.progress.matchIndex[v] >= n.progress.matchIndex[v])
    && f in n'.progress.matchIndex && n'.progress.matchIndex[f] >= |n.replica.log|
    && n.replica.commit <= n'.replica.commit <= |n.replica.log| && (n.committedThisTerm ==> n'.committedThisTerm)
    && (n'.replica.commit == n.replica.commit || n'.committedThisTerm)
    && var size := |n.replica.log|;
       (size > 0 && n.replica.log[size - 1].term == t && MostOf(Holders(n', size), n.replica.voters) && n.replica.commit < size ==>
          n'.replica.commit == size && n'.committedThisTerm)
  }

  predicate FollowerAfter(n: NodeState, n': NodeState, leader: NodeState, t: nat) {
    && n'.alive && n'.term == t && n'.replica.log == Repaired(n.replica.log, leader.replica.log)
    && n'.replica.commit == Largest(n.replica.commit, leader.replica.commit)
  }

  /** By induction on the next index: each refusal moves it down by one, and nothing is refused at the start. */
  lemma {:induction false} Exchange(start: Cluster, origin: Cluster, c: Cluster, l: NodeId, f: NodeId, t: nat) returns (c': Cluster)
    requires Onward(start, origin, c) && l in c.nodes && f in c.nodes && l != f
    requires Offered(c.nodes[l], t, f) && c.nodes[f].alive && c.nodes[f].term <= t
    ensures Onward(start, origin, c') && OnlyBetween(c, c', l, f)
    ensures LeaderAfter(c.nodes[l], c'.nodes[l], t, f) && FollowerAfter(c.nodes[f], c'.nodes[f], c.nodes[l], t)
    decreases c.nodes[l].progress.nextIndex[f]
  {
    hide Act, Onward, Reachable, Sane, Enabled, Handle, Lacks, Offered, LeaderAfter, FollowerAfter;
    var m := OfferFacts(c.nodes[l], t, f);
    Arrived(start, origin, c);
    AllSane(start, c, l);
    AllSane(start, c, f);
    SaneIds(c.nodes[l], l, c.nodes.Keys, start.initial);
    Delivery(c, l, Packet(l, f, m));
    ActsDeliver(c.nodes[f], Packet(l, f, m));
    var c1 := Go(start, origin, c, Deliver(Packet(l, f, m)));
    if Lacks(c.nodes[f].replica.log, m.prevIndex, m.prevTerm) {
      Refuses(c.nodes[f], f, c.nodes.Keys, start.initial, m);
      LacksSomething(c.nodes[f].replica.log, m.prevIndex, m.prevTerm);
      var reply := Packet(f, l, AppendReply(t, f, false, 0));
      Delivery(c1, f, reply);
      ActsDeliver(c1.nodes[l], reply);
      var c2 := Go(start, origin, c1, Deliver(reply));
      BacksOff(c.nodes[l], l, c.nodes.Keys, start.initial, t, f);
      c' := Exchange(start, origin, c2, l, f, t);
      AfterRefusal(c.nodes[l], c2.nodes[l], c'.nodes[l], c.nodes[f], c2.nodes[f], c'.nodes[f], t, f);
    } else {
      Takes(c.nodes[f], f, c.nodes.Keys, start.initial, m);
      PrevAgrees(c.nodes[f].replica.log, m.prevIndex, m.prevTerm, c.nodes[l].replica.log);
      MergeRepairs(start, c, l, f, m.prevIndex);
      var reply := Packet(f, l, AppendReply(t, f, true, |c.nodes[l].replica.log|));
      Delivery(c1, f, reply);
      ActsDeliver(c1.nodes[l], reply);
      c' := Go(start, origin, c1, Deliver(reply));
      Counted(c.nodes[l], l, c.nodes.Keys, start.initial, t, f);
      Followed(c.nodes[f], c'.nodes[f], c.nodes[l], l, c.nodes.Keys, start.initial, m, t);
    }
  }

  lemma SaneIds(n: NodeState, i: NodeId, ids: set<NodeId>, initial: set<NodeId>)
    requires Sane(n, i, ids, initial)
    ensures n.id == i
  {}

  lemma OfferFacts(n: NodeState, t: nat, f: NodeId) returns (m: Message)
    requires Offered(n, t, f)
    ensures m.AppendEntries? && Packet(n.id, f, m) in n.sent && m.term == t && m.leader == n.id && CanUpdate(n, f)
    ensures m.prevIndex == n.progress.nextIndex[f] - 1 && m.prevIndex <= |n.replica.log| && m.entries == n.replica.log[m.prevIndex..]
    ensures m.prevTerm == LastTerm(n.replica.log[..m.prevIndex]) && m.leaderCommit == n.replica.commit
  {
    m := Offer(n, f).msg;
  }

  lemma LacksSomething(log: Log, prev: nat, prevTerm: nat)
    requires Lacks(log, prev, prevTerm)
    ensures prev > 0
  {}

  lemma PrevAgrees(log: Log, prev: nat, prevTerm: nat, leader: Log)
    requires !Lacks(log, prev, prevTerm) && prev <= |leader| && prevTerm == LastTerm(leader[..prev])
    ensures prev <= |log| && (prev > 0 ==> log[prev - 1].term == leader[prev - 1].term)
  {}

  lemma BacksOff(n: NodeState, i: NodeId, ids: set<NodeId>, initial: set<NodeId>, t: nat, f: NodeId)
    requires Sane(n, i, ids, initial) && Offered(n, t, f) && n.progress.nextIndex[f] > 1
    ensures var n' := Handle(n, AppendReply(t, f, false, 0));
            && Offered(n', t, f) && f in n'.progress.nextIndex && n'.progress.nextIndex[f] == n.progress.nextIndex[f] - 1
            && n' == n.(progress := n'.progress, sent := n'.sent) && n'.progress.matchIndex == n.progress.matchIndex
  {
    hide Handle, Sane;
    RefusalOffers(n, i, ids, initial, t, f);
  }

  lemma Counted(n: NodeState, i: NodeId, ids: set<NodeId>, initial: set<NodeId>, t: nat, f: NodeId)
    requires Sane(n, i, ids, initial) && Offered(n, t, f)
    ensures LeaderAfter(n, Handle(n, AppendReply(t, f, true, |n.replica.log|)), t, f)
  {
    hide Handle, Sane, Offer;
    CountsHolder(n, i, ids, initial, t, f);
  }

  lemma AfterRefusal(l: NodeState, l1: NodeState, l2: NodeState, f: NodeState, f1: NodeState, f2: NodeState, t: nat, id: NodeId)
    requires l1 == l.(progress := l1.progress, sent := l1.sent) && l1.progress.matchIndex == l.progress.matchIndex
    requires f1.replica == f.replica && LeaderAfter(l1, l2, t, id) && FollowerAfter(f1, f2, l1, t)
    ensures LeaderAfter(l, l2, t, id) && FollowerAfter(f, f2, l, t)
  {}

  lemma Followed(f: NodeState, f': NodeState, l: NodeState, i: NodeId, ids: set<NodeId>, initial: set<NodeId>, m: Message, t: nat)
    requires f'.alive && f'.term == t && f'.replica.log == Repaired(f.replica.log, l.replica.log)
    requires m.AppendEntries? && m.prevIndex <= |l.replica.log| && m.entries == l.replica.log[m.prevIndex..] && m.leaderCommit == l.replica.commit
    requires f'.replica.commit == Largest(f.replica.commit, Least(m.leaderCommit, m.prevIndex + |m.entries|))
    requires Sane(l, i, ids, initial)
    ensures FollowerAfter(f, f', l, t)
  {
    SaneFacts(l, i, ids, initial);
  }

  /** Log repair: a heartbeat, and then updates and replies between the two. The follower ends up with the leader's log,
      or with its own if that only goes on from it, and with the leader's commit index unless its own is higher. */
  lemma CanRepair(start: Cluster, origin: Cluster, c: Cluster, l: NodeId, f: NodeId, t: nat) returns (c': Cluster)
    requires Onward(start, origin, c) && l in c.nodes && f in c.nodes && l != f
    requires InOffice(c.nodes[l], t) && c.nodes[f].alive && c.nodes[f].term <= t
    requires f in c.nodes[l].replica.voters && c.nodes[l].replica.voters <= c.nodes.Keys
    ensures Onward(start, origin, c') && OnlyBetween(c, c', l, f)
    ensures LeaderAfter(c.nodes[l], c'.nodes[l], t, f) && FollowerAfter(c.nodes[f], c'.nodes[f], c.nodes[l], t)
    ensures c'.nodes[f].replica.log == c'.nodes[l].replica.log <==> !(c.nodes[l].replica.log < c.nodes[f].replica.log)
  {
    hide Act, Onward, Reachable, Sane, Enabled, Offered, HeartbeatTick;
    Arrived(start, origin, c);
    AllSane(start, c, l);
    HeartbeatOffers(c.nodes[l], l, c.nodes.Keys, start.initial, t, f);
    Local(c, Heartbeat(l));
    ActsHeartbeat(c.nodes[l], l);
    var c1 := Go(start, origin, c, Heartbeat(l));
    c' := Exchange(start, origin, c1, l, f, t);
    AfterHeartbeat(c.nodes[l], c1.nodes[l], c'.nodes[l], c.nodes[f], c'.nodes[f], t, f);
  }

  lemma ActsHeartbeat(n: NodeState, i: NodeId)
    ensures Act(n, Heartbeat(i)) == HeartbeatTick(n)
  {}

  lemma AfterHeartbeat(l: NodeState, l1: NodeState, l2: NodeState, f: NodeState, f2: NodeState, t: nat, id: NodeId)
    requires l1 == l.(sent := l1.sent) && LeaderAfter(l1, l2, t, id) && FollowerAfter(f, f2, l1, t)
    ensures LeaderAfter(l, l2, t, id) && FollowerAfter(f, f2, l, t)
  {}
}
