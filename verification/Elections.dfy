/** An election can always be won: from every state a run has reached, a server whose log is at least as recent as
    those of a majority of its configuration has a way to become the leader (raftverified/node.py, `start_election`,
    `_on_request_vote`, `_on_vote_reply`; section 5.4.1 of the Raft paper). */
module Elections {
  import opened Types
  import opened Quorums
  import opened Logs
  import opened NodeSpec
  import opened NodeRefinement
  import opened Recovery
  import opened Cluster
  import opened LookupSafety
  import opened Rounds
  import opened HandlerLaws
  import opened Journeys

  /** The first log ends in a later term, or in the same and is not shorter. */
  predicate AsRecent(log: Log, other: Log) {
    LastTerm(log) > LastTerm(other) || (LastTerm(log) == LastTerm(other) && |log| >= |other|)
  }

  /** More than half of the configuration. */
  predicate MostOf(q: set<NodeId>, voters: set<NodeId>) { |q * voters| * 2 > |voters| }

  // ---- one server ----

  function Solicits(n: NodeState, t: nat, p: NodeId): Packet {
    Packet(n.id, p, RequestVote(t, n.id, |n.replica.log|, LastTerm(n.replica.log)))
  }

  /** A candidate of term t with these votes, which are not enough yet, has asked everyone else. */
  predicate Standing(n: NodeState, t: nat, votes: set<NodeId>) {
    && n.alive && n.role.Candidate? && n.term == t && n.votes == votes && !MostOf(votes, n.replica.voters)
    && forall p | p in n.replica.voters && p != n.id :: Solicits(n, t, p) in n.sent
  }

  predicate InOffice(n: NodeState, t: nat) { n.alive && n.role.Leader? && n.term == t }

  predicate SameLog(n: NodeState, n': NodeState) {
    n'.replica.log == n.replica.log && n'.replica.voters == n.replica.voters
  }

  lemma CrashKeepsLog(n: NodeState, i: NodeId, ids: set<NodeId>, initial: set<NodeId>)
    requires Sane(n, i, ids, initial)
    ensures SameLog(n, Pause(n)) && Pause(n).term == n.term && Pause(n).id == i && Pause(n).role.Follower?
  {
    hide Represents, ProgressOK;
    RestartRecovers(n.replica, n.replica.log);
  }

  lemma Stands(n: NodeState, i: NodeId, ids: set<NodeId>, initial: set<NodeId>)
    requires Sane(n, i, ids, initial) && n.alive && n.role.Follower? && i in n.replica.voters
    ensures var n' := ElectionTimeout(n);
            SameLog(n, n') && (InOffice(n', n.term + 1) || Standing(n', n.term + 1, {i}))
  {
    hide Represents, ProgressOK, ClientIndex, BroadcastPackets;
    LastTermOf(n.replica, n.replica.log);
    var c := Campaign(n);
    var s := c.(sent := c.sent + SolicitPackets(c, OtherVoters(c)));
    forall p | p in n.replica.voters && p != i ensures Solicits(c, n.term + 1, p) in s.sent { assert p in OtherVoters(c); }
  }

  /** A server of an older term with no more recent log grants the vote, whatever its role. */
  lemma Grants(n: NodeState, i: NodeId, ids: set<NodeId>, initial: set<NodeId>, v: NodeState, t: nat)
    requires Sane(n, i, ids, initial) && n.alive && n.term < t && AsRecent(v.replica.log, n.replica.log)
    ensures var n' := Handle(n, Solicits(v, t, i).msg);
            SameLog(n, n') && n'.alive && n'.term == t && Packet(i, v.id, VoteReply(t, i, true)) in n'.sent
  {
    hide Represents, ProgressOK;
    VoteIsExact(n, n.replica.log, Solicits(v, t, i).msg);
    NewerTermWins(n, Solicits(v, t, i).msg);
    AliveStays(n, Solicits(v, t, i).msg);
  }

  lemma AliveStays(n: NodeState, m: Message)
    requires m.RequestVote?
    ensures Handle(n, m).alive == n.alive
  {}

  lemma Counts(n: NodeState, t: nat, votes: set<NodeId>, w: NodeId)
    requires Standing(n, t, votes)
    ensures var n' := Handle(n, VoteReply(t, w, true));
            SameLog(n, n') && if MostOf(votes + {w}, n.replica.voters) then InOffice(n', t) else Standing(n', t, votes + {w})
  {
    hide ClientIndex, BroadcastPackets;
    assert votes + {w} == n.votes + {w};
  }

  // ---- the cluster ----

  lemma KeepsLogsFurther(c: Cluster, d: Cluster, e: Cluster, some: set<NodeId>, more: set<NodeId>)
    requires KeepsLogs(c, d, some) && KeepsLogs(d, e, more)
    ensures KeepsLogs(c, e, some + more)
  {}

  /** One event that keeps its server's log. */
  lemma Move(start: Cluster, origin: Cluster, c: Cluster, e: Event) returns (c': Cluster)
    requires Onward(start, origin, c) && Enabled(c, e)
    ensures Actor(e) in c.nodes && (e.Client? ==> !e.command.Config?)
    ensures Onward(start, origin, c') && c'.nodes.Keys == c.nodes.Keys
    ensures c'.nodes[Actor(e)] == Act(c.nodes[Actor(e)], e)
    ensures SameLog(c.nodes[Actor(e)], Act(c.nodes[Actor(e)], e)) ==> KeepsLogs(c, c', {Actor(e)})
  {
    hide Act, Onward, Enabled;
    c' := Go(start, origin, c, e);
  }

  /** It restarts and stands: its term is one higher. */
  lemma StandAgain(start: Cluster, origin: Cluster, c: Cluster, v: NodeId) returns (c': Cluster)
    requires Onward(start, origin, c) && v in c.nodes && v in c.nodes[v].replica.voters
    ensures Onward(start, origin, c') && KeepsLogs(c, c', {v}) && v in c'.nodes
    ensures var t := c.nodes[v].term + 1; InOffice(c'.nodes[v], t) || Standing(c'.nodes[v], t, {v})
  {
    hide Act, Onward, Reachable, Sane, Standing, InOffice, Enabled, KeepsLogs;
    var c1 := Reboot(start, origin, c, v);
    KeptOne(c, c1, {v}, v);
    Arrived(start, origin, c1);
    AllSane(start, c1, v);
    Stands(c1.nodes[v], v, c1.nodes.Keys, start.initial);
    ActsTimeout(c1.nodes[v], v);
    Local(c1, Timeout(v));
    c' := Move(start, origin, c1, Timeout(v));
    KeepsLogsFurther(c, c1, c', {v}, {v});
    assert {v} + {v} == {v};
  }

  lemma Reboot(start: Cluster, origin: Cluster, c: Cluster, v: NodeId) returns (c': Cluster)
    requires Onward(start, origin, c) && v in c.nodes
    ensures Onward(start, origin, c') && KeepsLogs(c, c', {v}) && v in c'.nodes
    ensures var n := c'.nodes[v]; n.alive && n.role.Follower? && n.term == c.nodes[v].term
  {
    hide Act, Onward, Reachable, Sane, Enabled, KeepsLogs;
    Arrived(start, origin, c);
    AllSane(start, c, v);
    Restarts(c.nodes[v], v, c.nodes.Keys, start.initial);
    Local(c, Crash(v));
    var c1 := Move(start, origin, c, Crash(v));
    Local(c1, Recover(v));
    c' := Move(start, origin, c1, Recover(v));
    KeepsLogsFurther(c, c1, c', {v}, {v});
    assert {v} + {v} == {v};
  }

  lemma Arrived(start: Cluster, origin: Cluster, c: Cluster)
    requires Onward(start, origin, c)
    ensures Reachable(start, c)
  {}

  lemma ActsTimeout(n: NodeState, v: NodeId)
    ensures Act(n, Timeout(v)) == ElectionTimeout(n)
  {}

  lemma Restarts(n: NodeState, i: NodeId, ids: set<NodeId>, initial: set<NodeId>)
    requires Sane(n, i, ids, initial)
    ensures var down := Act(n, Crash(i)); var n' := Act(down, Recover(i));
            SameLog(n, down) && SameLog(down, n') && n'.alive && n'.role.Follower? && n'.term == n.term && n'.id == i
  {
    CrashKeepsLog(n, i, ids, initial);
    hide Sane, Pause;
  }

  lemma {:induction false} StandAt(start: Cluster, origin: Cluster, c: Cluster, v: NodeId, t: nat) returns (c': Cluster)
    requires Onward(start, origin, c) && v in c.nodes && v in c.nodes[v].replica.voters && c.nodes[v].term < t
    ensures Onward(start, origin, c') && KeepsLogs(c, c', {v})
    ensures InOffice(c'.nodes[v], t) || Standing(c'.nodes[v], t, {v})
    decreases t - c.nodes[v].term
  {
    hide Onward, Standing, InOffice, KeepsLogs;
    c' := StandAgain(start, origin, c, v);
    KeptOne(c, c', {v}, v);
    StoodAt(c'.nodes[v], c.nodes[v].term + 1, v);
    if c.nodes[v].term + 1 < t {
      var c1 := c';
      c' := StandAt(start, origin, c1, v, t);
      KeepsLogsFurther(c, c1, c', {v}, {v});
      assert {v} + {v} == {v};
    }
  }

  lemma StoodAt(n: NodeState, t: nat, v: NodeId)
    requires InOffice(n, t) || Standing(n, t, {v})
    ensures n.term == t && n.alive
  {}

  lemma KeptOne(c: Cluster, d: Cluster, movers: set<NodeId>, i: NodeId)
    requires KeepsLogs(c, d, movers) && i in c.nodes
    ensures i in d.nodes && SameLog(c.nodes[i], d.nodes[i]) && (i !in movers ==> d.nodes[i] == c.nodes[i])
  {}

  lemma {:induction false} TermAbove(c: Cluster, some: set<NodeId>) returns (t: nat)
    requires some <= c.nodes.Keys
    ensures forall i | i in some :: c.nodes[i].term < t
    decreases |some|
  {
    if some == {} {
      t := 0;
    } else {
      var i :| i in some;
      t := TermAbove(c, some - {i});
      t := Largest(t, c.nodes[i].term + 1);
    }
  }

  /** The voters in `done` have granted their votes, those still to be asked are in older terms. */
  predicate Canvassing(c: Cluster, v: NodeId, t: nat, q: set<NodeId>, done: set<NodeId>) {
    && v in c.nodes && Standing(c.nodes[v], t, {v} + done) && done <= q <= c.nodes.Keys && q <= c.nodes[v].replica.voters && c.nodes[v].id == v
    && MostOf(q, c.nodes[v].replica.voters)
    && (forall w | w in q :: AsRecent(c.nodes[v].replica.log, c.nodes[w].replica.log))
    && (forall w | w in c.nodes && w != v && w !in done :: c.nodes[w].term < t)
    && forall w | w in done :: c.nodes[w].term <= t
  }

  lemma AskNext(start: Cluster, origin: Cluster, c: Cluster, v: NodeId, t: nat, q: set<NodeId>, done: set<NodeId>, w: NodeId) returns (c': Cluster)
    requires Onward(start, origin, c) && Canvassing(c, v, t, q, done) && w in q && w !in done && w != v
    ensures Onward(start, origin, c') && KeepsLogs(c, c', {v, w}) && v in c'.nodes && w in c'.nodes && c'.nodes[w].term == t
    ensures InOffice(c'.nodes[v], t) || Canvassing(c', v, t, q, done + {w})
  {
    hide Act, Onward, Enabled, InOffice, Standing, Canvassing, KeepsLogs;
    CanvassFacts(c, v, t, q, done, w);
    var c1 := GetVote(start, origin, c, v, t, w);
    KeptOne(c, c1, {w}, v);
    var reply := Packet(w, v, VoteReply(t, w, true));
    Delivery(c1, w, reply);
    ActsDeliver(c1.nodes[v], reply);
    Counts(c.nodes[v], t, {v} + done, w);
    IdStays(c.nodes[v], reply.msg);
    c' := Move(start, origin, c1, Deliver(reply));
    KeptOne(c1, c', {v}, w);
    KeepsLogsFurther(c, c1, c', {w}, {v});
    assert {w} + {v} == {v, w};
    assert {v} + done + {w} == {v} + (done + {w});
    if !InOffice(c'.nodes[v], t) { CanvassOn(c, c', v, t, q, done, w); }
  }

  lemma CanvassFacts(c: Cluster, v: NodeId, t: nat, q: set<NodeId>, done: set<NodeId>, w: NodeId)
    requires Canvassing(c, v, t, q, done) && w in q && w !in done && w != v
    ensures v in c.nodes && w in c.nodes && c.nodes[v].id == v && w in c.nodes[v].replica.voters && c.nodes[w].term < t
    ensures Standing(c.nodes[v], t, {v} + done) && AsRecent(c.nodes[v].replica.log, c.nodes[w].replica.log)
    ensures Solicits(c.nodes[v], t, w) in c.nodes[v].sent
  {
    hide MostOf, AsRecent;
  }

  lemma CanvassOn(c: Cluster, c': Cluster, v: NodeId, t: nat, q: set<NodeId>, done: set<NodeId>, w: NodeId)
    requires Canvassing(c, v, t, q, done) && w in q && w != v && KeepsLogs(c, c', {v, w})
    requires v in c'.nodes && w in c'.nodes && Standing(c'.nodes[v], t, {v} + (done + {w})) && c'.nodes[v].id == v && c'.nodes[w].term == t
    ensures Canvassing(c', v, t, q, done + {w})
  {
    hide MostOf, AsRecent, Standing;
    StandingTerm(c'.nodes[v], t, {v} + (done + {w}));
  }

  lemma StandingTerm(n: NodeState, t: nat, votes: set<NodeId>)
    requires Standing(n, t, votes)
    ensures n.term == t
  {}

  /** The voter comes back if it is down, is asked, and grants its vote. */
  lemma GetVote(start: Cluster, origin: Cluster, c: Cluster, v: NodeId, t: nat, w: NodeId) returns (c': Cluster)
    requires Onward(start, origin, c) && v in c.nodes && w in c.nodes && w != v && c.nodes[v].id == v && c.nodes[w].term < t
    requires AsRecent(c.nodes[v].replica.log, c.nodes[w].replica.log) && Solicits(c.nodes[v], t, w) in c.nodes[v].sent
    ensures Onward(start, origin, c') && KeepsLogs(c, c', {w}) && w in c'.nodes && c'.nodes[w].term == t
    ensures Packet(w, v, VoteReply(t, w, true)) in c'.nodes[w].sent
  {
    hide Act, Onward, Reachable, Sane, Enabled, AsRecent, KeepsLogs, Handle;
    Local(c, Recover(w));
    ActsRecover(c.nodes[w], w);
    var c1 := Move(start, origin, c, Recover(w));
    KeptOne(c, c1, {w}, v);
    Arrived(start, origin, c1);
    AllSane(start, c1, w);
    var ask := Solicits(c.nodes[v], t, w);
    Delivery(c1, v, ask);
    ActsDeliver(c1.nodes[w], ask);
    Grants(c1.nodes[w], w, c1.nodes.Keys, start.initial, c.nodes[v], t);
    c' := Move(start, origin, c1, Deliver(ask));
    KeepsLogsFurther(c, c1, c', {w}, {w});
    assert {w} + {w} == {w};
  }

  lemma IdStays(n: NodeState, m: Message)
    requires m.VoteReply?
    ensures Handle(n, m).id == n.id
  {
    hide ClientIndex, BroadcastPackets, Majority;
  }

  lemma ActsRecover(n: NodeState, i: NodeId)
    ensures Act(n, Recover(i)) == Resume(n)
  {}

  lemma ActsDeliver(n: NodeState, pk: Packet)
    ensures Act(n, Deliver(pk)) == Handle(n, pk.msg)
  {
    hide Handle;
  }

  lemma {:induction false} Canvass(start: Cluster, origin: Cluster, c: Cluster, v: NodeId, t: nat, q: set<NodeId>, done: set<NodeId>) returns (c': Cluster)
    requires Onward(start, origin, c) && Canvassing(c, v, t, q, done)
    ensures Onward(start, origin, c') && KeepsLogs(c, c', q + {v}) && InOffice(c'.nodes[v], t)
    ensures forall w | w in c.nodes && w in q && w != v :: c'.nodes[w].term <= t
    decreases |q - done|
  {
    hide Onward, KeepsLogs, InOffice, Canvassing;
    var w := SomeoneLeft(c, v, t, q, done);
    c' := AskNext(start, origin, c, v, t, q, done, w);
    Moved(c, c', {v, w});
    CanvassTerms(c, v, t, q, done);
    MoreMovers(c, c', {v, w}, q + {v});
    if !InOffice(c'.nodes[v], t) {
      assert q - (done + {w}) == q - done - {w};
      var c1 := c';
      c' := Canvass(start, origin, c1, v, t, q, done + {w});
      KeepsLogsFurther(c, c1, c', q + {v}, q + {v});
      assert (q + {v}) + (q + {v}) == q + {v};
    }
  }

  lemma Moved(c: Cluster, d: Cluster, movers: set<NodeId>)
    requires KeepsLogs(c, d, movers)
    ensures d.nodes.Keys == c.nodes.Keys && forall i | i in c.nodes && i !in movers :: d.nodes[i] == c.nodes[i]
  {}

  lemma CanvassTerms(c: Cluster, v: NodeId, t: nat, q: set<NodeId>, done: set<NodeId>)
    requires Canvassing(c, v, t, q, done)
    ensures v in c.nodes && forall w | w in q && w != v :: w in c.nodes && c.nodes[w].term <= t
  {}

  lemma MoreMovers(c: Cluster, d: Cluster, some: set<NodeId>, more: set<NodeId>)
    requires KeepsLogs(c, d, some) && some <= more
    ensures KeepsLogs(c, d, more)
  {}

  /** As long as the candidate has not won, some voter of the majority has not been asked. */
  lemma SomeoneLeft(c: Cluster, v: NodeId, t: nat, q: set<NodeId>, done: set<NodeId>) returns (w: NodeId)
    requires Canvassing(c, v, t, q, done)
    ensures w in q && w !in done && w != v
  {
    if q <= {v} + done {
      SubsetSize(q * c.nodes[v].replica.voters, ({v} + done) * c.nodes[v].replica.voters);
      assert false;
    }
    w :| w in q && w !in {v} + done;
  }

  /** From any state that has been reached, a server of its own configuration whose log is at least as recent as those
      of a majority of it can win an election: of a term no server is ahead of, without anybody's log changing. */
  lemma CanBeElected(start: Cluster, c: Cluster, v: NodeId, q: set<NodeId>) returns (c': Cluster)
    requires Reachable(start, c) && v in c.nodes && q <= c.nodes.Keys
    requires v in c.nodes[v].replica.voters && MostOf(q, c.nodes[v].replica.voters)
    requires forall w | w in q :: AsRecent(c.nodes[v].replica.log, c.nodes[w].replica.log)
    ensures Onward(start, c, c') && KeepsLogs(c, c', q + {v})
    ensures InOffice(c'.nodes[v], c'.nodes[v].term) && forall i | i in c'.nodes :: c'.nodes[i].term <= c'.nodes[v].term
  {
    hide Onward, KeepsLogs, InOffice, Standing, AsRecent, Sane, Reachable, Canvassing, MostOf;
    Here(start, c);
    var t := TermAbove(c, c.nodes.Keys);
    var c1 := StandAt(start, c, c, v, t);
    Moved(c, c1, {v});
    MoreMovers(c, c1, {v}, q + {v});
    c' := c1;
    if !InOffice(c1.nodes[v], t) {
      StartCanvassing(start, c, c1, v, t, q);
      var voting := q * c.nodes[v].replica.voters;
      c' := Canvass(start, c, c1, v, t, voting, {});
      Moved(c1, c', voting + {v});
      MoreMovers(c1, c', voting + {v}, q + {v});
      KeepsLogsFurther(c, c1, c', q + {v}, q + {v});
      assert (q + {v}) + (q + {v}) == q + {v};
    }
    InOfficeTerm(c'.nodes[v], t);
  }

  lemma InOfficeTerm(n: NodeState, t: nat)
    requires InOffice(n, t)
    ensures n.term == t
  {}

  lemma IdOf(start: Cluster, origin: Cluster, c: Cluster, v: NodeId)
    requires Onward(start, origin, c) && v in c.nodes
    ensures c.nodes[v].id == v
  {
    hide Onward, Reachable, Uncompacted, ProgressOK;
    Arrived(start, origin, c);
    AllSane(start, c, v);
  }

  lemma StartCanvassing(start: Cluster, c: Cluster, c1: Cluster, v: NodeId, t: nat, q: set<NodeId>)
    requires Onward(start, c, c1) && KeepsLogs(c, c1, {v}) && v in c.nodes && q <= c.nodes.Keys
    requires MostOf(q, c.nodes[v].replica.voters) && forall w | w in q :: AsRecent(c.nodes[v].replica.log, c.nodes[w].replica.log)
    requires Standing(c1.nodes[v], t, {v}) && forall i | i in c.nodes && i != v :: c.nodes[i].term < t
    ensures Canvassing(c1, v, t, q * c.nodes[v].replica.voters, {})
  {
    hide Onward, Standing, AsRecent, Reachable, Uncompacted, ProgressOK;
    IdOf(start, c, c1, v);
    var voters := c.nodes[v].replica.voters;
    assert {v} + {} == {v};
    assert (q * voters) * voters == q * voters;
  }
}
