/** Exactly which clusters have runs that commit, and runs that serve a read: those that start with at least
    two voters (raftverified/node.py, `_on_append_reply`; the one-voter half is the known defect of section
    "A single-voter cluster never commits" of the repository's README). A run of two servers is the witness. */
module Progress {
  import opened Types
  import opened Quorums
  import opened NodeSpec
  import opened Cluster
  import opened ClusterSafety
  import opened Rounds
  import SingleVoter

  function Others(c: Cluster, v: NodeId): set<NodeId> { c.initial - {v} }

  predicate Placed(c: Cluster, v: NodeId, done: set<NodeId>) {
    c.initial <= c.nodes.Keys && v in c.initial && done <= Others(c, v)
  }

  // ---- the election ----

  /** The votes of `done` are in, and the other servers have not been asked yet. */
  predicate Asking(c: Cluster, v: NodeId, done: set<NodeId>) {
    && Placed(c, v, done) && Campaigning(c.nodes[v], v, c.initial, {v} + done)
    && (forall w | w in Others(c, v) :: Quiet(c.nodes[w], w, c.initial))
    && forall w | w in Others(c, v) - done :: Fresh(c.nodes[w], w, c.initial)
  }

  predicate Elected(c: Cluster, v: NodeId) {
    && Placed(c, v, {}) && Leading(c.nodes[v], v, c.initial)
    && forall w | w in Others(c, v) :: Quiet(c.nodes[w], w, c.initial)
  }

  lemma StartAsking(c: Cluster, v: NodeId)
    requires Starts(c) && c.initial <= c.nodes.Keys && v in c.initial && |c.initial| >= 2
    ensures Enabled(c, Timeout(v)) && Asking(Next(c, Timeout(v)), v, {})
  {
    hide Act, Quiet, Campaigning;
    forall w | w in c.initial ensures Fresh(c.nodes[w], w, c.initial) && Quiet(c.nodes[w], w, c.initial) { StartsFresh(c, w); }
    hide Fresh;
    Campaigns(c.nodes[v], v, c.initial, Timeout(v));
    assert {v} + {} == {v};
  }

  lemma StartsFresh(c: Cluster, w: NodeId)
    requires Starts(c) && c.initial <= c.nodes.Keys && w in c.initial
    ensures Fresh(c.nodes[w], w, c.initial) && Quiet(c.nodes[w], w, c.initial) && Others(c, w) <= c.nodes[w].peers
  {}

  lemma AskOne(c: Cluster, v: NodeId, done: set<NodeId>, w: NodeId)
    requires Asking(c, v, done) && w in Others(c, v) - done
    ensures Enabled(c, Deliver(Ballot(v, w)))
    ensures var c1 := Next(c, Deliver(Ballot(v, w)));
            && Enabled(c1, Deliver(Granted(v, w)))
            && var c2 := Next(c1, Deliver(Granted(v, w)));
               if Majority({v} + done + {w}, c.initial) then Elected(c2, v) else Asking(c2, v, done + {w})
  {
    hide Act, Quiet, Fresh, Majority, Leading, Campaigning, Enabled;
    BallotSent(c.nodes[v], v, c.initial, {v} + done, w);
    CanDeliver(c, v, Ballot(v, w));
    Votes(c.nodes[w], v, w, c.initial);
    CanDeliver(Next(c, Deliver(Ballot(v, w))), w, Granted(v, w));
    CountsVote(c.nodes[v], v, w, c.initial, {v} + done);
    assert {v} + done + {w} == {v} + (done + {w});
  }

  lemma CanDeliver(c: Cluster, i: NodeId, pk: Packet)
    requires i in c.nodes && pk in c.nodes[i].sent && pk.dst in c.nodes
    ensures Enabled(c, Deliver(pk))
  {}

  lemma BallotSent(n: NodeState, v: NodeId, voters: set<NodeId>, votes: set<NodeId>, w: NodeId)
    requires Campaigning(n, v, voters, votes) && w in voters - {v}
    ensures Ballot(v, w) in n.sent
  {}

  lemma ElectionRound(start: Cluster, c: Cluster, v: NodeId, done: set<NodeId>) returns (c': Cluster)
    requires Reachable(start, c) && Asking(c, v, done)
    ensures Reachable(start, c') && Elected(c', v) && c'.initial == c.initial
    decreases |Others(c, v) - done|
  {
    hide Act, Asking, Elected, Reachable, Enabled;
    var w := Unasked(c, v, done);
    AskOne(c, v, done, w);
    ReachNext(start, c, Deliver(Ballot(v, w)));
    var c1 := Next(c, Deliver(Ballot(v, w)));
    ReachNext(start, c1, Deliver(Granted(v, w)));
    c' := Next(c1, Deliver(Granted(v, w)));
    if !Majority({v} + done + {w}, c.initial) {
      assert Others(c', v) - (done + {w}) == (Others(c, v) - done) - {w};
      c' := ElectionRound(start, c', v, done + {w});
    }
  }

  /** As long as the election is open, somebody has not been asked. */
  lemma Unasked(c: Cluster, v: NodeId, done: set<NodeId>) returns (w: NodeId)
    requires Asking(c, v, done)
    ensures w in Others(c, v) - done && v in c.nodes && w in c.nodes
  {
    if c.initial <= {v} + done { AllAreMajority({v} + done, c.initial); }
    w :| w in c.initial && w !in {v} + done;
  }

  lemma AllAreMajority(q: set<NodeId>, voters: set<NodeId>)
    requires voters <= q && voters != {}
    ensures Majority(q, voters)
  {
    assert q * voters == voters;
  }

  // ---- the first entry ----

  /** The servers in `done` have copied the first entry and said so. */
  predicate Copying(c: Cluster, v: NodeId, done: set<NodeId>) {
    && Placed(c, v, done) && !(c.initial <= {v} + done) && Spreading(c.nodes[v], v, c.initial, {v} + done)
    && (forall w | w in Others(c, v) :: Up(c.nodes[w], w))
    && forall w | w in Others(c, v) - done :: Quiet(c.nodes[w], w, c.initial)
  }

  /** The first entry is committed. */
  predicate Committed(c: Cluster, v: NodeId) {
    && Placed(c, v, {}) && Settled(c.nodes[v], v, c.initial)
    && forall w | w in Others(c, v) :: Up(c.nodes[w], w)
  }

  lemma StartCopying(c: Cluster, v: NodeId)
    requires Elected(c, v) && |c.initial| >= 2
    ensures Enabled(c, Client(v, FIRST.command)) && Copying(Next(c, Client(v, FIRST.command)), v, {})
  {
    hide Act, Leading, Spreading;
    TakesCommand(c.nodes[v], v, c.initial);
    if c.initial <= {v} { SubsetSize(c.initial, {v}); }
    assert {v} + {} == {v};
  }

  lemma CopySent(n: NodeState, v: NodeId, voters: set<NodeId>, copies: set<NodeId>, w: NodeId)
    requires Spreading(n, v, voters, copies) && w in voters - {v}
    ensures Copy(v, w) in n.sent
  {}

  lemma CopyOne(c: Cluster, v: NodeId, done: set<NodeId>, w: NodeId)
    requires Copying(c, v, done) && w in Others(c, v) - done
    ensures Enabled(c, Deliver(Copy(v, w)))
    ensures var c1 := Next(c, Deliver(Copy(v, w)));
            && Enabled(c1, Deliver(Copied(v, w)))
            && var c2 := Next(c1, Deliver(Copied(v, w)));
               Committed(c2, v) || Copying(c2, v, done + {w})
  {
    hide Act, Quiet, Up, Spreading, Settled, Enabled;
    CopySent(c.nodes[v], v, c.initial, {v} + done, w);
    CanDeliver(c, v, Copy(v, w));
    TakesCopy(c.nodes[w], v, w, c.initial);
    CanDeliver(Next(c, Deliver(Copy(v, w))), w, Copied(v, w));
    CountsCopy(c.nodes[v], v, w, c.initial, {v} + done);
    assert {v} + done + {w} == {v} + (done + {w});
  }

  lemma ReplicationRound(start: Cluster, c: Cluster, v: NodeId, done: set<NodeId>) returns (c': Cluster)
    requires Reachable(start, c) && Copying(c, v, done)
    ensures Reachable(start, c') && Committed(c', v) && c'.initial == c.initial
    decreases |Others(c, v) - done|
  {
    hide Act, Reachable, Enabled, Quiet, Up, Spreading, Settled;
    var w :| w in c.initial && w !in {v} + done;
    CopyOne(c, v, done, w);
    ReachNext(start, c, Deliver(Copy(v, w)));
    var c1 := Next(c, Deliver(Copy(v, w)));
    ReachNext(start, c1, Deliver(Copied(v, w)));
    c' := Next(c1, Deliver(Copied(v, w)));
    if !Committed(c', v) {
      assert Others(c', v) - (done + {w}) == (Others(c, v) - done) - {w};
      c' := ReplicationRound(start, c', v, done + {w});
    }
  }

  // ---- a read ----

  predicate Polling(c: Cluster, v: NodeId, id: nat, done: set<NodeId>) {
    && Placed(c, v, done) && Reading(c.nodes[v], v, c.initial, id, {v} + done)
    && forall w | w in Others(c, v) :: Up(c.nodes[w], w)
  }

  predicate Served(c: Cluster, v: NodeId) { v in c.nodes && HasServed(c.nodes[v]) }

  lemma StartPolling(c: Cluster, v: NodeId)
    requires Committed(c, v) && |c.initial| >= 2
    ensures Enabled(c, Read(v, LOOKUP)) && Polling(Next(c, Read(v, LOOKUP)), v, 0, {})
  {
    hide Act, Settled, Reading, Up;
    AsksForRead(c.nodes[v], v, c.initial);
    assert {v} + {} == {v};
  }

  lemma PingSent(n: NodeState, v: NodeId, voters: set<NodeId>, id: nat, acks: set<NodeId>, w: NodeId)
    requires Reading(n, v, voters, id, acks) && w in voters - {v}
    ensures Ping(v, w, id) in n.sent && !Majority(acks, voters)
  {}

  lemma PollOne(c: Cluster, v: NodeId, id: nat, done: set<NodeId>, w: NodeId)
    requires Polling(c, v, id, done) && w in Others(c, v) - done
    ensures Enabled(c, Deliver(Ping(v, w, id)))
    ensures var c1 := Next(c, Deliver(Ping(v, w, id)));
            && Enabled(c1, Deliver(Pong(v, w, id)))
            && var c2 := Next(c1, Deliver(Pong(v, w, id)));
               if Majority({v} + done + {w}, c.initial) then Served(c2, v) && c2.nodes[v].replica.reports == Answered(id) else Polling(c2, v, id, done + {w})
  {
    hide Act, Up, Majority, Reading, HasServed, Enabled;
    PingSent(c.nodes[v], v, c.initial, id, {v} + done, w);
    CanDeliver(c, v, Ping(v, w, id));
    AnswersPing(c.nodes[w], v, w, id);
    CanDeliver(Next(c, Deliver(Ping(v, w, id))), w, Pong(v, w, id));
    CountsAck(c.nodes[v], v, w, c.initial, id, {v} + done);
    assert {v} + done + {w} == {v} + (done + {w});
  }

  lemma Unpolled(c: Cluster, v: NodeId, id: nat, done: set<NodeId>) returns (w: NodeId)
    requires Polling(c, v, id, done)
    ensures w in Others(c, v) - done && v in c.nodes && w in c.nodes
  {
    if c.initial <= {v} + done { AllAreMajority({v} + done, c.initial); }
    w :| w in c.initial && w !in {v} + done;
  }

  lemma ReadRound(start: Cluster, c: Cluster, v: NodeId, id: nat, done: set<NodeId>) returns (c': Cluster)
    requires Reachable(start, c) && Polling(c, v, id, done)
    ensures Reachable(start, c') && Served(c', v)
    decreases |Others(c, v) - done|
  {
    hide Act, Reachable, Enabled, Polling, Served;
    var w := Unpolled(c, v, id, done);
    PollOne(c, v, id, done, w);
    ReachNext(start, c, Deliver(Ping(v, w, id)));
    var c1 := Next(c, Deliver(Ping(v, w, id)));
    ReachNext(start, c1, Deliver(Pong(v, w, id)));
    c' := Next(c1, Deliver(Pong(v, w, id)));
    if !Majority({v} + done + {w}, c.initial) {
      assert Others(c', v) - (done + {w}) == (Others(c, v) - done) - {w};
      c' := ReadRound(start, c', v, id, done + {w});
    }
  }

  // ---- exactly which clusters commit and serve reads ----

  /** At moment k of the run from `start`, server i has committed something. */
  predicate Commits(start: Cluster, r: Execution, k: nat, i: NodeId) {
    At(r, k, i) && r.states[0] == start && NodeAt(r, k, i).replica.commit > 0
  }

  predicate Serves(start: Cluster, r: Execution, k: nat, i: NodeId) {
    At(r, k, i) && r.states[0] == start && HasServed(NodeAt(r, k, i))
  }

  /** Some run serves a read, and had committed an entry by then. */
  lemma TwoVotersCanServe(start: Cluster)
    requires Starts(start) && start.initial <= start.nodes.Keys && |start.initial| >= 2
    ensures (exists r, k, i :: Commits(start, r, k, i)) && exists r, k, i :: Serves(start, r, k, i)
  {
    hide Act, Starts, Reachable, Enabled, Asking, Copying, Elected, Committed, Polling, Served, Commits, Serves, HasServed;
    var v :| v in start.initial;
    ReachStart(start);
    StartAsking(start, v);
    ReachNext(start, start, Timeout(v));
    var c1 := ElectionRound(start, Next(start, Timeout(v)), v, {});
    ElectedPlaced(c1, v);
    StartCopying(c1, v);
    ReachNext(start, c1, Client(v, FIRST.command));
    var c2 := ReplicationRound(start, Next(c1, Client(v, FIRST.command)), v, {});
    CommitsThere(start, c2, v);
    StartPolling(c2, v);
    ReachNext(start, c2, Read(v, LOOKUP));
    var c3 := ReadRound(start, Next(c2, Read(v, LOOKUP)), v, 0, {});
    ServesThere(start, c3, v);
  }

  lemma ElectedPlaced(c: Cluster, v: NodeId)
    requires Elected(c, v)
    ensures v in c.nodes
  {}

  lemma CommitsThere(start: Cluster, c: Cluster, v: NodeId)
    requires Reachable(start, c) && Committed(c, v)
    ensures v in c.nodes && exists r, k, i :: Commits(start, r, k, i)
  {
    hide IsRun;
    var r :| EndsIn(r, start, c);
    RunEnds(r);
    assert Commits(start, r, |r.states| - 1, v);
  }

  lemma ServesThere(start: Cluster, c: Cluster, v: NodeId)
    requires Reachable(start, c) && Served(c, v)
    ensures exists r, k, i :: Serves(start, r, k, i)
  {
    hide IsRun, HasServed;
    var r :| EndsIn(r, start, c);
    RunEnds(r);
    assert Serves(start, r, |r.states| - 1, v);
  }

  lemma RunEnds(r: Execution)
    requires IsRun(r)
    ensures |r.states| > 0
  {}

  /** The exact condition: a cluster has runs that commit, and runs that serve a read, if and only if it starts
      with at least two voters. */
  lemma CommitsExactlyWithTwoVoters(start: Cluster)
    requires Starts(start) && start.initial <= start.nodes.Keys
    ensures (exists r, k, i :: Commits(start, r, k, i)) <==> |start.initial| >= 2
    ensures (exists r, k, i :: Serves(start, r, k, i)) <==> |start.initial| >= 2
  {
    hide IsRun, Starts;
    if |start.initial| >= 2 {
      TwoVotersCanServe(start);
    } else {
      forall r, k, i ensures !Commits(start, r, k, i) && !Serves(start, r, k, i) {
        if At(r, k, i) && r.states[0] == start { SingleVoter.OneVoterNeverCommits(r, k, i); }
      }
    }
  }
}
