/** A cluster never gets stuck for good: from every state a run has reached, a server of its own configuration whose
    log is as recent as those of a majority can be elected, commit a new command and serve a read, whatever happened
    before (raftverified/node.py; section 5 of the Raft paper). */
module Availability {
  import opened Types
  import opened Quorums
  import opened Kv
  import opened Logs
  import opened Replicas
  import opened NodeSpec
  import opened NodeRefinement
  import opened Cluster
  import opened ClusterSafety
  import opened CommitRule
  import opened LogOrigins
  import opened LookupSafety
  import opened Recovery
  import opened Requests
  import opened Rounds
  import opened HandlerLaws
  import opened Journeys
  import opened Elections
  import opened Repair

  // ---- a new command ----

  /** The command is not a configuration, and no request in the log makes it an old one. */
  predicate NewFor(log: Log, cmd: Command) {
    !cmd.Config? && (cmd.IsStructured() ==> cmd.req >= 0 && !HoldsRequest(log, cmd))
  }

  lemma Appends(start: Cluster, c: Cluster, v: NodeId, t: nat, cmd: Command)
    requires Reachable(start, c) && v in c.nodes && InOffice(c.nodes[v], t) && NewFor(c.nodes[v].replica.log, cmd)
    ensures var n, n' := c.nodes[v], ClientCommand(c.nodes[v], cmd).0;
            && InOffice(n', t) && n'.replica.log == n.replica.log + [Entry(t, cmd)] && n'.replica.voters == n.replica.voters
            && v in n'.progress.matchIndex && n'.progress.matchIndex[v] == |n.replica.log| + 1
            && n'.replica.commit <= |n.replica.log| && n'.id == v
  {
    hide IsRun, BroadcastPackets, Uncompacted, ProgressOK;
    AllSane(start, c, v);
    SaneFacts(c.nodes[v], v, c.nodes.Keys, start.initial);
    var r :| EndsIn(r, start, c);
    var k := RunEnd(r);
    TablesFollow(r, k, v);
    if cmd.IsStructured() { TableTells(c.nodes[v].replica.log, cmd); }
    hide HoldsRequest, ClientIndex;
  }

  /** The leader's log ends with the new entry, the servers in `done` are known to hold it, and it is committed
      once they are a majority with the leader. */
  predicate Gathering(c: Cluster, v: NodeId, t: nat, log: Log, voters: set<NodeId>, done: set<NodeId>) {
    && v in c.nodes && voters <= c.nodes.Keys && InOffice(c.nodes[v], t) && c.nodes[v].id == v
    && c.nodes[v].replica.log == log && c.nodes[v].replica.voters == voters && v in voters
    && log != [] && log[|log| - 1].term == t
    && (forall i | i in c.nodes :: c.nodes[i].term <= t)
    && (forall w | w in done + {v} :: w in c.nodes[v].progress.matchIndex && c.nodes[v].progress.matchIndex[w] >= |log|)
    && (c.nodes[v].replica.commit < |log| || (c.nodes[v].replica.commit == |log| && c.nodes[v].committedThisTerm))
    && (MostOf(done + {v}, voters) ==> c.nodes[v].replica.commit == |log|)
  }

  lemma GatherOne(start: Cluster, origin: Cluster, c: Cluster, v: NodeId, t: nat, log: Log, voters: set<NodeId>, done: set<NodeId>, w: NodeId) returns (c': Cluster)
    requires Onward(start, origin, c) && Gathering(c, v, t, log, voters, done) && w in voters && w != v
    ensures Onward(start, origin, c') && c'.nodes.Keys == c.nodes.Keys && Gathering(c', v, t, log, voters, done + {w})
  {
    hide Act, Onward, Enabled, LeaderAfter, FollowerAfter, MostOf;
    Local(c, Recover(w));
    ActsRecover(c.nodes[w], w);
    var c1 := Go(start, origin, c, Recover(w));
    c' := CanRepair(start, origin, c1, v, w, t);
    GatheredOne(c, c', v, t, log, voters, done, w, c.nodes[w]);
  }

  lemma GatheredOne(c: Cluster, c': Cluster, v: NodeId, t: nat, log: Log, voters: set<NodeId>, done: set<NodeId>, w: NodeId, f: NodeState)
    requires Gathering(c, v, t, log, voters, done) && w in voters && w != v && w in c'.nodes && v in c'.nodes
    requires c'.nodes.Keys == c.nodes.Keys && forall i | i in c.nodes && i != v && i != w :: c'.nodes[i] == c.nodes[i]
    requires LeaderAfter(c.nodes[v], c'.nodes[v], t, w) && exists g, l :: FollowerAfter(g, c'.nodes[w], l, t)
    ensures Gathering(c', v, t, log, voters, done + {w})
  {
    hide SameLog;
    var n' := c'.nodes[v];
    SameLogFields(c.nodes[v], n');
    if MostOf(done + {w} + {v}, voters) {
      assert (done + {w} + {v}) * voters <= Holders(n', |log|) * voters;
      SubsetSize((done + {w} + {v}) * voters, Holders(n', |log|) * voters);
    }
  }

  lemma SameLogFields(n: NodeState, n': NodeState)
    requires SameLog(n, n')
    ensures n'.replica.log == n.replica.log && n'.replica.voters == n.replica.voters
  {}

  lemma {:induction false} Gather(start: Cluster, origin: Cluster, c: Cluster, v: NodeId, t: nat, log: Log, voters: set<NodeId>, done: set<NodeId>, left: set<NodeId>) returns (c': Cluster)
    requires Onward(start, origin, c) && Gathering(c, v, t, log, voters, done) && left <= voters - {v}
    ensures Onward(start, origin, c') && c'.nodes.Keys == c.nodes.Keys && Gathering(c', v, t, log, voters, done + left)
    decreases |left|
  {
    hide Onward, Gathering;
    if left == {} {
      c' := c;
      assert done + left == done;
    } else {
      var w :| w in left;
      c' := GatherOne(start, origin, c, v, t, log, voters, done, w);
      c' := Gather(start, origin, c', v, t, log, voters, done + {w}, left - {w});
      assert done + {w} + (left - {w}) == done + left;
    }
  }

  // ---- a read ----

  /** The read with this id waits for a majority of acknowledgements, and has those of `acks`. */
  predicate Awaiting(n: NodeState, t: nat, id: nat, read: Command, acks: set<NodeId>) {
    && InOffice(n, t) && id in n.readTable.pending && n.readTable.pending[id].command == read && n.readTable.pending[id].acks == acks
    && n.readTable.pending[id].index <= n.replica.lastApplied && !MostOf(acks, n.replica.voters)
    && forall p | p in n.replica.voters && p != n.id :: Packet(n.id, p, ReadHeartbeat(t, n.id, id)) in n.sent
  }

  /** The answer to the read is the leader's last report, and it comes from all the leader has committed. */
  predicate JustServed(n: NodeState, id: nat, read: Command) {
    var size := |n.replica.reports|;
    size > 0 && n.replica.reports[size - 1] == ReadServed(id, n.replica.commit, read, ApplyRead(n.replica.kv, read))
  }

  lemma Asks(n: NodeState, i: NodeId, ids: set<NodeId>, initial: set<NodeId>, t: nat, read: Command)
    requires Sane(n, i, ids, initial) && InOffice(n, t) && n.committedThisTerm && |n.replica.voters| >= 2
    ensures var n' := RequestRead(n, read).0;
            Awaiting(n', t, n.readTable.nextId, read, {i}) && n'.replica == n.replica && n'.id == i
  {
    hide Represents, ProgressOK;
    SaneFacts(n, i, ids, initial);
    hide Uncompacted;
    AtMostOne(i, n.replica.voters);
    ReadIsRegistered(n, read);
    hide ApplyRead;
  }

  lemma AtMostOne(i: NodeId, voters: set<NodeId>)
    requires |voters| >= 2
    ensures |{i} * voters| * 2 <= |voters| && !MostOf({i}, voters)
  {
    SubsetSize({i} * voters, {i});
  }

  lemma Confirms(n: NodeState, t: nat, id: nat, read: Command, acks: set<NodeId>, w: NodeId)
    requires Awaiting(n, t, id, read, acks) && n.replica.lastApplied == n.replica.commit
    ensures var n' := Handle(n, ReadAck(t, w, id));
            && n'.replica.log == n.replica.log && n'.replica.voters == n.replica.voters && n'.replica.commit == n.replica.commit
            && n'.replica.lastApplied == n.replica.lastApplied && n'.id == n.id && InOffice(n', t)
            && if MostOf(acks + {w}, n.replica.voters) then JustServed(n', id, read) else Awaiting(n', t, id, read, acks + {w})
  {
    hide ApplyRead;
  }

  lemma Acknowledges(n: NodeState, t: nat, v: NodeId, id: nat)
    requires n.alive && n.term <= t
    ensures var n' := Handle(n, ReadHeartbeat(t, v, id)); n'.term == t && Packet(n.id, v, ReadAck(t, n.id, id)) in n'.sent
  {}

  predicate Polled(c: Cluster, v: NodeId, t: nat, log: Log, voters: set<NodeId>) {
    && v in c.nodes && voters <= c.nodes.Keys && c.nodes[v].id == v && InOffice(c.nodes[v], t)
    && c.nodes[v].replica.log == log && c.nodes[v].replica.voters == voters
    && c.nodes[v].replica.commit == |log| == c.nodes[v].replica.lastApplied
    && forall i | i in c.nodes :: c.nodes[i].term <= t
  }

  lemma PollOne(start: Cluster, origin: Cluster, c: Cluster, v: NodeId, t: nat, log: Log, voters: set<NodeId>, id: nat, read: Command, done: set<NodeId>, w: NodeId) returns (c': Cluster)
    requires Onward(start, origin, c) && Polled(c, v, t, log, voters) && Awaiting(c.nodes[v], t, id, read, {v} + done) && w in voters && w != v
    ensures Onward(start, origin, c') && Polled(c', v, t, log, voters) && c'.nodes.Keys == c.nodes.Keys && v in c'.nodes
    ensures JustServed(c'.nodes[v], id, read) || Awaiting(c'.nodes[v], t, id, read, {v} + (done + {w}))
  {
    hide Act, Onward, Reachable, Sane, Enabled, Handle, Awaiting, JustServed;
    var ping, pong := Packet(v, w, ReadHeartbeat(t, v, id)), Packet(w, v, ReadAck(t, w, id));
    PingIsSent(c.nodes[v], t, id, read, {v} + done, w);
    Local(c, Recover(w));
    ActsRecover(c.nodes[w], w);
    var c1 := Go(start, origin, c, Recover(w));
    Arrived(start, origin, c1);
    AllSane(start, c1, w);
    SaneIds(c1.nodes[w], w, c1.nodes.Keys, start.initial);
    Delivery(c1, v, ping);
    ActsDeliver(c1.nodes[w], ping);
    Acknowledges(c1.nodes[w], t, v, id);
    var c2 := Go(start, origin, c1, Deliver(ping));
    Delivery(c2, w, pong);
    ActsDeliver(c2.nodes[v], pong);
    Confirms(c.nodes[v], t, id, read, {v} + done, w);
    c' := Go(start, origin, c2, Deliver(pong));
    assert {v} + done + {w} == {v} + (done + {w});
  }

  lemma PingIsSent(n: NodeState, t: nat, id: nat, read: Command, acks: set<NodeId>, w: NodeId)
    requires Awaiting(n, t, id, read, acks) && w in n.replica.voters && w != n.id
    ensures Packet(n.id, w, ReadHeartbeat(t, n.id, id)) in n.sent && !MostOf(acks, n.replica.voters)
  {}

  lemma {:induction false} Poll(start: Cluster, origin: Cluster, c: Cluster, v: NodeId, t: nat, log: Log, voters: set<NodeId>, id: nat, read: Command, q: set<NodeId>, done: set<NodeId>) returns (c': Cluster)
    requires Onward(start, origin, c) && Polled(c, v, t, log, voters) && Awaiting(c.nodes[v], t, id, read, {v} + done)
    requires MostOf(q, voters) && q <= voters
    ensures Onward(start, origin, c') && Polled(c', v, t, log, voters) && c'.nodes.Keys == c.nodes.Keys && v in c'.nodes && JustServed(c'.nodes[v], id, read)
    decreases |q - done|
  {
    hide Onward, JustServed, Polled, InOffice;
    var w := SomeVoterLeft(c, v, t, log, voters, id, read, q, done);
    hide Awaiting;
    c' := PollOne(start, origin, c, v, t, log, voters, id, read, done, w);
    if !JustServed(c'.nodes[v], id, read) {
      assert q - (done + {w}) == q - done - {w};
      c' := Poll(start, origin, c', v, t, log, voters, id, read, q, done + {w});
    }
  }

  lemma SomeVoterLeft(c: Cluster, v: NodeId, t: nat, log: Log, voters: set<NodeId>, id: nat, read: Command, q: set<NodeId>, done: set<NodeId>) returns (w: NodeId)
    requires Polled(c, v, t, log, voters) && Awaiting(c.nodes[v], t, id, read, {v} + done) && MostOf(q, voters) && q <= voters
    ensures w in q && w !in done && w != v
  {
    if q <= {v} + done {
      SubsetSize(q * voters, ({v} + done) * voters);
      assert false;
    }
    w :| w in q && w !in {v} + done;
  }

  // ---- all of it ----

  /** In office with a new entry, committed by an actual majority and reported, and with a read answered from it. */
  predicate Serving(n: NodeState, log: Log, cmd: Command, id: nat, read: Command) {
    && n.alive && n.role.Leader? && n.replica.log == log + [Entry(n.term, cmd)] && n.replica.commit == |log| + 1
    && JustServed(n, id, read)
  }

  lemma StartGathering(start: Cluster, origin: Cluster, c: Cluster, v: NodeId, t: nat, cmd: Command) returns (c': Cluster)
    requires Onward(start, origin, c) && v in c.nodes && InOffice(c.nodes[v], t) && forall i | i in c.nodes :: c.nodes[i].term <= t
    requires c.nodes[v].replica.voters <= c.nodes.Keys && v in c.nodes[v].replica.voters && |c.nodes[v].replica.voters| >= 2
    requires NewFor(c.nodes[v].replica.log, cmd)
    ensures Onward(start, origin, c') && c'.nodes.Keys == c.nodes.Keys
    ensures Gathering(c', v, t, c.nodes[v].replica.log + [Entry(t, cmd)], c.nodes[v].replica.voters, {})
  {
    hide Act, Onward, Reachable, Enabled, MostOf, NewFor;
    Arrived(start, origin, c);
    Appends(start, c, v, t, cmd);
    NotConfig(c.nodes[v].replica.log, cmd);
    Local(c, Client(v, cmd));
    ActsClient(c.nodes[v], v, cmd);
    c' := Go(start, origin, c, Client(v, cmd));
    AtMostOne(v, c.nodes[v].replica.voters);
    assert {} + {v} == {v};
  }

  lemma NotConfig(log: Log, cmd: Command)
    requires NewFor(log, cmd)
    ensures !cmd.Config?
  {}

  lemma ActsClient(n: NodeState, i: NodeId, cmd: Command)
    requires !cmd.Config?
    ensures Act(n, Client(i, cmd)) == ClientCommand(n, cmd).0
  {}

  lemma ActsRead(n: NodeState, i: NodeId, cmd: Command)
    ensures Act(n, Read(i, cmd)) == RequestRead(n, cmd).0
  {}

  lemma Committed(start: Cluster, origin: Cluster, c: Cluster, v: NodeId, t: nat, log: Log, voters: set<NodeId>, q: set<NodeId>)
    requires Onward(start, origin, c) && Gathering(c, v, t, log, voters, (q * voters) - {v}) && MostOf(q, voters)
    ensures Polled(c, v, t, log, voters) && c.nodes[v].committedThisTerm
  {
    hide Onward, Reachable, Represents, ProgressOK;
    Arrived(start, origin, c);
    AllSane(start, c, v);
    SaneFacts(c.nodes[v], v, c.nodes.Keys, start.initial);
    hide Uncompacted;
    assert q * voters <= (((q * voters) - {v}) + {v}) * voters;
    SubsetSize(q * voters, (((q * voters) - {v}) + {v}) * voters);
  }

  /** The theorem: any majority will do, everybody else may stay silent, and no earlier crash, loss, election or
      change of the configuration can prevent it. */
  lemma StaysAvailable(start: Cluster, c: Cluster, v: NodeId, q: set<NodeId>, cmd: Command, read: Command) returns (c': Cluster, id: nat)
    requires Reachable(start, c) && v in c.nodes && q <= c.nodes.Keys
    requires var voters := c.nodes[v].replica.voters; v in voters && voters <= c.nodes.Keys && |voters| >= 2 && MostOf(q, voters)
    requires forall w | w in q :: AsRecent(c.nodes[v].replica.log, c.nodes[w].replica.log)
    requires NewFor(c.nodes[v].replica.log, cmd)
    ensures Reaches(c, c') && v in c'.nodes && Serving(c'.nodes[v], c.nodes[v].replica.log, cmd, id, read)
  {
    hide Act, Onward, Reachable, Reaches, InOffice, Gathering, Awaiting, NewFor, AsRecent, JustServed, MostOf, KeepsLogs, Enabled, Sane;
    var log, voters := c.nodes[v].replica.log, c.nodes[v].replica.voters;
    var c1 := CanBeElected(start, c, v, q);
    KeptOne(c, c1, q + {v}, v);
    Moved(c, c1, q + {v});
    var t := c1.nodes[v].term;
    var c2 := StartGathering(start, c, c1, v, t, cmd);
    var c3 := Gather(start, c, c2, v, t, log + [Entry(t, cmd)], voters, {}, (q * voters) - {v});
    assert {} + ((q * voters) - {v}) == (q * voters) - {v};
    Committed(start, c, c3, v, t, log + [Entry(t, cmd)], voters, q);
    var c4: Cluster;
    c4, id := StartPolling(start, c, c3, v, t, log + [Entry(t, cmd)], voters, read);
    MostWithin(q, voters);
    c' := Poll(start, c, c4, v, t, log + [Entry(t, cmd)], voters, id, read, q * voters, {});
    NowServing(c', v, t, log, voters, cmd);
    ReachedFrom(start, c, c');
  }

  lemma StartPolling(start: Cluster, origin: Cluster, c: Cluster, v: NodeId, t: nat, log: Log, voters: set<NodeId>, read: Command) returns (c': Cluster, id: nat)
    requires Onward(start, origin, c) && Polled(c, v, t, log, voters) && c.nodes[v].committedThisTerm && |voters| >= 2
    ensures Onward(start, origin, c') && Polled(c', v, t, log, voters) && c'.nodes.Keys == c.nodes.Keys && Awaiting(c'.nodes[v], t, id, read, {v} + {})
  {
    hide Act, Onward, Reachable, Enabled, Sane, Awaiting;
    Arrived(start, origin, c);
    AllSane(start, c, v);
    Asks(c.nodes[v], v, c.nodes.Keys, start.initial, t, read);
    id := c.nodes[v].readTable.nextId;
    Local(c, Read(v, read));
    ActsRead(c.nodes[v], v, read);
    c' := Go(start, origin, c, Read(v, read));
    assert {v} + {} == {v};
    AwaitingOffice(c'.nodes[v], t, id, read, {v});
  }

  lemma AwaitingOffice(n: NodeState, t: nat, id: nat, read: Command, acks: set<NodeId>)
    requires Awaiting(n, t, id, read, acks)
    ensures InOffice(n, t)
  {}

  lemma MostWithin(q: set<NodeId>, voters: set<NodeId>)
    requires MostOf(q, voters)
    ensures MostOf(q * voters, voters)
  {
    assert (q * voters) * voters == q * voters;
  }

  lemma NowServing(c: Cluster, v: NodeId, t: nat, log: Log, voters: set<NodeId>, cmd: Command)
    requires Polled(c, v, t, log + [Entry(t, cmd)], voters)
    ensures var n := c.nodes[v]; n.alive && n.role.Leader? && n.replica.log == log + [Entry(n.term, cmd)] && n.replica.commit == |log| + 1
  {}

  lemma ReachedFrom(start: Cluster, origin: Cluster, c: Cluster)
    requires Onward(start, origin, c)
    ensures Reaches(origin, c)
  {}

  // ---- without configuration changes ----

  lemma {:induction false} NoConfigs(r: Execution, k: nat, i: NodeId)
    requires At(r, k, i) && forall j | 0 <= j < k :: !r.events[j].Reconfigure?
    ensures forall x | 0 <= x < |LogAt(r, k, i)| :: !LogAt(r, k, i)[x].command.Config?
    decreases k
  {
    hide Starts, StepBy, LogOrigins.Appends;
    if k == 0 {
      StartRequests(r.states[0], i);
    } else {
      StepChanges(r, k - 1);
      StepEnabled(r, k - 1);
      LogOrigin(r, k - 1, i);
      NoConfigs(r, k - 1, i);
      if LeaderLogBy(r, k - 1, LogAt(r, k, i)) {
        var j: nat, l, t :| j <= k - 1 && LeaderLogAt(r, j, l, t, LogAt(r, k, i));
        NoConfigs(r, j, l);
      } else if LogAt(r, k, i) != LogAt(r, k - 1, i) {
        AppendsNoConfig(NodeAt(r, k - 1, i), r.events[k - 1], NodeAt(r, k, i));
      }
    }
  }

  lemma AppendsNoConfig(n: NodeState, e: Event, n': NodeState)
    requires LogOrigins.Appends(n, e, n') && !e.Reconfigure? && (e.Client? ==> !e.command.Config?)
    requires forall x | 0 <= x < |n.replica.log| :: !n.replica.log[x].command.Config?
    ensures forall x | 0 <= x < |n'.replica.log| :: !n'.replica.log[x].command.Config?
  {
    var cmd :| AppendedBy(n, e, n', cmd);
  }

  lemma {:induction false} NoConfigMeansInitial(initial: set<NodeId>, log: Log)
    requires forall x | 0 <= x < |log| :: !log[x].command.Config?
    ensures ConfigOf(initial, log) == initial
  {
    if log != [] { NoConfigMeansInitial(initial, log[..|log| - 1]); }
  }

  lemma {:induction false} MostRecent(c: Cluster, some: set<NodeId>) returns (v: NodeId)
    requires some <= c.nodes.Keys && some != {}
    ensures v in some && forall w | w in some :: AsRecent(c.nodes[v].replica.log, c.nodes[w].replica.log)
    decreases |some|
  {
    var i :| i in some;
    if some == {i} {
      v := i;
    } else {
      v := MostRecent(c, some - {i});
      if !AsRecent(c.nodes[v].replica.log, c.nodes[i].replica.log) { v := i; }
    }
  }

  /** In a run without configuration changes nothing is left to assume: two initial voters are enough, at every
      moment of the run. */
  lemma AlwaysAvailable(r: Execution, k: nat, text: string, read: Command) returns (v: NodeId, c': Cluster, id: nat)
    requires IsRun(r) && k < |r.states| && forall j | 0 <= j < k :: !r.events[j].Reconfigure?
    requires r.states[0].initial <= r.states[0].nodes.Keys && |r.states[0].initial| >= 2
    ensures v in r.states[k].nodes && v in c'.nodes && Reaches(r.states[k], c')
    ensures Serving(c'.nodes[v], r.states[k].nodes[v].replica.log, Opaque(text), id, read)
  {
    hide IsRun, AsRecent, Serving, Reachable, Reaches;
    var start, c := r.states[0], r.states[k];
    ReachesMoment(r, k);
    var initial := start.initial;
    var some: NodeId :| some in initial;
    AllSaneKeys(start, c);
    v := MostRecent(c, initial);
    VotersAreInitial(r, k, v);
    assert initial * initial == initial;
    c', id := StaysAvailable(start, c, v, initial, Opaque(text), read);
  }

  lemma AllSaneKeys(start: Cluster, c: Cluster)
    requires Reachable(start, c)
    ensures c.nodes.Keys == start.nodes.Keys
  {
    hide IsRun;
    var r :| EndsIn(r, start, c);
    var k := RunEnd(r);
    KeysStay(r, k);
  }

  lemma {:induction false} KeysStay(r: Execution, k: nat)
    requires IsRun(r) && k < |r.states|
    ensures r.states[k].nodes.Keys == r.states[0].nodes.Keys
  {
    hide IsRun;
    if k > 0 {
      RunShape(r);
      StepChanges(r, k - 1);
      KeysStay(r, k - 1);
    }
  }

  lemma RunShape(r: Execution)
    requires IsRun(r)
    ensures |r.states| == |r.events| + 1 && Starts(r.states[0])
  {}

  lemma VotersAreInitial(r: Execution, k: nat, v: NodeId)
    requires At(r, k, v) && forall j | 0 <= j < k :: !r.events[j].Reconfigure?
    ensures NodeAt(r, k, v).replica.voters == r.states[0].initial
  {
    hide Uncompacted, ConfigOf, LatestConfig;
    NoConfigs(r, k, v);
    MembershipIsDerived(r, k, v);
    NoConfigMeansInitial(r.states[0].initial, LogAt(r, k, v));
  }

  lemma ReachesMoment(r: Execution, k: nat)
    requires IsRun(r) && k < |r.states|
    ensures Reachable(r.states[0], r.states[k])
  {
    hide StepBy;
    var part := Execution(r.states[..k + 1], r.events[..k]);
    forall j | 0 <= j < |part.events| ensures StepBy(part.states[j], part.events[j], part.states[j + 1]) {
      assert StepBy(r.states[j], r.events[j], r.states[j + 1]);
    }
    assert EndsIn(part, r.states[0], r.states[k]);
  }

  // ---- a log that repair does not shorten ----

  const THREE := Cluster({0, 1, 2}, map[0 := Initial(0, {1, 2}, {0, 1, 2}, 0), 1 := Initial(1, {0, 2}, {0, 1, 2}, 0), 2 := Initial(2, {0, 1}, {0, 1, 2}, 0)])

  lemma ThreeStart()
    ensures Starts(THREE) && THREE.nodes.Keys == {0, 1, 2}
    ensures forall i | i in THREE.nodes :: THREE.nodes[i].replica.log == [] && THREE.nodes[i].replica.voters == {0, 1, 2}
  {}

  lemma TwoOfThree(a: NodeId, b: NodeId)
    requires a in {0, 1, 2} && b in {0, 1, 2} && a != b
    ensures MostOf({a, b}, {0, 1, 2}) && |{0, 1, 2}| == 3
  {
    assert {a, b} * {0, 1, 2} == {a, b};
  }

  predicate Empty(c: Cluster, some: set<NodeId>) {
    c.nodes.Keys == {0, 1, 2} && forall i | i in some && i in c.nodes :: c.nodes[i].replica.log == [] && c.nodes[i].replica.voters == {0, 1, 2}
  }

  /** Server 0 leads and has appended an entry that nobody else got. */
  lemma OnlyAppends(start: Cluster) returns (c: Cluster)
    requires Starts(start) && Empty(start, {0, 1, 2})
    ensures Reachable(start, c) && Empty(c, {1, 2}) && c.nodes[0].replica.log != []
  {
    hide Act, Reachable, Onward, KeepsLogs, MostOf, Enabled, Starts;
    ReachStart(start);
    TwoOfThree(0, 1);
    var c1 := CanBeElected(start, start, 0, {0, 1});
    AllKept(start, c1, {0, 1} + {0});
    var cmd := Opaque("x");
    Arrived(start, start, c1);
    Here(start, c1);
    Appends(start, c1, 0, c1.nodes[0].term, cmd);
    Local(c1, Client(0, cmd));
    ActsClient(c1.nodes[0], 0, cmd);
    c := Go(start, c1, c1, Client(0, cmd));
    Arrived(start, c1, c);
  }

  /** Repair need not make the logs equal: server 1 leads with an empty log, and server 0's is a continuation of it. */
  lemma LongerLogSurvives() returns (c: Cluster)
    ensures Reachable(THREE, c) && c.nodes.Keys == {0, 1, 2}
    ensures c.nodes[1].alive && c.nodes[1].role.Leader? && c.nodes[0].term <= c.nodes[1].term
    ensures Repaired(c.nodes[0].replica.log, c.nodes[1].replica.log) != c.nodes[1].replica.log
  {
    hide Starts, Reachable;
    ThreeStart();
    var c2 := OnlyAppends(THREE);
    c := OtherLeads(THREE, c2);
  }

  lemma OtherLeads(start: Cluster, c2: Cluster) returns (c: Cluster)
    requires Reachable(start, c2) && Empty(c2, {1, 2}) && c2.nodes[0].replica.log != []
    ensures Reachable(start, c) && c.nodes.Keys == {0, 1, 2}
    ensures c.nodes[1].alive && c.nodes[1].role.Leader? && c.nodes[0].term <= c.nodes[1].term
    ensures c.nodes[0].replica.log != [] && c.nodes[1].replica.log == []
  {
    hide Reachable, Onward, KeepsLogs, MostOf;
    TwoOfThree(1, 2);
    c := CanBeElected(start, c2, 1, {1, 2});
    AllKept(c2, c, {1, 2} + {1});
    Arrived(start, c2, c);
  }

  lemma AllKept(c: Cluster, d: Cluster, movers: set<NodeId>)
    requires KeepsLogs(c, d, movers)
    ensures d.nodes.Keys == c.nodes.Keys
    ensures forall i | i in c.nodes :: d.nodes[i].replica.log == c.nodes[i].replica.log && d.nodes[i].replica.voters == c.nodes[i].replica.voters
  {}
}
