/** No client request is ever in a log twice, although it may be submitted to several leaders and
    retried any number of times: every log holds each client's requests in strictly increasing order
    (`client_command`, `_rebuild_client_index`, section 6.3 of Ongaro's dissertation). */
module Requests {
  import opened Types
  import opened Quorums
  import opened Logs
  import opened Replicas
  import opened NodeSpec
  import opened NodeRefinement
  import opened Cluster
  import opened ClusterSafety
  import opened CommitRule
  import opened LogOrigins

  predicate SameClient(a: Command, b: Command) {
    a.IsStructured() && b.IsStructured() && a.client == b.client
  }

  predicate Increasing(log: Log) {
    forall i, j | 0 <= i < j < |log| && SameClient(log[i].command, log[j].command) ::
      log[i].command.req < log[j].command.req
  }

  /** The table rebuilt from a log bounds every request in it. */
  lemma {:induction false} IndexBounds(log: Log, i: nat)
    requires i < |log| && log[i].command.IsStructured()
    ensures log[i].command.req <= HighestRequest(ClientIndex(log), log[i].command.client)
  {
    if i < |log| - 1 { IndexBounds(log[..|log| - 1], i); }
  }

  /** ... and is attained: it is the maximum, or -1 when the client has no request above that. */
  lemma {:induction false} IndexAttained(log: Log, client: int)
    ensures var top := HighestRequest(ClientIndex(log), client);
            top == -1 || exists i :: 0 <= i < |log| && log[i].command.IsStructured() && log[i].command.client == client && log[i].command.req == top
  {
    if log != [] {
      var front, last := log[..|log| - 1], log[|log| - 1];
      IndexAttained(front, client);
      var top := HighestRequest(ClientIndex(front), client);
      if top != -1 {
        var i :| 0 <= i < |front| && front[i].command.IsStructured() && front[i].command.client == client && front[i].command.req == top;
        assert log[i] == front[i];
      }
      assert log[|log| - 1] == last;
    }
  }

  lemma IndexSnoc(log: Log, e: Entry)
    ensures ClientIndex(log + [e]) == NoteRequest(ClientIndex(log), e.command)
  {
    assert (log + [e])[..|log|] == log;
  }

  /** A leader's table is the one rebuilt from its log. */
  predicate TableOK(n: NodeState) {
    n.role.Leader? ==> n.requests.highest == ClientIndex(n.replica.log)
  }

  lemma AppendKeepsIncreasing(n: NodeState, e: Event, n': NodeState)
    requires TableOK(n) && Increasing(n.replica.log) && Appends(n, e, n')
    ensures Increasing(n'.replica.log)
  {
    var cmd :| AppendedBy(n, e, n', cmd);
    var log, log' := n.replica.log, n'.replica.log;
    forall i, j | 0 <= i < j < |log'| && SameClient(log'[i].command, log'[j].command)
      ensures log'[i].command.req < log'[j].command.req
    {
      if j == |log| {
        assert log'[i] == log[i];
        IndexBounds(log, i);
      }
    }
  }

  // ---- the table follows the log ----

  lemma ExtendKeepsTable(n: NodeState, cmd: Command)
    requires n.role.Leader? && TableOK(n) && (cmd.IsStructured() ==> !AlreadyAppended(n, cmd))
    ensures TableOK(Extend(n, cmd))
  {
    IndexSnoc(n.replica.log, Entry(n.term, cmd));
  }

  lemma LocalKeepsTable(n: NodeState, e: Event)
    requires TableOK(n) && !e.Deliver? && (e.Client? ==> !e.command.Config?)
    ensures TableOK(Act(n, e))
  {
    hide ConfigOf, LatestConfig, BroadcastPackets, ClientIndex, Majority, OneApart, AlreadyAppended, SolicitPackets;
    if e.Client? && n.role.Leader? && n.alive && !AlreadyAppended(n, e.command) {
      ExtendKeepsTable(n, e.command);
    } else if e.Reconfigure? && MayChangeConfig(n, e.voters) {
      ExtendKeepsTable(n, Config(e.voters));
    }
  }

  lemma HandleKeepsTable(n: NodeState, m: Message)
    requires TableOK(n) && n.replica.threshold <= 0
    ensures TableOK(Handle(n, m))
  {
    hide ConfigOf, LatestConfig, BroadcastPackets, ClientIndex, Majority, Absorb, Install, CommitPoint, LogInconsistent, ReadConfirmed, Outgoing;
    if m.AppendReply? { ReplyKeepsTable(n, m); }
  }

  lemma ReplyKeepsTable(n: NodeState, m: Message)
    requires m.AppendReply? && TableOK(n) && n.replica.threshold <= 0
    ensures TableOK(OnAppendReply(n, m))
  {
    hide SetCommit, CommitPoint, ClientIndex, Outgoing;
    var n1 := NoteMatch(n, m.follower, m.matchIndex);
    SetCommitFields(n.replica, CommitPoint(n1, Last(n1)));
  }

  // ---- over runs ----

  lemma StartRequests(c: Cluster, i: NodeId)
    requires Starts(c) && i in c.nodes
    ensures TableOK(c.nodes[i]) && c.nodes[i].replica.log == []
  {}

  lemma {:induction false} TablesFollow(r: Execution, k: nat, i: NodeId)
    requires At(r, k, i)
    ensures TableOK(NodeAt(r, k, i))
    decreases k
  {
    hide Starts, TableOK, Handle, AboveBase, Uncompacted, Sent, ConfigOf, LatestConfig,
         ClientCommand, ChangeConfig, RequestRead, Pause, ElectionTimeout, HeartbeatTick;
    if k == 0 {
      StartRequests(r.states[0], i);
    } else {
      StepEnabled(r, k - 1);
      StepChanges(r, k - 1);
      TablesFollow(r, k - 1, i);
      var n, e := NodeAt(r, k - 1, i), r.events[k - 1];
      if i == Actor(e) {
        MembershipIsDerived(r, k - 1, i);
        UncompactedFacts(n, r.states[0].initial);
        if e.Deliver? {
          AlwaysAboveBase(r, k - 1);
          HandleKeepsTable(n, e.packet.msg);
        } else {
          LocalKeepsTable(n, e);
        }
      }
    }
  }

  /** In every reachable state every log holds each client's requests in strictly increasing order, so
      no request occurs twice in it. */
  lemma {:induction false} RequestsIncrease(r: Execution, k: nat, i: NodeId)
    requires At(r, k, i)
    ensures Increasing(LogAt(r, k, i))
    decreases k
  {
    hide Starts, TableOK, StepBy, Increasing, Appends;
    if k == 0 {
      StartRequests(r.states[0], i);
      EmptyIncreases();
    } else {
      StepChanges(r, k - 1);
      LogOrigin(r, k - 1, i);
      RequestsIncrease(r, k - 1, i);
      if LeaderLogBy(r, k - 1, LogAt(r, k, i)) {
        var j: nat, l, t :| j <= k - 1 && LeaderLogAt(r, j, l, t, LogAt(r, k, i));
        RequestsIncrease(r, j, l);
      } else if LogAt(r, k, i) != LogAt(r, k - 1, i) {
        TablesFollow(r, k - 1, i);
        AppendKeepsIncreasing(NodeAt(r, k - 1, i), r.events[k - 1], NodeAt(r, k, i));
      }
    }
  }

  /** A client is told "accepted" exactly by a live leader. The leader's log then holds the request or a later one of
      the same client, unless the request number is negative, and it has grown exactly if it held neither before. */
  lemma AcceptedIsLogged(r: Execution, k: nat, i: NodeId, cmd: Command)
    requires At(r, k, i) && cmd.IsStructured()
    ensures var n := NodeAt(r, k, i); var (n', accepted) := ClientCommand(n, cmd);
            && (accepted <==> n.alive && n.role.Leader?)
            && (accepted ==> cmd.req < 0 || HoldsRequest(n'.replica.log, cmd))
            && n'.replica.log == if accepted && cmd.req >= 0 && !HoldsRequest(n.replica.log, cmd) then n.replica.log + [Entry(n.term, cmd)] else n.replica.log
  {
    hide IsRun, BroadcastPackets, ClientIndex;
    TablesFollow(r, k, i);
    var n := NodeAt(r, k, i);
    if n.role.Leader? { TableTells(n.replica.log, cmd); }
    assert HoldsRequest(n.replica.log + [Entry(n.term, cmd)], cmd) by { assert (n.replica.log + [Entry(n.term, cmd)])[|n.replica.log|].command == cmd; }
  }

  predicate HoldsRequest(log: Log, cmd: Command) {
    exists j :: 0 <= j < |log| && SameClient(log[j].command, cmd) && log[j].command.req >= cmd.req
  }

  lemma {:induction false} IndexAtLeast(log: Log, client: int)
    ensures HighestRequest(ClientIndex(log), client) >= -1
  {
    if log != [] { IndexAtLeast(log[..|log| - 1], client); }
  }

  lemma TableTells(log: Log, cmd: Command)
    requires cmd.IsStructured()
    ensures cmd.req <= HighestRequest(ClientIndex(log), cmd.client) <==> cmd.req < 0 || HoldsRequest(log, cmd)
  {
    hide ClientIndex;
    IndexAttained(log, cmd.client);
    IndexAtLeast(log, cmd.client);
    if j :| 0 <= j < |log| && SameClient(log[j].command, cmd) && log[j].command.req >= cmd.req { IndexBounds(log, j); }
  }

  lemma EmptyIncreases()
    ensures Increasing([])
  {}
}
