/** The client driver of the harness as an object: whose turn it is, what is outstanding, and the history
    that is recorded (raftverified/cluster.py, `_client_tick`, `_invoke`, `_on_apply`). */
module ClientDriver {
  import opened Types
  import opened Replicas
  import opened NodeSpec
  import opened Linearizability
  import opened Clients
  import opened Workload
  import RaftNode

  const WORKLOAD_CLIENTS := 3

  /** The command a client submits next, if it has nothing outstanding. */
  function Fresh(d: Driver, client: int): Command {
    ClientWorkload(client, NextReq(d, client))
  }

  /** What the chosen server does with a submitted operation: ReadIndex for gets when that is enabled, the
      log for everything else. */
  function Submit(n: NodeState, cmd: Command, readIndex: bool): NodeState
    requires !cmd.Config?
  {
    if readIndex && cmd.Kv? && cmd.op.Get? then RequestRead(n, cmd).0 else NodeSpec.ClientCommand(n, cmd).0
  }

  ghost predicate TakesCommands(n: NodeState) {
    n.role.Leader? && n.alive ==> forall cmd: Command | !cmd.Config? :: CanBroadcast(Extend(n, cmd))
  }

  lemma SubmitAddsReports(n: NodeState, cmd: Command, readIndex: bool)
    requires !cmd.Config?
    ensures n.replica.reports <= Submit(n, cmd, readIndex).replica.reports
  {
    hide CanBroadcast, AlreadyAppended, ReadConfirmed;
  }

  lemma ReportsOf(node: RaftNode.RaftNode)
    ensures node.View().replica.reports == node.reports && node.View().role == node.role && node.View().alive == node.alive
  {}

  /** With ReadIndex a get never enters the log; whatever else a live leader is given does, unless its table has the
      request. */
  lemma ReadsStayOutOfTheLog(n: NodeState, cmd: Command, readIndex: bool)
    requires cmd.IsStructured()
    ensures var log', byReadIndex := Submit(n, cmd, readIndex).replica.log, readIndex && cmd.op.Get?;
            log' == if n.alive && n.role.Leader? && !byReadIndex && !AlreadyAppended(n, cmd) then n.replica.log + [Entry(n.term, cmd)] else n.replica.log
  {
    hide CanBroadcast, AlreadyAppended, ReadConfirmed;
  }

  class ClientDriver {
    var history: seq<HistoryEntry>
    var pending: map<Command, nat>
    var outstanding: map<int, Command>
    var nextReq: map<int, int>
    var clientTurn: nat

    ghost function View(): Driver
      reads this`history, this`pending, this`outstanding, this`nextReq
    {
      Driver(history, pending, outstanding, nextReq)
    }

    constructor ()
      ensures View() == NO_CLIENTS && clientTurn == 0 && DriverOK(View())
    {
      history, pending, outstanding, nextReq, clientTurn := [], map[], map[], map[], 0;
    }

    /** A new row for a new operation. */
    method Invoke(step: nat, cmd: Command)
      modifies this`history, this`pending
      ensures View() == Clients.Invoke(old(View()), step, cmd)
    {
      pending := pending[cmd := |history|];
      history := history + [HistoryEntry(cmd, step, None, "")];
    }

    /** The first application of an operation lets its client move on and completes its row. */
    method OnApply(step: nat, cmd: Command, result: string)
      requires DriverOK(View())
      modifies this`history, this`pending, this`outstanding, this`nextReq
      ensures View() == Clients.OnApply(old(View()), step, cmd, result) && DriverOK(View())
    {
      hide DriverOK;
      OnApplyCompletes(View(), step, cmd, result);
      ghost var before := View();
      if !cmd.IsStructured() {
        return;
      }
      if cmd.client in outstanding && outstanding[cmd.client] == cmd {
        outstanding := outstanding - {cmd.client};
        nextReq := nextReq[cmd.client := (if cmd.client in nextReq then nextReq[cmd.client] else 0) + 1];
      }
      assert View() == MoveOn(before, cmd);
      if cmd in pending {
        var row := pending[cmd];
        PendingRow(before, cmd);
        history := history[row := history[row].(returned := Some(step), observed := result)];
        pending := pending - {cmd};
      }
    }

    /** What the apply callback does with everything a server reported. */
    method OnReports(step: nat, reports: seq<Report>)
      requires DriverOK(View())
      modifies this`history, this`pending, this`outstanding, this`nextReq
      ensures View() == Clients.OnReports(old(View()), step, reports) && DriverOK(View())
    {
      hide DriverOK, Clients.OnApply;
      ghost var before := View();
      var k := 0;
      while k < |reports|
        invariant k <= |reports| && DriverOK(View())
        invariant View() == Clients.OnReports(before, step, reports[..k])
      {
        assert reports[..k + 1][..k] == reports[..k];
        OnApply(step, reports[k].command, reports[k].result);
        k := k + 1;
      }
      assert reports[..k] == reports;
    }

    /** The outstanding operation of the client again, or a new one. */
    method Choose(step: nat, client: int) returns (cmd: Command)
      requires DriverOK(View()) && client >= 0
      modifies this`history, this`pending, this`outstanding
      ensures (View(), cmd) == Tick(old(View()), step, client, Fresh(old(View()), client))
      ensures DriverOK(View()) && cmd.IsStructured() && IsNext(old(View()), client, Fresh(old(View()), client))
    {
      hide DriverOK, ClientWorkload;
      ghost var before := View();
      WorkloadIsNext(before, client);
      TickKeepsOK(before, step, client, Fresh(before, client));
      if client in outstanding {
        cmd := outstanding[client];
      } else {
        cmd := ClientWorkload(client, if client in nextReq then nextReq[client] else 0);
        outstanding := outstanding[client := cmd];
        Invoke(step, cmd);
      }
    }

    /** One client acts: it invokes a new operation if it has none outstanding, else retries the one it has;
        the attempt goes to one server, which accepts it only as a live leader. */
    method ClientTick(step: nat, node: RaftNode.RaftNode, readIndex: bool)
      requires DriverOK(View()) && TakesCommands(node.View())
      modifies this, node
      ensures DriverOK(View()) && clientTurn == old(clientTurn) + 1
      ensures var client := old(clientTurn) % WORKLOAD_CLIENTS;
              var (d, cmd) := Tick(old(View()), step, client, Fresh(old(View()), client));
              && cmd.IsStructured() && IsNext(old(View()), client, Fresh(old(View()), client))
              && node.View() == Submit(old(node.View()), cmd, readIndex)
              && old(node.View()).replica.reports <= node.View().replica.reports
              && View() == Clients.OnReports(d, step, node.View().replica.reports[|old(node.View()).replica.reports|..])
    {
      hide DriverOK, Fresh, Tick, Submit, TakesCommands, IsNext;
      var client := clientTurn % WORKLOAD_CLIENTS;
      clientTurn := clientTurn + 1;
      var cmd := Choose(step, client);
      SubmitAddsReports(node.View(), cmd, readIndex);
      ReportsOf(node);
      var seen := |node.reports|;
      SubmitTo(node, cmd, readIndex);
      ReportsOf(node);
      OnReports(step, node.reports[seen..]);
    }
  }

  /** The attempt at one server. */
  method SubmitTo(node: RaftNode.RaftNode, cmd: Command, readIndex: bool)
    requires cmd.IsStructured() && TakesCommands(node.View())
    modifies node
    ensures node.View() == Submit(old(node.View()), cmd, readIndex) && node.kv == old(node.kv)
  {
    hide CanBroadcast, Extend, AlreadyAppended, ReadConfirmed;
    if node.alive && node.role.Leader? {
      if readIndex && cmd.Kv? && cmd.op.Get? {
        var accepted := node.RequestRead(cmd);
      } else {
        var accepted := node.ClientCommand(cmd);
      }
    }
  }

  lemma PendingRow(d: Driver, cmd: Command)
    requires DriverOK(d) && cmd in d.pending
    ensures d.pending[cmd] < |d.history|
  {}
}
