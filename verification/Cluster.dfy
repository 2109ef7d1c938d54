/** A cluster of servers with compaction off, and its runs. Any message ever sent may be delivered at
    any later time, any number of times or never: loss, duplication, delay, reordering and
    partitions of the simulated network are all included (raftverified/sim.py, cluster.py).
    Timers fire whenever they like. */
module Cluster {
  import opened Types
  import opened NodeSpec

  datatype Cluster = Cluster(initial: set<NodeId>, nodes: map<NodeId, NodeState>)

  datatype Event =
    | Deliver(packet: Packet)
    | Timeout(node: NodeId)
    | Heartbeat(node: NodeId)
    | Client(node: NodeId, command: Command)
    | Reconfigure(node: NodeId, voters: set<NodeId>)
    | Read(node: NodeId, command: Command)
    | Crash(node: NodeId)
    | Recover(node: NodeId)

  function Actor(e: Event): NodeId {
    if e.Deliver? then e.packet.dst else e.node
  }

  /** What the event does to its server. */
  function Act(n: NodeState, e: Event): NodeState
    requires e.Client? ==> !e.command.Config?
  {
    match e
    case Deliver(pk) => Handle(n, pk.msg)
    case Timeout(_) => ElectionTimeout(n)
    case Heartbeat(_) => HeartbeatTick(n)
    case Client(_, cmd) => ClientCommand(n, cmd).0
    case Reconfigure(_, voters) => ChangeConfig(n, voters).0
    case Read(_, cmd) => RequestRead(n, cmd).0
    case Crash(_) => Pause(n)
    case Recover(_) => Resume(n)
  }

  predicate Sent(c: Cluster, pk: Packet) {
    exists i :: i in c.nodes && pk in c.nodes[i].sent
  }

  /** Messages come from the network; client commands are not configurations. */
  predicate Enabled(c: Cluster, e: Event) {
    && Actor(e) in c.nodes
    && (e.Deliver? ==> Sent(c, e.packet))
    && (e.Client? ==> !e.command.Config?)
  }

  predicate StepBy(c: Cluster, e: Event, c': Cluster) {
    Enabled(c, e) && c' == c.(nodes := c.nodes[Actor(e) := Act(c.nodes[Actor(e)], e)])
  }

  /** All servers new, with the same initial configuration and snapshots switched off. */
  predicate Starts(c: Cluster) {
    forall i | i in c.nodes ::
      && c.nodes[i].replica.threshold <= 0
      && c.nodes[i] == Initial(i, c.nodes.Keys - {i}, c.initial, c.nodes[i].replica.threshold)
  }

  /** The states a cluster goes through, together with the events between them. */
  datatype Execution = Execution(states: seq<Cluster>, events: seq<Event>)

  predicate IsRun(r: Execution) {
    && |r.states| == |r.events| + 1
    && Starts(r.states[0])
    && forall k | 0 <= k < |r.events| :: StepBy(r.states[k], r.events[k], r.states[k + 1])
  }

  function Before(r: Execution): Execution
    requires |r.states| > 1 && |r.events| > 0
  {
    Execution(r.states[..|r.states| - 1], r.events[..|r.events| - 1])
  }
}
