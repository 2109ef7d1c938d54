/** Where a run can go on to from any state it has reached, and what is known of every server there. */
module Journeys {
  import opened Types
  import opened NodeSpec
  import opened NodeRefinement
  import opened Cluster
  import opened ClusterSafety
  import opened LookupSafety
  import opened Rounds

  /** Events that lead from a to b. */
  predicate Leg(r: Execution, a: Cluster, b: Cluster) {
    && |r.states| == |r.events| + 1 && r.states[0] == a && r.states[|r.events|] == b
    && forall k | 0 <= k < |r.events| :: StepBy(r.states[k], r.events[k], r.states[k + 1])
  }

  ghost predicate Reaches(a: Cluster, b: Cluster) {
    exists r :: Leg(r, a, b)
  }

  /** The run from `start` that came by `origin` can go on to c. */
  ghost predicate Onward(start: Cluster, origin: Cluster, c: Cluster) {
    Reachable(start, c) && Reaches(origin, c)
  }

  lemma Here(start: Cluster, c: Cluster)
    requires Reachable(start, c)
    ensures Onward(start, c, c)
  {
    assert Leg(Execution([c], []), c, c);
  }

  lemma LegFurther(r: Execution, a: Cluster, b: Cluster, e: Event)
    requires Leg(r, a, b) && Enabled(b, e) && Actor(e) in b.nodes && (e.Client? ==> !e.command.Config?)
    ensures Leg(Execution(r.states + [Next(b, e)], r.events + [e]), a, Next(b, e))
  {
    hide Act, Enabled;
    var more := Execution(r.states + [Next(b, e)], r.events + [e]);
    forall k | 0 <= k < |more.events| ensures StepBy(more.states[k], more.events[k], more.states[k + 1]) {
      if k < |r.events| { assert StepBy(r.states[k], r.events[k], r.states[k + 1]); }
    }
  }

  /** One event further: it changes its own server only. */
  lemma Go(start: Cluster, origin: Cluster, c: Cluster, e: Event) returns (c': Cluster)
    requires Onward(start, origin, c) && Enabled(c, e)
    ensures Actor(e) in c.nodes && (e.Client? ==> !e.command.Config?)
    ensures Onward(start, origin, c') && c'.initial == c.initial && c'.nodes.Keys == c.nodes.Keys
    ensures c'.nodes[Actor(e)] == Act(c.nodes[Actor(e)], e)
    ensures forall i | i in c.nodes && i != Actor(e) :: c'.nodes[i] == c.nodes[i]
  {
    hide Act, Enabled, Reachable;
    EnabledActs(c, e);
    ReachNext(start, c, e);
    var r :| Leg(r, origin, c);
    LegFurther(r, origin, c, e);
    c' := Next(c, e);
  }

  lemma Local(c: Cluster, e: Event)
    requires !e.Deliver? && Actor(e) in c.nodes && (e.Client? ==> !e.command.Config?)
    ensures Enabled(c, e)
  {}

  lemma Delivery(c: Cluster, i: NodeId, pk: Packet)
    requires i in c.nodes && pk in c.nodes[i].sent && pk.dst in c.nodes
    ensures Enabled(c, Deliver(pk))
  {}

  // ---- what is known of every server ----

  /** Nothing is compacted, the log is the whole history, and a leader can send to everyone. */
  predicate Sane(n: NodeState, i: NodeId, ids: set<NodeId>, initial: set<NodeId>) {
    n.id == i && n.peers == ids - {i} && Uncompacted(n, initial) && ProgressOK(n)
  }

  lemma AllSane(start: Cluster, c: Cluster, i: NodeId)
    requires Reachable(start, c) && i in c.nodes
    ensures Sane(c.nodes[i], i, c.nodes.Keys, start.initial) && c.initial == start.initial && c.nodes.Keys == start.nodes.Keys
  {
    hide IsRun, Uncompacted, ProgressOK;
    var r :| EndsIn(r, start, c);
    var k := RunEnd(r);
    MembershipIsDerived(r, k, i);
    NodesReady(r, k, i);
    InitialStays(r, k);
  }

  lemma RunEnd(r: Execution) returns (k: nat)
    requires IsRun(r)
    ensures k < |r.states| && k == |r.states| - 1
  {
    k := |r.states| - 1;
  }

  lemma {:induction false} InitialStays(r: Execution, k: nat)
    requires IsRun(r) && k < |r.states|
    ensures r.states[k].initial == r.states[0].initial
  {
    if k > 0 {
      StepEnabled(r, k - 1);
      InitialStays(r, k - 1);
    }
  }

  /** Equal terms at an index of two logs mean equal logs up to it. */
  lemma TermsAgree(start: Cluster, c: Cluster, i: NodeId, j: NodeId, x: nat)
    requires Reachable(start, c) && i in c.nodes && j in c.nodes
    requires x < |c.nodes[i].replica.log| && x < |c.nodes[j].replica.log|
    requires c.nodes[i].replica.log[x].term == c.nodes[j].replica.log[x].term
    ensures c.nodes[i].replica.log[..x + 1] == c.nodes[j].replica.log[..x + 1]
  {
    hide IsRun;
    var r :| EndsIn(r, start, c);
    var k := RunEnd(r);
    LogsMatch(r, k, k, i, j, x);
  }

  // ---- journeys that keep the logs ----

  /** Nobody's log or configuration has changed, and only `movers` have done anything. */
  predicate KeepsLogs(c: Cluster, d: Cluster, movers: set<NodeId>) {
    && d.nodes.Keys == c.nodes.Keys && d.initial == c.initial
    && (forall i | i in c.nodes :: d.nodes[i].replica.log == c.nodes[i].replica.log && d.nodes[i].replica.voters == c.nodes[i].replica.voters)
    && forall i | i in c.nodes && i !in movers :: d.nodes[i] == c.nodes[i]
  }
}
