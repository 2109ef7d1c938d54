/** The membership driver of the harness, and why every change it proposes is a single-server change that
    keeps the leader (raftverified/cluster.py, `_membership_tick`; raftverified/node.py, `change_config`). */
module Membership {
  import opened Types
  import opened Quorums
  import opened Logs
  import opened Lists
  import opened Replicas
  import opened NodeSpec
  import opened NodeRefinement
  import opened Cluster
  import opened ClusterSafety
  import opened CommitRule
  import opened LookupSafety
  import RaftNode

  // ---- a leader is a member of its own configuration ----

  predicate Member(n: NodeState) {
    !n.role.Follower? ==> n.id in n.replica.voters
  }

  lemma WinKeepsMember(n: NodeState)
    requires Member(n)
    ensures Member(MaybeWin(n)) && MaybeWin(n).id == n.id
  {
    hide ClientIndex, BroadcastPackets, Majority;
  }

  lemma LocalKeepsMember(n: NodeState, e: Event)
    requires Member(n) && !e.Deliver? && (e.Client? ==> !e.command.Config?)
    ensures Member(Act(n, e)) && Act(n, e).id == n.id
  {
    hide BroadcastPackets, MaybeWin, Majority, OneApart, ClientIndex, ReadConfirmed, AlreadyAppended, SolicitPackets, RebuildConfig;
    if e.Timeout? && n.id in n.replica.voters {
      var c := Campaign(n);
      WinKeepsMember(c.(sent := c.sent + SolicitPackets(c, OtherVoters(c))));
    }
  }

  lemma HandleKeepsMember(n: NodeState, m: Message)
    requires Member(n) && !m.InstallSnapshot? && n.replica.threshold <= 0
    ensures Member(Handle(n, m)) && Handle(n, m).id == n.id
  {
    hide Absorb, SetCommit, MaybeWin, CommitPoint, LogInconsistent, ReadConfirmed, Outgoing, NoteMatch, BackOff;
    match m
    case VoteReply(_, v, _) => WinKeepsMember(n.(votes := n.votes + {v}));
    case AppendReply(_, f, _, index) => ReplyKeepsMember(n, m);
    case _ =>
  }

  lemma ReplyKeepsMember(n: NodeState, m: Message)
    requires Member(n) && m.AppendReply? && n.replica.threshold <= 0
    ensures Member(OnAppendReply(n, m)) && OnAppendReply(n, m).id == n.id
  {
    hide SetCommit, CommitPoint, Outgoing;
    var n1 := NoteMatch(n, m.follower, m.matchIndex);
    SetCommitFields(n.replica, CommitPoint(n1, Last(n1)));
  }

  /** In every reachable state, a candidate or leader belongs to its own configuration. */
  lemma {:induction false} LeadersAreMembers(r: Execution, k: nat, i: NodeId)
    requires IsRun(r) && At(r, k, i)
    ensures Member(NodeAt(r, k, i)) && NodeAt(r, k, i).id == i
    decreases k
  {
    hide Starts, Member, Handle, AboveBase, Uncompacted, Sent, ConfigOf, LatestConfig,
         ClientCommand, ChangeConfig, RequestRead, Pause, ElectionTimeout, HeartbeatTick;
    if k == 0 {
      StartMember(r.states[0], i);
    } else {
      StepEnabled(r, k - 1);
      StepChanges(r, k - 1);
      LeadersAreMembers(r, k - 1, i);
      var n, e := NodeAt(r, k - 1, i), r.events[k - 1];
      if i == Actor(e) {
        MembershipIsDerived(r, k - 1, i);
        UncompactedFacts(n, r.states[0].initial);
        if e.Deliver? {
          AlwaysAboveBase(r, k - 1);
          HandleKeepsMember(n, e.packet.msg);
        } else {
          LocalKeepsMember(n, e);
        }
      }
    }
  }

  lemma StartMember(c: Cluster, i: NodeId)
    requires Starts(c) && i in c.nodes
    ensures Member(c.nodes[i]) && c.nodes[i].id == i
  {}

  // ---- the driver's proposals ----

  /** The first server of the list that is outside the configuration. */
  function FirstMissing(universe: seq<NodeId>, voters: set<NodeId>): (m: Option<NodeId>)
    ensures m.None? <==> forall u | u in universe :: u in voters
    ensures m.Some? ==> m.value in universe && m.value !in voters
    ensures m.Some? ==> exists x :: 0 <= x < |universe| && universe[x] == m.value && forall y | 0 <= y < x :: universe[y] in voters
  {
    if universe == [] then None
    else if universe[0] !in voters then Some(universe[0])
    else FirstMissing(universe[1..], voters)
  }

  /** In a list in ascending order, that is the lowest server outside. */
  lemma LowestMissing(universe: seq<NodeId>, voters: set<NodeId>, u: NodeId)
    requires forall x, y | 0 <= x < y < |universe| :: universe[x] < universe[y]
    requires u in universe && u !in voters
    ensures var m := FirstMissing(universe, voters); m.Some? && m.value in universe && m.value !in voters && m.value <= u
  {
    hide FirstMissing;
    var m := FirstMissing(universe, voters);
    var x :| 0 <= x < |universe| && universe[x] == m.value && forall y | 0 <= y < x :: universe[y] in voters;
    var z :| 0 <= z < |universe| && universe[z] == u;
  }

  /** Whose turn it is to be removed: the next in rotation that is not the leader. */
  function NextTurn(id: NodeId, universe: seq<NodeId>, turn: nat): nat
    requires universe != []
  {
    if universe[turn % |universe|] == id then turn + 1 else turn
  }

  /** Add the first missing server back, or else remove the one whose turn it is. */
  function Proposal(n: NodeState, universe: seq<NodeId>, turn: nat): set<NodeId>
    requires universe != []
  {
    var missing := FirstMissing(universe, n.replica.voters);
    if missing.Some? then n.replica.voters + {missing.value}
    else n.replica.voters - {universe[NextTurn(n.id, universe, turn) % |universe|]}
  }

  lemma NextOneDiffers(universe: seq<NodeId>, turn: nat)
    requires Distinct(universe) && |universe| >= 2
    ensures universe[turn % |universe|] != universe[(turn + 1) % |universe|]
  {
    var a, b := turn % |universe|, (turn + 1) % |universe|;
    NextPositionDiffers(turn, |universe|);
    assert universe[Least(a, b)] != universe[Largest(a, b)];
  }

  lemma NextPositionDiffers(turn: nat, size: nat)
    requires size >= 2
    ensures turn % size != (turn + 1) % size
  {
    var q, q' := turn / size, (turn + 1) / size;
    assert turn == q * size + turn % size && turn + 1 == q' * size + (turn + 1) % size;
    NoMultipleIsOne(q' - q, size);
    assert (q' - q) * size == q' * size - q * size;
  }

  lemma NoMultipleIsOne(d: int, size: nat)
    requires size >= 2
    ensures d * size != 1
  {
    if d >= 1 {
      assert d * size == size + (d - 1) * size;
    } else if d <= -1 {
      assert d * size == -(-d * size);
    }
  }

  lemma OneAdded(voters: set<NodeId>, v: NodeId)
    requires v !in voters
    ensures OneApart(voters + {v}, voters)
  {
    assert ((voters + {v}) - voters) + (voters - (voters + {v})) == {v};
  }

  lemma OneRemoved(voters: set<NodeId>, v: NodeId)
    requires v in voters
    ensures OneApart(voters - {v}, voters)
  {
    assert ((voters - {v}) - voters) + (voters - (voters - {v})) == {v};
  }

  /** With nobody to add, the next server in rotation goes, passing over the leader; the rotation moves on past it
      once the removal is accepted, and stays there until then. */
  lemma RemovalsRotate(n: NodeState, universe: seq<NodeId>, turn: nat)
    requires universe != [] && forall u | u in universe :: u in n.replica.voters
    ensures var size := |universe|;
            var victim := if universe[turn % size] != n.id then turn else turn + 1;
            var (n', turn') := Offer(n, universe, turn);
            && Proposal(n, universe, turn) == n.replica.voters - {universe[victim % size]}
            && turn' == (if MayChangeConfig(n, n.replica.voters - {universe[victim % size]}) then victim + 1 else victim)
  {
    hide FirstMissing, MayChangeConfig, Broadcast, Extend;
  }

  /** While servers are missing, the least of them is added, whatever the rotation, which waits. */
  lemma AdditionsComeFirst(n: NodeState, universe: seq<NodeId>, turn: nat, m: NodeId)
    requires forall x, y | 0 <= x < y < |universe| :: universe[x] < universe[y]
    requires m in universe && m !in n.replica.voters && forall u | u in universe && u < m :: u in n.replica.voters
    ensures Proposal(n, universe, turn) == n.replica.voters + {m} && Offer(n, universe, turn).1 == turn
  {
    hide FirstMissing, MayChangeConfig, Broadcast, Extend;
    LowestMissing(universe, n.replica.voters, m);
  }

  /** The proposal differs from the configuration by one server and keeps the leader. */
  lemma ProposalIsSingleChange(n: NodeState, universe: seq<NodeId>, turn: nat)
    requires Distinct(universe) && |universe| >= 2 && n.id in n.replica.voters
    ensures var p := Proposal(n, universe, turn);
            OneApart(p, n.replica.voters) && n.id in p && forall v | v in p :: v in n.replica.voters || v in universe
  {
    hide FirstMissing, OneApart;
    var voters := n.replica.voters;
    var missing := FirstMissing(universe, voters);
    if missing.Some? {
      OneAdded(voters, missing.value);
    } else {
      NextOneDiffers(universe, turn);
      var victim := universe[NextTurn(n.id, universe, turn) % |universe|];
      assert victim in universe;
      OneRemoved(voters, victim);
    }
  }

  /** In every reachable state, a leader takes the driver's proposal exactly when its last change and an
      entry of its own term are committed: the other guards never refuse it. */
  lemma ProposalsAwaitCommitsOnly(r: Execution, k: nat, i: NodeId, universe: seq<NodeId>, turn: nat)
    requires IsRun(r) && At(r, k, i) && Distinct(universe) && |universe| >= 2
    ensures var n := NodeAt(r, k, i);
            n.role.Leader? && n.alive ==>
              (MayChangeConfig(n, Proposal(n, universe, turn)) <==> n.replica.configIndex <= n.replica.commit && n.committedThisTerm)
  {
    hide IsRun, Proposal;
    LeadersAreMembers(r, k, i);
    var n := NodeAt(r, k, i);
    if n.role.Leader? { ProposalIsSingleChange(n, universe, turn); }
  }

  // ---- one tick of the driver ----

  predicate BelievesToLead(n: NodeState) { n.role.Leader? && n.alive }

  /** One leader is offered one change, and the rotation moves on when a removal is accepted. */
  function Offer(n: NodeState, universe: seq<NodeId>, turn: nat): (NodeState, nat)
    requires universe != []
  {
    var (after, accepted) := ChangeConfig(n, Proposal(n, universe, turn));
    if FirstMissing(universe, n.replica.voters).Some? then (after, turn)
    else (after, NextTurn(n.id, universe, turn) + if accepted then 1 else 0)
  }

  /** Every server that believes it leads is offered a change, each from its own configuration. */
  function Tick(nodes: seq<NodeState>, universe: seq<NodeId>, turn: nat): (r: (seq<NodeState>, nat))
    requires universe != []
    ensures |r.0| == |nodes|
  {
    if nodes == [] then ([], turn)
    else
      var (front, t) := Tick(nodes[..|nodes| - 1], universe, turn);
      var last := nodes[|nodes| - 1];
      if BelievesToLead(last) then
        var (after, t') := Offer(last, universe, t);
        (front + [after], t')
      else (front + [last], t)
  }

  /** n has started a single-server change of its own configuration, which keeps it a member. */
  ghost predicate StartedChange(n: NodeState, after: NodeState) {
    exists voters :: MayChangeConfig(n, voters) && after == Broadcast(Extend(n, Config(voters)))
  }

  /** However many servers believe they lead, a tick changes nothing but live leaders whose last change and
      an entry of their own term are committed, and every one of those takes exactly one single-server change. */
  lemma {:induction false} TickStartsChanges(nodes: seq<NodeState>, universe: seq<NodeId>, turn: nat, j: nat)
    requires Distinct(universe) && |universe| >= 2 && j < |nodes| && forall x | 0 <= x < |nodes| :: Member(nodes[x])
    ensures var n, after := nodes[j], Tick(nodes, universe, turn).0[j];
            if BelievesToLead(n) && n.replica.configIndex <= n.replica.commit && n.committedThisTerm
            then StartedChange(n, after) else after == n
    decreases |nodes|
  {
    hide Proposal, NextTurn, FirstMissing, OneApart, Extend, Broadcast;
    var front, n := nodes[..|nodes| - 1], nodes[|nodes| - 1];
    if j < |front| {
      TickStartsChanges(front, universe, turn, j);
    } else if BelievesToLead(n) {
      ProposalIsSingleChange(n, universe, Tick(front, universe, turn).1);
    }
  }

  /** A change offered to n can be sent to the configuration it proposes. */
  ghost predicate Offerable(n: NodeState, universe: seq<NodeId>)
    requires universe != []
  {
    forall turn: nat :: OfferableNow(n, universe, turn)
  }

  predicate OfferableNow(n: NodeState, universe: seq<NodeId>, turn: nat)
    requires universe != []
  {
    var p := Proposal(n, universe, turn);
    MayChangeConfig(n, p) ==> CanBroadcast(Extend(n, Config(p)))
  }

  /** Which holds at every moment of a run whose configurations, like the driver's list, name existing servers. */
  lemma OffersCanBeSent(r: Execution, k: nat, i: NodeId, universe: seq<NodeId>)
    requires KnownUntil(r, k) && At(r, k, i) && universe != [] && forall u | u in universe :: u in r.states[0].nodes
    ensures Offerable(NodeAt(r, k, i), universe)
  {
    hide IsRun, KnownUntil, MayChangeConfig, CanBroadcast, Extend, FirstMissing, NextTurn;
    KnownVoters(r, k, i);
    var n := NodeAt(r, k, i);
    forall turn: nat ensures OfferableNow(n, universe, turn) {
      var p := Proposal(n, universe, turn);
      if MayChangeConfig(n, p) { AcceptedChangeCanBeSent(r, k, i, p); }
    }
  }

  ghost function Views(nodes: seq<RaftNode.RaftNode>): (views: seq<NodeState>)
    reads nodes, set x | 0 <= x < |nodes| :: nodes[x].kv
    ensures |views| == |nodes|
  {
    seq(|nodes|, x requires 0 <= x < |nodes| reads nodes, set y | 0 <= y < |nodes| :: nodes[y].kv => nodes[x].View())
  }

  lemma LeadsInView(node: RaftNode.RaftNode)
    ensures BelievesToLead(node.View()) <==> node.role.Leader? && node.alive
  {}

  class MembershipDriver {
    var memberTurn: nat

    constructor ()
      ensures memberTurn == 0
    {
      memberTurn := 0;
    }

    method Propose(node: RaftNode.RaftNode, universe: seq<NodeId>) returns (accepted: bool)
      requires universe != [] && OfferableNow(node.View(), universe, memberTurn)
      modifies this, node
      ensures (node.View(), memberTurn) == Offer(old(node.View()), universe, old(memberTurn)) && node.kv == old(node.kv)
      ensures accepted <==> MayChangeConfig(old(node.View()), Proposal(old(node.View()), universe, old(memberTurn)))
    {
      hide FirstMissing, MayChangeConfig, CanBroadcast, Extend, Broadcast;
      var missing := FirstMissing(universe, node.voters);
      var proposal;
      if missing.Some? {
        proposal := node.voters + {missing.value};
      } else {
        if universe[memberTurn % |universe|] == node.id {
          memberTurn := memberTurn + 1;
        }
        proposal := node.voters - {universe[memberTurn % |universe|]};
      }
      accepted := node.ChangeConfig(proposal);
      if accepted && missing.None? {
        memberTurn := memberTurn + 1;
      }
    }

    /** `_membership_tick`: every server that believes it leads is offered a change, in order. */
    method MembershipTick(nodes: seq<RaftNode.RaftNode>, universe: seq<NodeId>)
      requires universe != [] && forall x, y | 0 <= x < y < |nodes| :: nodes[x] != nodes[y]
      requires forall x | 0 <= x < |nodes| :: Offerable(nodes[x].View(), universe)
      modifies this, nodes
      ensures (Views(nodes), memberTurn) == Tick(old(Views(nodes)), universe, old(memberTurn))
    {
      hide Offer, Offerable, OfferableNow, RaftNode.RaftNode.View;
      ghost var before, done := Views(nodes), [];
      for k := 0 to |nodes|
        invariant |done| == k && (done, memberTurn) == Tick(before[..k], universe, old(memberTurn))
        invariant forall x | 0 <= x < |nodes| :: nodes[x].View() == if x < k then done[x] else before[x]
      {
        var node := nodes[k];
        assert before[..k + 1][..k] == before[..k];
        LeadsInView(node);
        if node.role.Leader? && node.alive {
          OfferableAt(before[k], universe, memberTurn);
          var _ := Propose(node, universe);
        }
        done := done + [node.View()];
      }
      assert before[..|nodes|] == before && Views(nodes) == done;
    }
  }

  lemma OfferableAt(n: NodeState, universe: seq<NodeId>, turn: nat)
    requires universe != [] && Offerable(n, universe)
    ensures OfferableNow(n, universe, turn)
  {}
}
