/** What the caches of the invariant checker stand for, and why they stay right from one observation to the
    next (raftverified/invariants.py). */
module CheckerCaches {
  import opened Types
  import opened CheckerSpec

  datatype Leadership = Leadership(term: nat, version: nat, base: nat, log: seq<Entry>)
  datatype Completeness = Completeness(term: nat, version: nat, count: nat)

  // ---- what the caches mean ----

  /** The leader snapshots are the last observed logs of the servers that led then. */
  predicate SnapshotsOK(snapshots: map<NodeId, Leadership>, last: Views) {
    && (forall i | i in snapshots ::
          && i in last && last[i].leader
          && snapshots[i] == Leadership(last[i].term, last[i].version, last[i].base, last[i].log))
    && forall i | i in last && last[i].leader :: i in snapshots
  }

  /** A pair remembered at the servers' present versions matches. */
  ghost predicate PairsOK(pairs: map<(NodeId, NodeId), (nat, nat)>, last: Views) {
    forall p | p in pairs ::
      && p.0 in last && p.1 in last && pairs[p].0 <= last[p.0].version && pairs[p].1 <= last[p.1].version
      && (pairs[p] == (last[p.0].version, last[p.1].version) ==> Matching(last[p.0], last[p.1]))
  }

  /** A leader remembered at its present version and the present number of commits has them all. */
  predicate CompleteOK(complete: map<NodeId, Completeness>, last: Views, committed: map<nat, Witnessed>) {
    forall i | i in complete ::
      && i in last && complete[i].version <= last[i].version && complete[i].count <= |committed|
      && (complete[i].version == last[i].version && complete[i].count == |committed| ==> HasAll(complete[i].term, last[i], committed))
  }

  // ---- two logs ----

  lemma MatchingUpTo(a: NodeView, b: NodeView, top: nat)
    requires forall index: nat | Shared(a, b, index) && index > top :: EntryAt(a, index).term != EntryAt(b, index).term
    requires top > 0 ==> Shared(a, b, top) && EntryAt(a, top).term == EntryAt(b, top).term
    ensures Matching(a, b) <==> forall below: nat | Shared(a, b, below) && below <= top :: EntryAt(a, below) == EntryAt(b, below)
  {}

  // ---- the caches from one observation to the next ----

  lemma PairsFollow(pairs: map<(NodeId, NodeId), (nat, nat)>, last: Views, nodes: Views)
    requires PairsOK(pairs, last) && VersionsTell(last, nodes)
    ensures PairsOK(pairs, last + nodes)
  {
    hide Matching;
    var now := last + nodes;
    forall p | p in pairs
      ensures p.0 in now && p.1 in now && pairs[p].0 <= now[p.0].version && pairs[p].1 <= now[p.1].version
      ensures pairs[p] == (now[p.0].version, now[p.1].version) ==> Matching(now[p.0], now[p.1])
    {
      assert Follows(last[p.0], now[p.0]) && Follows(last[p.1], now[p.1]);
      if pairs[p] == (now[p.0].version, now[p.1].version) { MatchingSame(last[p.0], last[p.1], now[p.0], now[p.1]); }
    }
  }

  lemma MatchingSame(a: NodeView, b: NodeView, a': NodeView, b': NodeView)
    requires Matching(a, b) && a.log == a'.log && a.base == a'.base && b.log == b'.log && b.base == b'.base
    ensures Matching(a', b')
  {
    forall index: nat, below: nat
      | Shared(a', b', index) && Shared(a', b', below) && below <= index && EntryAt(a', index).term == EntryAt(b', index).term
      ensures EntryAt(a', below) == EntryAt(b', below)
    {
      assert Shared(a, b, index) && Shared(a, b, below);
      assert EntryAt(a, below) == EntryAt(b, below);
    }
  }

  lemma CommittedGrows(small: map<nat, Witnessed>, large: map<nat, Witnessed>)
    requires small.Keys <= large.Keys && forall k | k in small :: large[k] == small[k]
    ensures |small| <= |large| && (|small| == |large| ==> small == large)
  {
    assert |small| == |small.Keys| && |large| == |large.Keys|;
    var extra := large.Keys - small.Keys;
    assert large.Keys == small.Keys + extra && small.Keys !! extra;
    assert |large.Keys| == |small.Keys| + |extra|;
  }

  lemma CompleteFollows(complete: map<NodeId, Completeness>, last: Views, nodes: Views, before: map<nat, Witnessed>, after: map<nat, Witnessed>)
    requires CompleteOK(complete, last, before) && VersionsTell(last, nodes)
    requires before.Keys <= after.Keys && forall k | k in before :: after[k] == before[k]
    ensures CompleteOK(complete, last + nodes, after)
  {
    var now := last + nodes;
    CommittedGrows(before, after);
    forall i | i in complete
      ensures i in now && complete[i].version <= now[i].version && complete[i].count <= |after|
      ensures complete[i].version == now[i].version && complete[i].count == |after| ==> HasAll(complete[i].term, now[i], after)
    {
      assert Follows(last[i], now[i]);
    }
  }

  /** The map with the values of the listed servers put in, one after the other. */
  function Overlay<T>(m: map<NodeId, T>, values: map<NodeId, T>, ids: seq<NodeId>): map<NodeId, T>
    requires forall i | i in ids :: i in values
  {
    if ids == [] then m else var i := ids[|ids| - 1]; Overlay(m, values, ids[..|ids| - 1])[i := values[i]]
  }

  lemma {:induction false} OverlayAt<T>(m: map<NodeId, T>, values: map<NodeId, T>, ids: seq<NodeId>, i: NodeId)
    requires forall j | j in ids :: j in values
    ensures var now := Overlay(m, values, ids);
            if i in ids then i in now && now[i] == values[i] else (i in now <==> i in m) && (i in m ==> now[i] == m[i])
  {
    if ids != [] {
      var front := ids[..|ids| - 1];
      assert ids == front + [ids[|ids| - 1]];
      OverlayAt(m, values, front, i);
    }
  }

  lemma OverlayNext<T>(m: map<NodeId, T>, values: map<NodeId, T>, ids: seq<NodeId>, nodes: Views, x: nat)
    requires Listed(ids, nodes) && x < |ids| && values.Keys == nodes.Keys
    ensures (forall i | i in ids[..x + 1] :: i in values) && ids[x] in values
    ensures var now := Overlay(m, values, ids[..x]);
            && now[ids[x] := values[ids[x]]] == Overlay(m, values, ids[..x + 1])
            && (ids[x] in now <==> ids[x] in m) && (ids[x] in m ==> now[ids[x]] == m[ids[x]])
  {
    NextListed(ids, nodes, x);
    assert forall i | i in ids[..x + 1] :: i in nodes.Keys;
    OverlayAt(m, values, ids[..x], ids[x]);
    assert ids[..x + 1][..x] == ids[..x];
  }

  lemma OverlayAll<T>(m: map<NodeId, T>, values: map<NodeId, T>, ids: seq<NodeId>)
    requires forall i :: i in ids <==> i in values
    ensures Overlay(m, values, ids) == m + values
  {
    var now := Overlay(m, values, ids);
    forall i ensures (i in now <==> i in m + values) && (i in now ==> now[i] == (m + values)[i]) {
      OverlayAt(m, values, ids, i);
    }
  }

  lemma SameExtends(before: NodeView, now: NodeView)
    requires Follows(before, now) && before.version == now.version
    ensures Extends(before.base, before.log, now)
  {}

  // ---- the list of servers, one by one ----

  lemma NextListed(ids: seq<NodeId>, nodes: Views, x: nat)
    requires Listed(ids, nodes) && x < |ids|
    ensures ids[x] in nodes && nodes[ids[x]].id == ids[x] && ids[x] !in ids[..x] && ids[..x + 1] == ids[..x] + [ids[x]]
    ensures nodes[ids[x]].commit <= Top(nodes[ids[x]])
    ensures forall i | i in ids[..x] :: i < ids[x]
    ensures forall i | i in nodes && i < ids[x] :: i in ids[..x]
  {
    assert ids[x] in ids;
    forall i | i in nodes && i < ids[x] ensures i in ids[..x] {
      var y :| 0 <= y < |ids| && ids[y] == i;
      assert y < x;
      assert ids[..x][y] == i;
    }
  }

  lemma AllListed(ids: seq<NodeId>, nodes: Views)
    requires Listed(ids, nodes)
    ensures ids[..|ids|] == ids && forall i :: i in ids <==> i in nodes
    ensures forall i | i in nodes :: nodes[i].id == i && nodes[i].commit <= Top(nodes[i])
  {}

  // ---- Election Safety ----

  predicate LeaderIn(nodes: Views, ids: seq<NodeId>, i: NodeId, t: nat, l: NodeId) {
    i in ids && i in nodes && nodes[i].leader && nodes[i].term == t && nodes[i].id == l
  }

  /** Terms are only added, each with a server that leads it now. */
  lemma {:induction false} LeadersFrom(leaders: map<nat, NodeId>, nodes: Views, ids: seq<NodeId>)
    requires forall i | i in ids :: i in nodes
    ensures var all := Leaders(leaders, nodes, ids);
            && (forall t | t in leaders :: t in all && all[t] == leaders[t])
            && (forall t | t in all && t !in leaders :: exists i :: LeaderIn(nodes, ids, i, t, all[t]))
            && (forall i | i in ids && nodes[i].leader :: nodes[i].term in all)
  {
    if ids != [] {
      var front, i := ids[..|ids| - 1], ids[|ids| - 1];
      LeadersFrom(leaders, nodes, front);
      var before, all := Leaders(leaders, nodes, front), Leaders(leaders, nodes, ids);
      assert ids == front + [i];
      forall t | t in all && t !in leaders ensures exists j :: LeaderIn(nodes, ids, j, t, all[t]) {
        if t in before {
          var j :| LeaderIn(nodes, front, j, t, before[t]);
          assert LeaderIn(nodes, ids, j, t, all[t]);
        } else {
          assert LeaderIn(nodes, ids, i, t, all[t]);
        }
      }
    }
  }

  /** The running check finds a second leader exactly when there is one. */
  lemma SecondLeader(leaders: map<nat, NodeId>, nodes: Views, front: seq<NodeId>, v: NodeView)
    requires (forall i | i in front :: i in nodes) && v.id in nodes && nodes[v.id] == v && v.leader
    requires var seen := Leaders(leaders, nodes, front); v.term in seen && seen[v.term] != v.id
    ensures !OneLeaderPerTerm(leaders, nodes)
  {
    LeadersFrom(leaders, nodes, front);
    var seen := Leaders(leaders, nodes, front);
    if v.term !in leaders {
      var j :| LeaderIn(nodes, front, j, v.term, seen[v.term]);
    }
  }

  lemma NoSecondLeader(leaders: map<nat, NodeId>, nodes: Views, ids: seq<NodeId>)
    requires Listed(ids, nodes)
    requires forall i | i in ids && nodes[i].leader :: nodes[i].term in Leaders(leaders, nodes, ids) && Leaders(leaders, nodes, ids)[nodes[i].term] == i
    ensures OneLeaderPerTerm(leaders, nodes)
  {
    LeadersFrom(leaders, nodes, ids);
  }

  // ---- Log Matching ----

  ghost predicate RowMatches(nodes: Views, ids: seq<NodeId>, x: nat, y: nat)
    requires forall i | i in ids :: i in nodes
  {
    forall q | x < q < y && q < |ids| && x < |ids| :: Matching(nodes[ids[x]], nodes[ids[q]])
  }

  lemma RowsMatch(nodes: Views, ids: seq<NodeId>)
    requires Listed(ids, nodes) && forall x: nat | x < |ids| :: RowMatches(nodes, ids, x, |ids|)
    ensures AllMatching(nodes)
  {
    hide Matching;
    forall i, j | i in nodes && j in nodes && i < j ensures Matching(nodes[i], nodes[j]) {
      var x :| 0 <= x < |ids| && ids[x] == i;
      var y :| 0 <= y < |ids| && ids[y] == j;
      assert RowMatches(nodes, ids, x, |ids|) && x < y;
    }
  }

  // ---- crash rebasing ----

  predicate SameAt<T(==)>(m: map<NodeId, T>, m': map<NodeId, T>, i: NodeId) {
    (i in m <==> i in m') && (i in m ==> m[i] == m'[i])
  }

  predicate SameCollections(b: Book, b': Book) {
    b'.leaders == b.leaders && b'.committed == b.committed && b'.appliedAt == b.appliedAt && b'.maxCommit == b.maxCommit
  }

  predicate RebasedFor(b: Book, b': Book, v: NodeView) {
    && v.id in b'.incarnation && b'.incarnation[v.id] == v.incarnation
    && Recall(b'.prevCommit, v.id) == PrevCommit(b, v) && Recall(b'.appliedSeen, v.id) == AppliedSeen(b, v)
  }

  predicate UntouchedFor(b: Book, b': Book, i: NodeId) {
    SameAt(b.incarnation, b'.incarnation, i) && SameAt(b.prevCommit, b'.prevCommit, i) && SameAt(b.appliedSeen, b'.appliedSeen, i)
  }

  lemma RebaseRebases(start: Book, b: Book, v: NodeView)
    requires UntouchedFor(start, b, v.id)
    ensures RebasedFor(start, Rebase(b, v), v)
  {}

  lemma RebaseSpares(start: Book, b: Book, v: NodeView, u: NodeView, i: NodeId)
    ensures SameCollections(b, Rebase(b, v))
    ensures UntouchedFor(start, b, i) && i != v.id ==> UntouchedFor(start, Rebase(b, v), i)
    ensures RebasedFor(start, b, u) && u.id != v.id ==> RebasedFor(start, Rebase(b, v), u)
  {}

  /** What is remembered of a listed server after the rebasing, and of any other. */
  lemma {:induction false} RebasedAt(b: Book, nodes: Views, ids: seq<NodeId>, x: nat, i: NodeId)
    requires Listed(ids, nodes) && x <= |ids|
    ensures forall j | j in ids[..x] :: j in nodes
    ensures var b' := RebaseAll(b, nodes, ids[..x]);
            SameCollections(b, b') && if i in ids[..x] then RebasedFor(b, b', nodes[i]) else UntouchedFor(b, b', i)
    decreases x
  {
    hide Listed, Rebase, RebasedFor, UntouchedFor;
    if x == 0 {
      Untouched(b, i);
    } else {
      NextListed(ids, nodes, x - 1);
      assert ids[..x][..x - 1] == ids[..x - 1];
      var v := nodes[ids[x - 1]];
      RebasedAt(b, nodes, ids, x - 1, i);
      RebasedAt(b, nodes, ids, x - 1, v.id);
      var before := RebaseAll(b, nodes, ids[..x - 1]);
      RebaseRebases(b, before, v);
      AllListed(ids, nodes);
      RebaseSpares(b, before, v, if i in ids[..x - 1] then nodes[i] else v, i);
      IdsKept(ids, nodes);
    }
  }

  lemma Untouched(b: Book, i: NodeId)
    ensures UntouchedFor(b, b, i)
  {}

  lemma IdsKept(ids: seq<NodeId>, nodes: Views)
    requires Listed(ids, nodes)
    ensures forall i | i in nodes :: nodes[i].id == i
  {}

  lemma OverlaySame(m: map<NodeId, nat>, m': map<NodeId, nat>, values: map<NodeId, nat>)
    requires forall i | i !in values :: SameAt(m, m', i)
    ensures m' + values == m + values
  {}

  lemma SameEverywhere(m: map<NodeId, nat>, m': map<NodeId, nat>)
    requires forall i :: SameAt(m, m', i)
    ensures m == m'
  {
    assert forall i | i in m :: SameAt(m, m', i);
    assert forall i | i in m' :: SameAt(m, m', i);
  }

  lemma IncarnationsKnown(b: Book, b': Book, nodes: Views)
    requires forall i | i in nodes :: nodes[i].id == i && RebasedFor(b, b', nodes[i])
    requires forall i | i !in nodes :: UntouchedFor(b, b', i)
    ensures b'.incarnation == b.incarnation + IncarnationsOf(nodes)
  {
    hide PrevCommit, AppliedSeen, Recall;
    var all := b.incarnation + IncarnationsOf(nodes);
    forall i ensures SameAt(all, b'.incarnation, i) {
      if i in nodes { assert RebasedFor(b, b', nodes[i]); } else { assert UntouchedFor(b, b', i); }
    }
    SameEverywhere(all, b'.incarnation);
  }

  lemma OverlaysKnown(b: Book, b': Book, nodes: Views)
    requires forall i | i !in nodes :: UntouchedFor(b, b', i)
    ensures b'.prevCommit + CommitsOf(nodes) == b.prevCommit + CommitsOf(nodes)
    ensures b'.appliedSeen + ProgressOf(b, nodes) == b.appliedSeen + ProgressOf(b, nodes)
  {
    hide AppliedSeen;
    OverlaySame(b.prevCommit, b'.prevCommit, CommitsOf(nodes));
    OverlaySame(b.appliedSeen, b'.appliedSeen, ProgressOf(b, nodes));
  }

  lemma RebasedOverlay(b: Book, nodes: Views, ids: seq<NodeId>)
    requires Listed(ids, nodes)
    ensures (forall i | i in ids :: i in nodes) && (forall i :: i in ids <==> i in nodes)
    ensures var b' := RebaseAll(b, nodes, ids);
            && SameCollections(b, b')
            && b'.incarnation == b.incarnation + IncarnationsOf(nodes)
            && b'.prevCommit + CommitsOf(nodes) == b.prevCommit + CommitsOf(nodes)
            && b'.appliedSeen + ProgressOf(b, nodes) == b.appliedSeen + ProgressOf(b, nodes)
            && forall i | i in nodes :: nodes[i].id == i && RebasedFor(b, b', nodes[i])
  {
    hide RebaseAll, Listed, RebasedFor, UntouchedFor, SameCollections, IncarnationsOf, ProgressOf, CommitsOf;
    AllListed(ids, nodes);
    RebasedAt(b, nodes, ids, |ids|, 0);
    var b' := RebaseAll(b, nodes, ids);
    forall i | i in nodes ensures RebasedFor(b, b', nodes[i]) { RebasedAt(b, nodes, ids, |ids|, i); }
    forall i | i !in nodes ensures UntouchedFor(b, b', i) { RebasedAt(b, nodes, ids, |ids|, i); }
    IncarnationsKnown(b, b', nodes);
    OverlaysKnown(b, b', nodes);
  }
}
