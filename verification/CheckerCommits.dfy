/** The commits and applied commands the checker collects, server by server, and what it means that no
    server is found at fault (raftverified/invariants.py, `_observe_commits`, `_check_state_machine_safety`). */
module CheckerCommits {
  import opened Types
  import opened CheckerSpec
  import opened CheckerCaches

  // ---- commits ----

  lemma {:induction false} CommitUpFrom(committed: map<nat, Witnessed>, v: NodeView, lo: nat, hi: nat)
    requires v.base <= lo && hi <= Top(v)
    ensures var all := CommitUp(committed, v, lo, hi);
            && (forall k | k in committed :: k in all && all[k] == committed[k])
            && (forall k | k in all && k !in committed :: lo < k <= hi && all[k] == Witnessed(EntryAt(v, k), v.term))
            && (forall k | lo < k <= hi :: k in all)
    decreases hi
  {
    if hi > lo { CommitUpFrom(committed, v, lo, hi - 1); }
  }

  ghost predicate ShownBy(b: Book, nodes: Views, ids: seq<NodeId>, index: nat, w: Witnessed, i: NodeId) {
    i in ids && i in nodes && NewIn(b, nodes, i, index) && Live(nodes[i], index) && w == Witnessed(EntryAt(nodes[i], index), nodes[i].term)
  }

  lemma {:induction false} CommittedFrom(b: Book, nodes: Views, ids: seq<NodeId>)
    requires forall i | i in ids :: i in nodes && nodes[i].commit <= Top(nodes[i])
    ensures var all := Committed(b, nodes, ids);
            && (forall k | k in b.committed :: k in all && all[k] == b.committed[k])
            && (forall k | k in all && k !in b.committed :: exists i :: ShownBy(b, nodes, ids, k, all[k], i))
            && (forall i, k: nat | i in ids && NewIn(b, nodes, i, k) :: k in all)
  {
    hide PrevCommit, EntryAt;
    if ids != [] {
      var front, i := ids[..|ids| - 1], ids[|ids| - 1];
      assert ids == front + [i];
      CommittedFrom(b, nodes, front);
      var before, all, v := Committed(b, nodes, front), Committed(b, nodes, ids), nodes[i];
      CommitUpFrom(before, v, Largest(PrevCommit(b, v), v.base), v.commit);
      forall k | k in all && k !in b.committed ensures exists j :: ShownBy(b, nodes, ids, k, all[k], j) {
        if k in before {
          var j :| ShownBy(b, nodes, front, k, before[k], j);
          assert ShownBy(b, nodes, ids, k, all[k], j);
        } else {
          assert ShownBy(b, nodes, ids, k, all[k], i);
        }
      }
    }
  }

  lemma {:induction false} MaxCommitFrom(b: Book, nodes: Views, ids: seq<NodeId>, index: nat)
    requires forall i | i in ids :: i in nodes
    ensures MaxCommit(b, nodes, ids) < index <==> b.maxCommit < index && forall i | i in ids :: nodes[i].commit < index
  {
    if ids != [] {
      var front, i := ids[..|ids| - 1], ids[|ids| - 1];
      assert ids == front + [i];
      MaxCommitFrom(b, nodes, front, index);
    }
  }

  /** Nothing the observation of v adds conflicts with what is known, or lacks its quorum. */
  ghost predicate NodeFine(committed: map<nat, Witnessed>, maxCommit: nat, nodes: Views, v: NodeView, prev: nat)
    requires v.commit <= Top(v)
  {
    && prev <= v.commit
    && forall index: nat | NewlyCommitted(v, prev, index) ::
         && (index in committed ==> committed[index].entry == EntryAt(v, index))
         && (index > maxCommit ==> HeldByMajority(nodes, v, index, EntryAt(v, index)))
  }

  ghost predicate FineAt(b: Book, nodes: Views, ids: seq<NodeId>, x: nat)
    requires Listed(ids, nodes) && x < |ids|
  {
    AllListed(ids, nodes);
    var v := nodes[ids[x]];
    NodeFine(Committed(b, nodes, ids[..x]), MaxCommit(b, nodes, ids[..x]), nodes, v, PrevCommit(b, v))
  }

  lemma FineMeans(b: Book, nodes: Views, ids: seq<NodeId>, x: nat)
    requires Listed(ids, nodes) && x < |ids|
    ensures ids[x] in nodes && nodes[ids[x]].commit <= Top(nodes[ids[x]]) && (forall i | i in ids[..x] :: i in nodes && nodes[i].commit <= Top(nodes[i]))
    ensures FineAt(b, nodes, ids, x) <==>
            NodeFine(Committed(b, nodes, ids[..x]), MaxCommit(b, nodes, ids[..x]), nodes, nodes[ids[x]], PrevCommit(b, nodes[ids[x]]))
  {
    NextListed(ids, nodes, x);
  }

  /** What a server at fault-free place x shows is known from then on. */
  lemma KnownAfter(b: Book, nodes: Views, ids: seq<NodeId>, x: nat, y: nat, index: nat)
    requires Listed(ids, nodes) && x < y <= |ids| && FineAt(b, nodes, ids, x) && ids[x] in nodes
    requires NewIn(b, nodes, ids[x], index)
    ensures forall i | i in ids[..y] :: i in nodes && nodes[i].commit <= Top(nodes[i])
    ensures var all := Committed(b, nodes, ids[..y]); index in all && all[index].entry == EntryAt(nodes[ids[x]], index)
    decreases y
  {
    hide Listed, FineAt, PrevCommit, EntryAt;
    AllListed(ids, nodes);
    NextListed(ids, nodes, y - 1);
    FineMeans(b, nodes, ids, x);
    assert ids[..y][..y - 1] == ids[..y - 1];
    var before, v := Committed(b, nodes, ids[..y - 1]), nodes[ids[y - 1]];
    CommitUpFrom(before, v, Largest(PrevCommit(b, v), v.base), v.commit);
    if x < y - 1 { KnownAfter(b, nodes, ids, x, y - 1, index); }
  }

  lemma FineImplies(b: Book, nodes: Views, ids: seq<NodeId>)
    requires Listed(ids, nodes) && forall x: nat | x < |ids| :: FineAt(b, nodes, ids, x)
    ensures Monotone(b, nodes) && CommitsAgree(b, nodes) && Quorums(b, nodes)
  {
    hide Listed, FineAt, PrevCommit, EntryAt, Committed, MaxCommit, HeldByMajority;
    AllListed(ids, nodes);
    forall i | i in nodes ensures exists x :: 0 <= x < |ids| && ids[x] == i { assert i in ids; }
    forall i | i in nodes ensures PrevCommit(b, nodes[i]) <= nodes[i].commit {
      var x :| 0 <= x < |ids| && ids[x] == i;
      FineMeans(b, nodes, ids, x);
    }
    forall i, index: nat | i in nodes && NewIn(b, nodes, i, index) && index in b.committed
      ensures b.committed[index].entry == EntryAt(nodes[i], index)
    {
      var x :| 0 <= x < |ids| && ids[x] == i;
      FineMeans(b, nodes, ids, x);
      CommittedFrom(b, nodes, ids[..x]);
    }
    forall i, j, index: nat | i in nodes && j in nodes && NewIn(b, nodes, i, index) && NewIn(b, nodes, j, index)
      ensures EntryAt(nodes[i], index) == EntryAt(nodes[j], index)
    {
      var x :| 0 <= x < |ids| && ids[x] == i;
      var y :| 0 <= y < |ids| && ids[y] == j;
      KnownAfter(b, nodes, ids, x, |ids|, index);
      KnownAfter(b, nodes, ids, y, |ids|, index);
    }
    forall i, index: nat | i in nodes && FirstToCommit(b, nodes, i, index)
      ensures HeldByMajority(nodes, nodes[i], index, EntryAt(nodes[i], index))
    {
      var x :| 0 <= x < |ids| && ids[x] == i;
      FineMeans(b, nodes, ids, x);
      NextListed(ids, nodes, x);
      MaxCommitFrom(b, nodes, ids[..x], index);
    }
  }

  lemma ImpliesFine(b: Book, nodes: Views, ids: seq<NodeId>, x: nat)
    requires Listed(ids, nodes) && x < |ids|
    requires Monotone(b, nodes) && CommitsAgree(b, nodes) && Quorums(b, nodes)
    ensures FineAt(b, nodes, ids, x)
  {
    hide Listed, FineAt, PrevCommit, Committed, MaxCommit, HeldByMajority;
    AllListed(ids, nodes);
    NextListed(ids, nodes, x);
    FineMeans(b, nodes, ids, x);
    CommittedFrom(b, nodes, ids[..x]);
    var i, v := ids[x], nodes[ids[x]];
    var known := Committed(b, nodes, ids[..x]);
    forall index: nat | NewlyCommitted(v, PrevCommit(b, v), index)
      ensures index in known ==> known[index].entry == EntryAt(v, index)
      ensures index > MaxCommit(b, nodes, ids[..x]) ==> HeldByMajority(nodes, v, index, EntryAt(v, index))
    {
      assert NewIn(b, nodes, i, index);
      if index in known && index !in b.committed {
        var j :| ShownBy(b, nodes, ids[..x], index, known[index], j);
      }
      MaxCommitFrom(b, nodes, ids[..x], index);
      MaxCommitFrom(b, nodes, ids[..x], index + 1);
      if index > MaxCommit(b, nodes, ids[..x]) { assert FirstToCommit(b, nodes, i, index); }
    }
  }

  // ---- applied commands ----

  lemma {:induction false} ApplyUpFrom(appliedAt: map<nat, Command>, v: NodeView, lo: nat, hi: nat)
    requires v.base <= lo && hi <= AppliedTop(v)
    ensures var all := ApplyUp(appliedAt, v, lo, hi);
            && (forall k | k in appliedAt :: k in all && all[k] == appliedAt[k])
            && (forall k | k in all && k !in appliedAt :: lo < k <= hi && all[k] == AppliedCommand(v, k))
            && (forall k | lo < k <= hi :: k in all)
    decreases hi
  {
    if hi > lo { ApplyUpFrom(appliedAt, v, lo, hi - 1); }
  }

  ghost predicate AppliedBy(b: Book, nodes: Views, ids: seq<NodeId>, index: nat, cmd: Command, i: NodeId) {
    i in ids && i in nodes && ApplyIn(b, nodes, i, index) && cmd == AppliedCommand(nodes[i], index)
  }

  lemma {:induction false} AppliedFrom(b: Book, nodes: Views, ids: seq<NodeId>)
    requires forall i | i in ids :: i in nodes
    ensures var all := AppliedAt(b, nodes, ids);
            && (forall k | k in b.appliedAt :: k in all && all[k] == b.appliedAt[k])
            && (forall k | k in all && k !in b.appliedAt :: exists i :: AppliedBy(b, nodes, ids, k, all[k], i))
            && (forall i, k: nat | i in ids && ApplyIn(b, nodes, i, k) :: k in all)
  {
    hide AppliedSeen, AppliedCommand;
    if ids != [] {
      var front, i := ids[..|ids| - 1], ids[|ids| - 1];
      assert ids == front + [i];
      AppliedFrom(b, nodes, front);
      var before, all, v := AppliedAt(b, nodes, front), AppliedAt(b, nodes, ids), nodes[i];
      ApplyUpFrom(before, v, Largest(AppliedSeen(b, v), v.base), AppliedTop(v));
      forall k | k in all && k !in b.appliedAt ensures exists j :: AppliedBy(b, nodes, ids, k, all[k], j) {
        if k in before {
          var j :| AppliedBy(b, nodes, front, k, before[k], j);
          assert AppliedBy(b, nodes, ids, k, all[k], j);
        } else {
          assert AppliedBy(b, nodes, ids, k, all[k], i);
        }
      }
    }
  }

  /** Nothing v has newly applied conflicts with what is known. */
  ghost predicate AppliesFine(appliedAt: map<nat, Command>, v: NodeView, seen: nat) {
    forall index: nat | NewlyApplied(v, seen, index) && index in appliedAt :: appliedAt[index] == AppliedCommand(v, index)
  }

  ghost predicate AppliesFineAt(b: Book, nodes: Views, ids: seq<NodeId>, x: nat)
    requires Listed(ids, nodes) && x < |ids|
  {
    AllListed(ids, nodes);
    var v := nodes[ids[x]];
    AppliesFine(AppliedAt(b, nodes, ids[..x]), v, AppliedSeen(b, v))
  }

  lemma AppliesFineMeans(b: Book, nodes: Views, ids: seq<NodeId>, x: nat)
    requires Listed(ids, nodes) && x < |ids|
    ensures ids[x] in nodes && forall i | i in ids[..x] :: i in nodes
    ensures AppliesFineAt(b, nodes, ids, x) <==> AppliesFine(AppliedAt(b, nodes, ids[..x]), nodes[ids[x]], AppliedSeen(b, nodes[ids[x]]))
  {
    NextListed(ids, nodes, x);
  }

  lemma AppliedNext(b: Book, nodes: Views, ids: seq<NodeId>, y: nat)
    requires 0 < y <= |ids| && forall i | i in ids[..y] :: i in nodes
    ensures (forall i | i in ids[..y - 1] :: i in nodes) && ids[y - 1] in nodes
    ensures var v := nodes[ids[y - 1]];
            AppliedAt(b, nodes, ids[..y]) == ApplyUp(AppliedAt(b, nodes, ids[..y - 1]), v, Largest(AppliedSeen(b, v), v.base), AppliedTop(v))
  {
    hide ApplyUp, AppliedSeen;
    assert ids[..y][..y - 1] == ids[..y - 1] && ids[..y][y - 1] == ids[y - 1];
    assert ids[y - 1] in ids[..y];
    assert forall i | i in ids[..y - 1] :: i in ids[..y];
  }

  lemma AppliedAfter(b: Book, nodes: Views, ids: seq<NodeId>, x: nat, y: nat, index: nat)
    requires Listed(ids, nodes) && x < y <= |ids| && AppliesFineAt(b, nodes, ids, x) && ids[x] in nodes
    requires ApplyIn(b, nodes, ids[x], index)
    ensures forall i | i in ids[..y] :: i in nodes
    ensures var all := AppliedAt(b, nodes, ids[..y]); index in all && all[index] == AppliedCommand(nodes[ids[x]], index)
    decreases y
  {
    hide Listed, AppliesFineAt, AppliedSeen, AppliedCommand, AppliedAt;
    AllListed(ids, nodes);
    NextListed(ids, nodes, y - 1);
    AppliedNext(b, nodes, ids, y);
    AppliesFineMeans(b, nodes, ids, x);
    assert ids[..y][..y - 1] == ids[..y - 1];
    var before, v := AppliedAt(b, nodes, ids[..y - 1]), nodes[ids[y - 1]];
    ApplyUpFrom(before, v, Largest(AppliedSeen(b, v), v.base), AppliedTop(v));
    if x < y - 1 { AppliedAfter(b, nodes, ids, x, y - 1, index); }
  }

  lemma AppliesFineImplies(b: Book, nodes: Views, ids: seq<NodeId>)
    requires Listed(ids, nodes) && forall x: nat | x < |ids| :: AppliesFineAt(b, nodes, ids, x)
    ensures AppliesAgree(b, nodes)
  {
    hide Listed, AppliesFineAt, AppliedSeen, AppliedCommand, AppliedAt;
    AllListed(ids, nodes);
    forall i | i in nodes ensures exists x :: 0 <= x < |ids| && ids[x] == i { assert i in ids; }
    forall i, index: nat | i in nodes && ApplyIn(b, nodes, i, index) && index in b.appliedAt
      ensures b.appliedAt[index] == AppliedCommand(nodes[i], index)
    {
      var x :| 0 <= x < |ids| && ids[x] == i;
      AppliesFineMeans(b, nodes, ids, x);
      AppliedFrom(b, nodes, ids[..x]);
    }
    forall i, j, index: nat | i in nodes && j in nodes && ApplyIn(b, nodes, i, index) && ApplyIn(b, nodes, j, index)
      ensures AppliedCommand(nodes[i], index) == AppliedCommand(nodes[j], index)
    {
      var x :| 0 <= x < |ids| && ids[x] == i;
      var y :| 0 <= y < |ids| && ids[y] == j;
      AppliedAfter(b, nodes, ids, x, |ids|, index);
      AppliedAfter(b, nodes, ids, y, |ids|, index);
    }
  }

  lemma ImpliesAppliesFine(b: Book, nodes: Views, ids: seq<NodeId>, x: nat)
    requires Listed(ids, nodes) && x < |ids| && AppliesAgree(b, nodes)
    ensures AppliesFineAt(b, nodes, ids, x)
  {
    hide Listed, AppliesFineAt, AppliedSeen, AppliedAt;
    AllListed(ids, nodes);
    NextListed(ids, nodes, x);
    AppliesFineMeans(b, nodes, ids, x);
    AppliedFrom(b, nodes, ids[..x]);
    var i, v := ids[x], nodes[ids[x]];
    var known := AppliedAt(b, nodes, ids[..x]);
    forall index: nat | NewlyApplied(v, AppliedSeen(b, v), index) && index in known ensures known[index] == AppliedCommand(v, index) {
      assert ApplyIn(b, nodes, i, index);
      if index !in b.appliedAt {
        var j :| AppliedBy(b, nodes, ids[..x], index, known[index], j);
      }
    }
  }
}
