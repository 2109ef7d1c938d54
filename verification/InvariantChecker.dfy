/** The invariant checker that runs after every simulator step, with its caches keyed on log versions
    (raftverified/invariants.py, InvariantChecker). It passes an observation exactly when the uncached
    specification accepts it. */
module InvariantChecker {
  import opened Types
  import opened CheckerSpec
  import opened CheckerCaches
  import opened CheckerCommits

  /** The scan of one pair: down to the highest index with equal terms, then everything below it. */
  method ScanPair(a: NodeView, b: NodeView) returns (ok: bool)
    ensures ok <==> Matching(a, b)
  {
    var lo := Largest(a.base, b.base) + 1;
    var hi := Least(Top(a), Top(b));
    var top := 0;
    var index := hi;
    while index >= lo
      invariant lo - 1 <= index <= hi || (index == hi && hi < lo)
      invariant forall x: nat | Shared(a, b, x) && x > index :: EntryAt(a, x).term != EntryAt(b, x).term
    {
      if EntryAt(a, index).term == EntryAt(b, index).term {
        top := index;
        break;
      }
      index := index - 1;
    }
    MatchingUpTo(a, b, top);
    index := lo;
    while index <= top
      invariant lo <= index
      invariant forall x: nat | Shared(a, b, x) && x < index :: EntryAt(a, x) == EntryAt(b, x)
    {
      if EntryAt(a, index) != EntryAt(b, index) {
        return false;
      }
      index := index + 1;
    }
    ok := true;
  }

  /** The comparison of a leader's log with its snapshot. */
  method ScanLeader(base: nat, log: seq<Entry>, now: NodeView) returns (ok: bool)
    ensures ok <==> Extends(base, log, now)
  {
    var top := base + |log|;
    if Top(now) < top {
      return false;
    }
    var index := Largest(base, now.base) + 1;
    while index <= top
      invariant Largest(base, now.base) < index
      invariant forall x: nat | Largest(base, now.base) < x < index && x <= top :: log[x - base - 1] == EntryAt(now, x)
    {
      if log[index - base - 1] != EntryAt(now, index) {
        return false;
      }
      index := index + 1;
    }
    ok := true;
  }

  /** The least element of a nonempty set. */
  lemma HasLeast(s: set<nat>)
    requires s != {}
    ensures exists k :: k in s && forall j | j in s :: k <= j
  {
    var k :| k in s;
    var rest := s - {k};
    assert forall x | x in s :: x == k || x in rest;
    if rest == {} {
      assert forall j | j in s :: k <= j;
    } else {
      HasLeast(rest);
      var m :| m in rest && forall j | j in rest :: m <= j;
      var least := Least(k, m);
      assert least in s && forall j | j in s :: least <= j;
    }
  }

  /** Does the leader hold every commit of its own or an earlier term? */
  method ScanCommitted(v: NodeView, committed: map<nat, Witnessed>) returns (ok: bool)
    ensures ok <==> HasAll(v.term, v, committed)
  {
    var rest := committed.Keys;
    while rest != {}
      invariant rest <= committed.Keys
      invariant forall k | k in committed && k !in rest && committed[k].term <= v.term :: Holds(v, k, committed[k].entry)
      decreases |rest|
    {
      HasLeast(rest);
      var index :| index in rest && forall j | j in rest :: index <= j;
      if committed[index].term <= v.term && index > v.base && (Top(v) < index || EntryAt(v, index) != committed[index].entry) {
        return false;
      }
      rest := rest - {index};
    }
    ok := true;
  }

  class InvariantChecker {
    var leadersByTerm: map<nat, NodeId>
    var committed: map<nat, Witnessed>
    var appliedAt: map<nat, Command>
    var maxCommit: nat
    var prevCommit: map<NodeId, nat>
    var appliedSeen: map<NodeId, nat>
    var incarnation: map<NodeId, nat>
    var leaderSnapshot: map<NodeId, Leadership>
    var pairChecked: map<(NodeId, NodeId), (nat, nat)>
    var completenessChecked: map<NodeId, Completeness>

    /** Every server as it was last observed. */
    ghost var last: Views

    ghost function View(): Book
      reads this
    {
      Book(leadersByTerm, committed, appliedAt, maxCommit, prevCommit, appliedSeen, incarnation)
    }

    ghost predicate Valid()
      reads this
    {
      && SnapshotsOK(leaderSnapshot, last)
      && PairsOK(pairChecked, last)
      && CompleteOK(completenessChecked, last, committed)
    }

    constructor ()
      ensures View() == BLANK && last == map[] && Valid()
    {
      leadersByTerm, committed, appliedAt, maxCommit := map[], map[], map[], 0;
      prevCommit, appliedSeen, incarnation := map[], map[], map[];
      leaderSnapshot, pairChecked, completenessChecked := map[], map[], map[];
      last := map[];
    }

    /** A restart rebases what is remembered of the server instead of flagging the reset. */
    method NoteRestart(v: NodeView)
      modifies this`prevCommit, this`appliedSeen, this`incarnation
      ensures View() == Rebase(old(View()), v)
    {
      if v.id in incarnation && incarnation[v.id] != v.incarnation {
        prevCommit := prevCommit[v.id := v.commit];
        appliedSeen := appliedSeen[v.id := AppliedTop(v)];
      }
      incarnation := incarnation[v.id := v.incarnation];
    }

    method HandleRestarts(nodes: Views, ids: seq<NodeId>)
      requires Listed(ids, nodes)
      modifies this`prevCommit, this`appliedSeen, this`incarnation
      ensures View() == RebaseAll(old(View()), nodes, ids)
    {
      hide View, Rebase, Listed;
      ghost var b := View();
      var x := 0;
      while x < |ids|
        invariant x <= |ids| && (forall i | i in ids[..x] :: i in nodes) && View() == RebaseAll(b, nodes, ids[..x])
      {
        NextListed(ids, nodes, x);
        NoteRestart(nodes[ids[x]]);
        x := x + 1;
      }
      assert ids[..x] == ids;
    }

    /** The rebasing in terms of what each server is then compared with. */
    method RebaseCaches(nodes: Views, ids: seq<NodeId>)
      requires Listed(ids, nodes)
      modifies this`prevCommit, this`appliedSeen, this`incarnation
      ensures incarnation == old(incarnation) + IncarnationsOf(nodes)
      ensures prevCommit + CommitsOf(nodes) == old(prevCommit) + CommitsOf(nodes)
      ensures appliedSeen + ProgressOf(old(View()), nodes) == old(appliedSeen) + ProgressOf(old(View()), nodes)
      ensures forall i | i in nodes ::
                Recall(prevCommit, i) == PrevCommit(old(View()), nodes[i]) && Recall(appliedSeen, i) == AppliedSeen(old(View()), nodes[i])
    {
      hide Listed, RebaseAll, CommitsOf, ProgressOf, IncarnationsOf, PrevCommit, AppliedSeen, Recall, RebasedFor;
      ghost var b := View();
      HandleRestarts(nodes, ids);
      RebasedOverlay(b, nodes, ids);
      RebasedMeans(b, View(), nodes);
    }

    /** At most one leader was ever seen in a term. */
    method CheckElectionSafety(nodes: Views, ids: seq<NodeId>) returns (ok: bool)
      requires Listed(ids, nodes)
      modifies this`leadersByTerm
      ensures ok <==> OneLeaderPerTerm(old(leadersByTerm), nodes)
      ensures ok ==> (forall i | i in ids :: i in nodes) && leadersByTerm == Leaders(old(leadersByTerm), nodes, ids)
    {
      hide Listed, OneLeaderPerTerm;
      ghost var before := leadersByTerm;
      AllListed(ids, nodes);
      var x := 0;
      while x < |ids|
        invariant x <= |ids| && (forall i | i in ids[..x] :: i in nodes) && leadersByTerm == Leaders(before, nodes, ids[..x])
        invariant forall i | i in ids[..x] && nodes[i].leader :: nodes[i].term in leadersByTerm && leadersByTerm[nodes[i].term] == i
      {
        NextListed(ids, nodes, x);
        var v := nodes[ids[x]];
        assert ids[..x + 1][..x] == ids[..x];
        if v.leader {
          if v.term !in leadersByTerm {
            leadersByTerm := leadersByTerm[v.term := v.id];
          }
          if leadersByTerm[v.term] != v.id {
            SecondLeader(before, nodes, ids[..x], v);
            return false;
          }
        }
        x := x + 1;
      }
      NoSecondLeader(before, nodes, ids);
      ok := true;
    }

    /** A leader only extends the log it was last seen with, as long as it leads the same term. */
    method CheckOneLeader(v: NodeView, ghost now: Views) returns (ok: bool)
      requires SnapshotsOK(leaderSnapshot, now) && (v.id in now ==> Follows(now[v.id], v))
      modifies this`leaderSnapshot
      ensures ok <==> KeepsLog(now, v)
      ensures ok ==> SnapshotsOK(leaderSnapshot, now[v.id := v])
    {
      hide Extends;
      if !v.leader {
        leaderSnapshot := leaderSnapshot - {v.id};
      } else if v.id !in leaderSnapshot || leaderSnapshot[v.id].term != v.term {
        leaderSnapshot := leaderSnapshot[v.id := Leadership(v.term, v.version, v.base, v.log)];
      } else if leaderSnapshot[v.id].version == v.version {
        SameExtends(now[v.id], v);
      } else {
        ok := ScanLeader(leaderSnapshot[v.id].base, leaderSnapshot[v.id].log, v);
        leaderSnapshot := leaderSnapshot[v.id := Leadership(v.term, v.version, v.base, v.log)];
        return;
      }
      ok := true;
    }

    method CheckLeaderAppendOnly(nodes: Views, ids: seq<NodeId>) returns (ok: bool)
      requires Listed(ids, nodes) && SnapshotsOK(leaderSnapshot, last) && VersionsTell(last, nodes)
      modifies this`leaderSnapshot
      ensures ok <==> AppendOnly(last, nodes)
      ensures ok ==> SnapshotsOK(leaderSnapshot, last + nodes)
    {
      hide Listed, KeepsLog, SnapshotsOK, Overlay;
      AllListed(ids, nodes);
      OverlayAll(last, nodes, ids);
      NothingPut(last, nodes);
      var x := 0;
      while x < |ids|
        invariant x <= |ids| && (forall i | i in ids[..x] :: i in nodes) && SnapshotsOK(leaderSnapshot, Overlay(last, nodes, ids[..x]))
        invariant forall i | i in ids[..x] :: KeepsLog(last, nodes[i])
      {
        NextListed(ids, nodes, x);
        OverlayNext(last, nodes, ids, nodes, x);
        var v := nodes[ids[x]];
        assert v.id in last ==> Follows(last[v.id], v);
        KeepsLogSame(last, Overlay(last, nodes, ids[..x]), v);
        var fine := CheckOneLeader(v, Overlay(last, nodes, ids[..x]));
        if !fine {
          return false;
        }
        x := x + 1;
      }
      ok := true;
    }

    /** Equal terms at a shared index must mean equal logs below; a pair checked at these versions is skipped. */
    method CheckPair(a: NodeView, b: NodeView, ghost now: Views) returns (ok: bool)
      requires PairsOK(pairChecked, now) && a.id in now && now[a.id] == a && b.id in now && now[b.id] == b
      modifies this`pairChecked
      ensures ok <==> Matching(a, b)
      ensures ok ==> PairsOK(pairChecked, now)
    {
      hide Matching;
      var pair, versions := (a.id, b.id), (a.version, b.version);
      if pair in pairChecked && pairChecked[pair] == versions {
        return true;
      }
      ok := ScanPair(a, b);
      if ok {
        pairChecked := pairChecked[pair := versions];
      }
    }

    method CheckLogMatching(nodes: Views, ids: seq<NodeId>) returns (ok: bool)
      requires Listed(ids, nodes) && PairsOK(pairChecked, last) && VersionsTell(last, nodes)
      modifies this`pairChecked
      ensures ok <==> AllMatching(nodes)
      ensures ok ==> PairsOK(pairChecked, last + nodes)
    {
      hide Matching, PairsOK;
      AllListed(ids, nodes);
      PairsFollow(pairChecked, last, nodes);
      var x := 0;
      while x < |ids|
        invariant x <= |ids| && PairsOK(pairChecked, last + nodes)
        invariant forall p: nat | p < x :: RowMatches(nodes, ids, p, |ids|)
      {
        var y := x + 1;
        while y < |ids|
          invariant x < y <= |ids| && PairsOK(pairChecked, last + nodes) && RowMatches(nodes, ids, x, y)
        {
          var matching := CheckPair(nodes[ids[x]], nodes[ids[y]], last + nodes);
          if !matching {
            return false;
          }
          y := y + 1;
        }
        x := x + 1;
      }
      RowsMatch(nodes, ids);
      ok := true;
    }

    /** The commits one server newly shows. */
    method ObserveNode(v: NodeView, nodes: Views, prev: nat) returns (ok: bool)
      requires v.commit <= Top(v)
      modifies this`committed
      ensures ok <==> NodeFine(old(committed), maxCommit, nodes, v, prev)
      ensures ok ==> committed == CommitUp(old(committed), v, Largest(prev, v.base), v.commit)
    {
      hide HeldByMajority, CommitUp;
      if v.commit < prev {
        return false;
      }
      ghost var known := committed;
      var lo := Largest(prev, v.base);
      var index := lo;
      CommitUpNext(known, v, lo, lo);
      while index < v.commit
        invariant lo <= index && (index <= v.commit || index == lo)
        invariant committed == CommitUp(known, v, lo, Least(index, Top(v)))
        invariant forall k: nat | NewlyCommitted(v, prev, k) && k <= index ::
                    && (k in known ==> known[k].entry == EntryAt(v, k))
                    && (k > maxCommit ==> HeldByMajority(nodes, v, k, EntryAt(v, k)))
      {
        CommitUpNext(known, v, lo, index);
        index := index + 1;
        assert NewlyCommitted(v, prev, index);
        var entry := EntryAt(v, index);
        if index !in committed {
          committed := committed[index := Witnessed(entry, v.term)];
        } else if committed[index].entry != entry {
          return false;
        }
        if index > maxCommit && !HeldByMajority(nodes, v, index, entry) {
          return false;
        }
      }
      CommitUpBelow(known, v, lo, index);
      ok := true;
    }

    /** New commits agree with the known ones, never regress, and have their quorum when first seen. */
    method ObserveCommits(nodes: Views, ids: seq<NodeId>, ghost b: Book) returns (ok: bool)
      requires Listed(ids, nodes) && committed == b.committed && maxCommit == b.maxCommit
      requires forall i | i in nodes :: Recall(prevCommit, i) == PrevCommit(b, nodes[i])
      modifies this`committed, this`maxCommit, this`prevCommit
      ensures ok <==> Monotone(b, nodes) && CommitsAgree(b, nodes) && Quorums(b, nodes)
      ensures ok ==> committed == Committed(b, nodes, ids) && maxCommit == MaxCommit(b, nodes, ids)
      ensures ok ==> prevCommit == old(prevCommit) + CommitsOf(nodes)
    {
      hide Listed, FineAt, PrevCommit, NodeFine, Monotone, CommitsAgree, Quorums, Committed, MaxCommit, CommitUp, CommitsOf, Overlay;
      NoneCommitted(b, nodes);
      ghost var before := prevCommit;
      AllListed(ids, nodes);
      NothingPut(before, CommitsOf(nodes));
      var x := 0;
      while x < |ids|
        invariant x <= |ids| && forall i | i in ids[..x] :: i in nodes && nodes[i].commit <= Top(nodes[i])
        invariant committed == Committed(b, nodes, ids[..x]) && maxCommit == MaxCommit(b, nodes, ids[..x])
        invariant prevCommit == Overlay(before, CommitsOf(nodes), ids[..x])
        invariant forall y: nat | y < x :: FineAt(b, nodes, ids, y)
      {
        NextListed(ids, nodes, x);
        OverlayNext(before, CommitsOf(nodes), ids, nodes, x);
        FineMeans(b, nodes, ids, x);
        CommittedNext(b, nodes, ids, x);
        var v := nodes[ids[x]];
        CommitOf(nodes, v.id);
        var fine := ObserveNode(v, nodes, Recall(prevCommit, v.id));
        if !fine {
          CommitFault(b, nodes, ids, x);
          return false;
        }
        maxCommit := Largest(maxCommit, v.commit);
        prevCommit := prevCommit[v.id := v.commit];
        x := x + 1;
      }
      OverlayAll(before, CommitsOf(nodes), ids);
      FineImplies(b, nodes, ids);
      ok := true;
    }

    /** Every leader holds every commit of its own and earlier terms; a leader checked in this state is skipped. */
    method CheckOneCompleteness(v: NodeView, ghost now: Views) returns (ok: bool)
      requires CompleteOK(completenessChecked, now, committed) && v.id in now && now[v.id] == v
      modifies this`completenessChecked
      ensures ok <==> (v.leader ==> HasAll(v.term, v, committed))
      ensures ok ==> CompleteOK(completenessChecked, now, committed)
    {
      hide HasAll;
      if !v.leader {
        completenessChecked := completenessChecked - {v.id};
        return true;
      }
      var state := Completeness(v.term, v.version, |committed|);
      if v.id in completenessChecked && completenessChecked[v.id] == state {
        return true;
      }
      ok := ScanCommitted(v, committed);
      if ok {
        completenessChecked := completenessChecked[v.id := state];
      }
    }

    method CheckLeaderCompleteness(nodes: Views, ids: seq<NodeId>) returns (ok: bool)
      requires Listed(ids, nodes) && CompleteOK(completenessChecked, last + nodes, committed)
      modifies this`completenessChecked
      ensures ok <==> LeadersComplete(committed, nodes)
      ensures ok ==> CompleteOK(completenessChecked, last + nodes, committed)
    {
      hide HasAll, CompleteOK;
      AllListed(ids, nodes);
      var x := 0;
      while x < |ids|
        invariant x <= |ids| && CompleteOK(completenessChecked, last + nodes, committed)
        invariant forall y: nat | y < x :: nodes[ids[y]].leader ==> HasAll(nodes[ids[y]].term, nodes[ids[y]], committed)
      {
        var complete := CheckOneCompleteness(nodes[ids[x]], last + nodes);
        if !complete {
          return false;
        }
        x := x + 1;
      }
      forall i | i in nodes && nodes[i].leader ensures HasAll(nodes[i].term, nodes[i], committed) {
        var y :| 0 <= y < |ids| && ids[y] == i;
        assert nodes[ids[y]].leader;
      }
      ok := true;
    }

    /** The commands one server has newly applied. */
    method ApplyNode(v: NodeView, seen: nat) returns (ok: bool)
      modifies this`appliedAt
      ensures ok <==> AppliesFine(old(appliedAt), v, seen)
      ensures ok ==> appliedAt == ApplyUp(old(appliedAt), v, Largest(seen, v.base), AppliedTop(v))
    {
      hide ApplyUp;
      ghost var known := appliedAt;
      var lo := Largest(seen, v.base);
      var index := lo;
      ApplyUpNext(known, v, lo, lo);
      while index < AppliedTop(v)
        invariant lo <= index && (index <= AppliedTop(v) || index == lo)
        invariant appliedAt == ApplyUp(known, v, lo, Least(index, AppliedTop(v)))
        invariant forall k: nat | NewlyApplied(v, seen, k) && k <= index && k in known :: known[k] == AppliedCommand(v, k)
      {
        ApplyUpNext(known, v, lo, index);
        index := index + 1;
        assert NewlyApplied(v, seen, index);
        var command := AppliedCommand(v, index);
        if index !in appliedAt {
          appliedAt := appliedAt[index := command];
        }
        if appliedAt[index] != command {
          return false;
        }
      }
      ApplyUpBelow(known, v, lo, index);
      ok := true;
    }

    /** No two servers ever apply different commands at an index. */
    method CheckStateMachineSafety(nodes: Views, ids: seq<NodeId>, ghost b: Book) returns (ok: bool)
      requires Listed(ids, nodes) && appliedAt == b.appliedAt
      requires forall i | i in nodes :: Recall(appliedSeen, i) == AppliedSeen(b, nodes[i])
      modifies this`appliedAt, this`appliedSeen
      ensures ok <==> AppliesAgree(b, nodes)
      ensures ok ==> (forall i | i in ids :: i in nodes) && appliedAt == AppliedAt(b, nodes, ids)
      ensures ok ==> appliedSeen == old(appliedSeen) + ProgressOf(b, nodes)
    {
      hide Listed, AppliesFineAt, AppliedSeen, AppliesFine, AppliesAgree, ApplyUp, Overlay;
      ghost var before := appliedSeen;
      AllListed(ids, nodes);
      NothingPut(before, ProgressOf(b, nodes));
      var x := 0;
      while x < |ids|
        invariant x <= |ids| && forall i | i in ids[..x] :: i in nodes
        invariant appliedAt == AppliedAt(b, nodes, ids[..x])
        invariant appliedSeen == Overlay(before, ProgressOf(b, nodes), ids[..x])
        invariant forall y: nat | y < x :: AppliesFineAt(b, nodes, ids, y)
      {
        NextListed(ids, nodes, x);
        OverlayNext(before, ProgressOf(b, nodes), ids, nodes, x);
        AppliesFineMeans(b, nodes, ids, x);
        assert ids[..x + 1][..x] == ids[..x];
        var v := nodes[ids[x]];
        var seen := Recall(appliedSeen, v.id);
        var fine := ApplyNode(v, seen);
        if !fine {
          if AppliesAgree(b, nodes) { ImpliesAppliesFine(b, nodes, ids, x); }
          return false;
        }
        appliedSeen := appliedSeen[v.id := Largest(seen, AppliedTop(v))];
        x := x + 1;
      }
      OverlayAll(before, ProgressOf(b, nodes), ids);
      AppliesFineImplies(b, nodes, ids);
      ok := true;
    }

    /** The three checks that compare terms and logs. */
    method CheckLogs(nodes: Views, ids: seq<NodeId>) returns (ok: bool)
      requires Listed(ids, nodes) && SnapshotsOK(leaderSnapshot, last) && PairsOK(pairChecked, last) && VersionsTell(last, nodes)
      modifies this`leadersByTerm, this`leaderSnapshot, this`pairChecked
      ensures ok <==> OneLeaderPerTerm(old(leadersByTerm), nodes) && AppendOnly(last, nodes) && AllMatching(nodes)
      ensures ok ==> (forall i | i in ids :: i in nodes) && leadersByTerm == Leaders(old(leadersByTerm), nodes, ids)
      ensures ok ==> SnapshotsOK(leaderSnapshot, last + nodes) && PairsOK(pairChecked, last + nodes)
    {
      hide Listed, SnapshotsOK, PairsOK, VersionsTell, OneLeaderPerTerm, AppendOnly, AllMatching, Leaders;
      ok := CheckElectionSafety(nodes, ids);
      if ok {
        ok := CheckLeaderAppendOnly(nodes, ids);
      }
      if ok {
        ok := CheckLogMatching(nodes, ids);
      }
    }

    /** The checks on what has been committed and applied. */
    method CheckEntries(nodes: Views, ids: seq<NodeId>, ghost b: Book) returns (ok: bool)
      requires Listed(ids, nodes) && CompleteOK(completenessChecked, last, committed) && VersionsTell(last, nodes)
      requires committed == b.committed && maxCommit == b.maxCommit && appliedAt == b.appliedAt
      requires forall i | i in nodes :: Recall(prevCommit, i) == PrevCommit(b, nodes[i]) && Recall(appliedSeen, i) == AppliedSeen(b, nodes[i])
      modifies this`committed, this`maxCommit, this`prevCommit, this`completenessChecked, this`appliedAt, this`appliedSeen
      ensures ok <==>
        Monotone(b, nodes) && CommitsAgree(b, nodes) && Quorums(b, nodes) && LeadersComplete(Committed(b, nodes, ids), nodes) && AppliesAgree(b, nodes)
      ensures ok ==> committed == Committed(b, nodes, ids) && maxCommit == MaxCommit(b, nodes, ids) && appliedAt == AppliedAt(b, nodes, ids)
      ensures ok ==> prevCommit == old(prevCommit) + CommitsOf(nodes) && appliedSeen == old(appliedSeen) + ProgressOf(b, nodes)
      ensures ok ==> CompleteOK(completenessChecked, last + nodes, committed)
    {
      hide Listed, CompleteOK, VersionsTell, Monotone, CommitsAgree, Quorums, LeadersComplete, AppliesAgree, Committed, MaxCommit, AppliedAt,
           CommitsOf, ProgressOf, PrevCommit, AppliedSeen;
      ok := ObserveCommits(nodes, ids, b);
      if ok {
        CompleteNow(completenessChecked, last, nodes, ids, b);
        ok := CheckLeaderCompleteness(nodes, ids);
      }
      if ok {
        ok := CheckStateMachineSafety(nodes, ids, b);
      }
    }

    /** The whole check of one observation: it passes exactly what the uncached specification accepts, as
        long as a server's version grows whenever its log changes. */
    method Check(nodes: Views, ids: seq<NodeId>) returns (passed: bool)
      requires Valid() && Listed(ids, nodes) && VersionsTell(last, nodes)
      modifies this
      ensures passed <==> Accepts(old(View()), old(last), nodes, ids)
      ensures passed ==> Valid() && last == old(last) + nodes && View() == Noted(old(View()), nodes, ids)
    {
      hide Listed, SnapshotsOK, PairsOK, CompleteOK, VersionsTell, OneLeaderPerTerm, AppendOnly, AllMatching, Monotone, CommitsAgree, Quorums,
           LeadersComplete, AppliesAgree, Leaders, Committed, MaxCommit, AppliedAt, CommitsOf, ProgressOf, IncarnationsOf, PrevCommit, AppliedSeen, RebaseAll,
           Recall, RebasedFor;
      ghost var b := View();
      RebaseCaches(nodes, ids);
      passed := CheckLogs(nodes, ids);
      if passed {
        passed := CheckEntries(nodes, ids, b);
      }
      if passed {
        last := last + nodes;
      }
    }
  }

  lemma RebasedMeans(b: Book, b': Book, nodes: Views)
    requires forall i | i in nodes :: nodes[i].id == i && RebasedFor(b, b', nodes[i])
    ensures forall i | i in nodes :: Recall(b'.prevCommit, i) == PrevCommit(b, nodes[i]) && Recall(b'.appliedSeen, i) == AppliedSeen(b, nodes[i])
  {
    hide PrevCommit, AppliedSeen;
    forall i | i in nodes ensures Recall(b'.prevCommit, i) == PrevCommit(b, nodes[i]) && Recall(b'.appliedSeen, i) == AppliedSeen(b, nodes[i]) {
      assert RebasedFor(b, b', nodes[i]);
    }
  }

  lemma CompleteNow(complete: map<NodeId, Completeness>, last: Views, nodes: Views, ids: seq<NodeId>, b: Book)
    requires Listed(ids, nodes) && CompleteOK(complete, last, b.committed) && VersionsTell(last, nodes)
    ensures CompleteOK(complete, last + nodes, Committed(b, nodes, ids))
  {
    hide CompleteOK, VersionsTell, Committed;
    AllListed(ids, nodes);
    CommittedFrom(b, nodes, ids);
    CompleteFollows(complete, last, nodes, b.committed, Committed(b, nodes, ids));
  }

  lemma ApplyUpNext(known: map<nat, Command>, v: NodeView, lo: nat, index: nat)
    requires v.base <= lo <= index && (index < AppliedTop(v) || index == lo)
    ensures index < AppliedTop(v) ==>
              var below := ApplyUp(known, v, lo, index);
              && (index + 1 in below <==> index + 1 in known) && (index + 1 in known ==> below[index + 1] == known[index + 1])
              && ApplyUp(known, v, lo, index + 1) == if index + 1 in below then below else below[index + 1 := AppliedCommand(v, index + 1)]
    ensures ApplyUp(known, v, lo, Least(lo, AppliedTop(v))) == known
  {
    if index < AppliedTop(v) { ApplyUpFrom(known, v, lo, index); }
  }

  lemma ApplyUpBelow(known: map<nat, Command>, v: NodeView, lo: nat, index: nat)
    requires v.base <= lo <= index && (index == AppliedTop(v) || (index == lo && AppliedTop(v) <= lo))
    ensures ApplyUp(known, v, lo, Least(index, AppliedTop(v))) == ApplyUp(known, v, lo, AppliedTop(v))
  {}

  lemma CommitOf(nodes: Views, i: NodeId)
    requires i in nodes
    ensures CommitsOf(nodes).Keys == nodes.Keys && CommitsOf(nodes)[i] == nodes[i].commit
  {}

  lemma NoneCommitted(b: Book, nodes: Views)
    ensures Committed(b, nodes, []) == b.committed && MaxCommit(b, nodes, []) == b.maxCommit && CommitsOf(nodes).Keys == nodes.Keys
  {}

  lemma CommittedNext(b: Book, nodes: Views, ids: seq<NodeId>, x: nat)
    requires x < |ids| && forall i | i in ids[..x + 1] :: i in nodes && nodes[i].commit <= Top(nodes[i])
    ensures (forall i | i in ids[..x] :: i in ids[..x + 1]) && ids[x] in ids[..x + 1]
    ensures var v := nodes[ids[x]];
            && Committed(b, nodes, ids[..x + 1]) == CommitUp(Committed(b, nodes, ids[..x]), v, Largest(PrevCommit(b, v), v.base), v.commit)
            && MaxCommit(b, nodes, ids[..x + 1]) == Largest(MaxCommit(b, nodes, ids[..x]), v.commit)
  {
    hide CommitUp, PrevCommit;
    assert ids[..x + 1] == ids[..x] + [ids[x]];
    assert ids[..x + 1][..x] == ids[..x];
  }

  lemma CommitFault(b: Book, nodes: Views, ids: seq<NodeId>, x: nat)
    requires Listed(ids, nodes) && x < |ids| && !FineAt(b, nodes, ids, x)
    ensures (forall i | i in nodes :: nodes[i].commit <= Top(nodes[i])) && !(Monotone(b, nodes) && CommitsAgree(b, nodes) && Quorums(b, nodes))
  {
    hide FineAt, Monotone, CommitsAgree, Quorums;
    if Monotone(b, nodes) && CommitsAgree(b, nodes) && Quorums(b, nodes) { ImpliesFine(b, nodes, ids, x); }
  }

  lemma CommitUpNext(known: map<nat, Witnessed>, v: NodeView, lo: nat, index: nat)
    requires v.base <= lo <= index && v.commit <= Top(v) && (index < v.commit || index == lo)
    ensures index < v.commit ==>
              var below := CommitUp(known, v, lo, index);
              && (index + 1 in below <==> index + 1 in known) && (index + 1 in known ==> below[index + 1] == known[index + 1])
              && CommitUp(known, v, lo, index + 1) == if index + 1 in below then below else below[index + 1 := Witnessed(EntryAt(v, index + 1), v.term)]
    ensures CommitUp(known, v, lo, Least(lo, Top(v))) == known
  {
    if index < v.commit { CommitUpFrom(known, v, lo, index); }
  }

  lemma CommitUpBelow(known: map<nat, Witnessed>, v: NodeView, lo: nat, index: nat)
    requires v.base <= lo <= index && v.commit <= Top(v) && (index == v.commit || (index == lo && v.commit <= lo))
    ensures CommitUp(known, v, lo, Least(index, Top(v))) == CommitUp(known, v, lo, v.commit)
  {}

  lemma NothingPut<T>(m: map<NodeId, T>, values: map<NodeId, T>)
    ensures Overlay(m, values, []) == m
  {}

  lemma KeepsLogSame(last: Views, now: Views, v: NodeView)
    requires (v.id in now <==> v.id in last) && (v.id in last ==> now[v.id] == last[v.id])
    ensures KeepsLog(now, v) == KeepsLog(last, v)
  {}
}
