/** What the invariant checker decides about a whole recording, told by the recorded observations alone: no book is
    kept, and what counts as new, as first seen or as remembered is read off the earlier observations
    (raftverified/invariants.py). */
module Recordings {
  import opened Types
  import opened CheckerSpec
  import opened CheckerCaches
  import opened CheckerCommits
  import InvariantChecker

  type Recording = seq<Views>

  ghost predicate Recorded(obs: Recording, ids: seq<NodeId>) {
    forall k | 0 <= k < |obs| :: Listed(ids, obs[k])
  }

  ghost predicate Seen(obs: Recording, k: nat, i: NodeId) { k < |obs| && i in obs[k] }

  // ---- two servers, or one at two moments ----

  ghost predicate BothHave(a: NodeView, b: NodeView, x: nat) {
    a.base < x <= a.base + |a.log| && b.base < x <= b.base + |b.log|
  }

  ghost predicate SameEntry(a: NodeView, b: NodeView, x: nat)
    requires BothHave(a, b, x)
  {
    a.log[x - a.base - 1] == b.log[x - b.base - 1]
  }

  ghost predicate SameTerm(a: NodeView, b: NodeView, x: nat)
    requires BothHave(a, b, x)
  {
    a.log[x - a.base - 1].term == b.log[x - b.base - 1].term
  }

  /** a's entry at x is in b's log, or b has compacted that index. */
  ghost predicate HasToo(a: NodeView, b: NodeView, x: nat) {
    x <= b.base || (BothHave(a, b, x) && SameEntry(a, b, x))
  }

  // ---- leaders ----

  ghost predicate Leads(obs: Recording, k: nat, i: NodeId, term: nat) {
    Seen(obs, k, i) && obs[k][i].leader && obs[k][i].term == term
  }

  /** Nobody was seen to lead a term of this observation but those who lead it now, and they are one. */
  ghost predicate OneLeader(obs: Recording, k: nat) {
    forall j: nat, i, l, t | j <= k && Leads(obs, j, i, t) && Leads(obs, k, l, t) :: i == l
  }

  /** A server that leads the same term as an observation ago has lost no entry at the top and changed none. */
  ghost predicate LeadersKeepLogs(obs: Recording, k: nat) {
    forall i, t | k > 0 && Leads(obs, k - 1, i, t) && Leads(obs, k, i, t) :: KeptBy(obs[k - 1][i], obs[k][i])
  }

  ghost predicate KeptBy(before: NodeView, now: NodeView) {
    before.base + |before.log| <= now.base + |now.log| && forall x: nat | BothHave(before, now, x) :: SameEntry(before, now, x)
  }

  ghost predicate LogsMatchAt(obs: Recording, k: nat) {
    forall i, l | Seen(obs, k, i) && Seen(obs, k, l) :: MatchBelow(obs[k][i], obs[k][l])
  }

  ghost predicate MatchBelow(a: NodeView, b: NodeView) {
    forall x: nat, y: nat | x <= y && BothHave(a, b, x) && BothHave(a, b, y) && SameTerm(a, b, y) :: SameEntry(a, b, x)
  }

  // ---- commits ----

  ghost predicate SameLifeAsBefore(obs: Recording, k: nat, i: NodeId) {
    k > 0 && Seen(obs, k - 1, i) && Seen(obs, k, i) && obs[k - 1][i].incarnation == obs[k][i].incarnation
  }

  /** The commit index of a server that has not restarted does not go back. */
  ghost predicate NoneRegress(obs: Recording, k: nat) {
    forall i | SameLifeAsBefore(obs, k, i) :: obs[k - 1][i].commit <= obs[k][i].commit
  }

  /** Observation k shows index x committed by i for the first time in i's life, and not compacted. */
  ghost predicate Shows(obs: Recording, k: nat, i: NodeId, x: nat) {
    && Seen(obs, k, i) && obs[k][i].base < x <= obs[k][i].commit
    && (k > 0 ==> SameLifeAsBefore(obs, k, i) && obs[k - 1][i].commit < x)
  }

  ghost predicate Earlier(j: nat, i: NodeId, k: nat, l: NodeId) { j < k || (j == k && i < l) }

  /** What is newly shown committed is what was ever shown committed there. */
  ghost predicate ShownAgree(obs: Recording, k: nat) {
    forall j: nat, i, l, x: nat | j <= k && Shows(obs, j, i, x) && Shows(obs, k, l, x) ::
      HasToo(obs[j][i], obs[k][l], x)
  }

  /** The very first sight of a commit index that high: more than half of that server's configuration has the entry
      at that moment. */
  ghost predicate FirstCommitsBacked(obs: Recording, k: nat) {
    forall i, x: nat | Shows(obs, k, i, x) && NoneSoFar(obs, k, i, x) :: Backed(obs, k, i, x)
  }

  ghost predicate NoneSoFar(obs: Recording, k: nat, i: NodeId, x: nat) {
    forall j: nat, l | Earlier(j, l, k, i) && Seen(obs, j, l) :: obs[j][l].commit < x
  }

  ghost predicate Backed(obs: Recording, k: nat, i: NodeId, x: nat)
    requires Seen(obs, k, i)
  {
    var voters := obs[k][i].voters;
    |set v | v in voters && Seen(obs, k, v) && HasToo(obs[k][i], obs[k][v], x)| * 2 > |voters|
  }

  ghost predicate FirstShown(obs: Recording, j: nat, i: NodeId, x: nat) {
    Shows(obs, j, i, x) && forall k: nat, l | Earlier(k, l, j, i) :: !Shows(obs, k, l, x)
  }

  /** A leader has every entry that was first shown committed in a term up to its own. */
  ghost predicate LeadersHaveCommits(obs: Recording, k: nat) {
    forall i, t, j: nat, l, x: nat | Leads(obs, k, i, t) && j <= k && FirstShown(obs, j, l, x) && obs[j][l].term <= t ::
      HasToo(obs[j][l], obs[k][i], x)
  }

  // ---- applied commands ----

  /** i has not restarted after observation j, up to k. */
  ghost predicate SameLife(obs: Recording, i: NodeId, j: nat, k: nat) {
    forall m: nat | j < m <= k :: SameLifeAsBefore(obs, m, i)
  }

  function Progress(v: NodeView): nat { v.base + |v.applied| }

  /** Observation k shows index x applied by i for the first time in i's life, and not compacted. */
  ghost predicate Applies(obs: Recording, k: nat, i: NodeId, x: nat) {
    && Seen(obs, k, i) && obs[k][i].base < x <= Progress(obs[k][i])
    && (k > 0 ==> SameLifeAsBefore(obs, k, i))
    && forall j: nat | j < k && SameLife(obs, i, j, k) && Seen(obs, j, i) :: Progress(obs[j][i]) < x
  }

  ghost predicate SameApplied(obs: Recording, j: nat, i: NodeId, k: nat, l: NodeId, x: nat)
    requires Applies(obs, j, i, x) && Applies(obs, k, l, x)
  {
    obs[j][i].applied[x - obs[j][i].base - 1] == obs[k][l].applied[x - obs[k][l].base - 1]
  }

  ghost predicate AppliedAgree(obs: Recording, k: nat) {
    forall j: nat, i, l, x: nat | j <= k && Applies(obs, j, i, x) && Applies(obs, k, l, x) :: SameApplied(obs, j, i, k, l, x)
  }

  // ---- a sound observation ----

  ghost predicate Sound(obs: Recording, k: nat) {
    && OneLeader(obs, k) && LeadersKeepLogs(obs, k) && LogsMatchAt(obs, k)
    && NoneRegress(obs, k) && ShownAgree(obs, k) && FirstCommitsBacked(obs, k) && LeadersHaveCommits(obs, k)
    && AppliedAgree(obs, k)
  }

  // ---- what the book holds after some observations ----

  function BookAfter(obs: Recording, ids: seq<NodeId>, k: nat): Book
    requires Recorded(obs, ids) && k <= |obs|
  {
    if k == 0 then BLANK else Noted(BookAfter(obs, ids, k - 1), obs[k - 1], ids)
  }

  function LastSeen(obs: Recording, k: nat): Views
    requires k <= |obs|
  {
    if k == 0 then map[] else obs[k - 1]
  }

  ghost predicate LeadsBefore(obs: Recording, k: nat, t: nat, i: NodeId, j: nat) { j < k && Leads(obs, j, i, t) }

  ghost predicate LedBefore(obs: Recording, k: nat, t: nat, i: NodeId) { exists j: nat :: LeadsBefore(obs, k, t, i, j) }

  ghost predicate LeadersTold(obs: Recording, k: nat, leaders: map<nat, NodeId>) {
    && (forall j: nat, i, t | LeadsBefore(obs, k, t, i, j) :: t in leaders)
    && forall t | t in leaders :: LedBefore(obs, k, t, leaders[t])
  }

  ghost predicate Witnesses(obs: Recording, k: nat, x: nat, w: Witnessed, j: nat, i: NodeId) {
    && j < k && FirstShown(obs, j, i, x)
    && obs[j][i].base < x <= obs[j][i].base + |obs[j][i].log| && w == Witnessed(obs[j][i].log[x - obs[j][i].base - 1], obs[j][i].term)
  }

  ghost predicate WitnessedBefore(obs: Recording, k: nat, x: nat, w: Witnessed) { exists j: nat, i :: Witnesses(obs, k, x, w, j, i) }

  ghost predicate CommitsTold(obs: Recording, k: nat, committed: map<nat, Witnessed>) {
    && (forall j: nat, i, x: nat | j < k && Shows(obs, j, i, x) :: x in committed)
    && forall x | x in committed :: WitnessedBefore(obs, k, x, committed[x])
  }

  ghost predicate TopTold(obs: Recording, k: nat, top: nat) {
    && (forall j: nat, i | j < k && Seen(obs, j, i) :: obs[j][i].commit <= top)
    && (top == 0 || exists j: nat, i :: j < k && Seen(obs, j, i) && obs[j][i].commit == top)
  }

  ghost predicate LastTold(obs: Recording, k: nat, b: Book)
    requires k <= |obs|
  {
    if k == 0 then b.prevCommit == map[] && b.incarnation == map[]
    else forall i | Seen(obs, k - 1, i) ::
           && i in b.incarnation && b.incarnation[i] == obs[k - 1][i].incarnation
           && i in b.prevCommit && b.prevCommit[i] == obs[k - 1][i].commit
  }

  /** i was seen at j, and has lived on to the observation before k. */
  ghost predicate LivedOn(obs: Recording, i: NodeId, j: nat, k: nat) {
    j < k && Seen(obs, j, i) && SameLife(obs, i, j, k - 1)
  }

  ghost predicate ProgressTold(obs: Recording, k: nat, i: NodeId, seen: nat) {
    && (forall j: nat | LivedOn(obs, i, j, k) :: Progress(obs[j][i]) <= seen)
    && (seen == 0 || exists j: nat :: LivedOn(obs, i, j, k) && Progress(obs[j][i]) == seen)
  }

  ghost predicate AppliedBefore(obs: Recording, k: nat, x: nat, cmd: Command, j: nat, i: NodeId) {
    j < k && Applies(obs, j, i, x) && cmd == obs[j][i].applied[x - obs[j][i].base - 1]
  }

  ghost predicate AppliedTold(obs: Recording, k: nat, appliedAt: map<nat, Command>) {
    && (forall j: nat, i, x: nat | j < k && Applies(obs, j, i, x) :: x in appliedAt)
    && forall x | x in appliedAt :: exists j: nat, i :: AppliedBefore(obs, k, x, appliedAt[x], j, i)
  }

  ghost predicate Told(obs: Recording, ids: seq<NodeId>, k: nat, b: Book)
    requires k <= |obs|
  {
    && LeadersTold(obs, k, b.leaders) && CommitsTold(obs, k, b.committed) && TopTold(obs, k, b.maxCommit) && LastTold(obs, k, b)
    && (forall i | i in ids :: ProgressTold(obs, k, i, Recall(b.appliedSeen, i)))
    && AppliedTold(obs, k, b.appliedAt)
  }

  // ---- the book tells the recording ----

  lemma NewIsShown(obs: Recording, ids: seq<NodeId>, k: nat, b: Book, i: NodeId, x: nat)
    requires Recorded(obs, ids) && Seen(obs, k, i) && LastTold(obs, k, b)
    ensures NewIn(b, obs[k], i, x) <==> Shows(obs, k, i, x)
    ensures PrevCommit(b, obs[k][i]) <= obs[k][i].commit <==> (SameLifeAsBefore(obs, k, i) ==> obs[k - 1][i].commit <= obs[k][i].commit)
  {
    assert Listed(ids, obs[k]);
    if k > 0 { assert Listed(ids, obs[k - 1]); assert i in ids; assert Seen(obs, k - 1, i); }
  }

  lemma LifeGoesOn(obs: Recording, i: NodeId, k: nat)
    requires SameLifeAsBefore(obs, k, i)
    ensures forall j: nat | j < k :: SameLife(obs, i, j, k) <==> SameLife(obs, i, j, k - 1)
  {}

  lemma NewIsApplied(obs: Recording, ids: seq<NodeId>, k: nat, b: Book, i: NodeId, x: nat)
    requires Recorded(obs, ids) && Seen(obs, k, i) && LastTold(obs, k, b) && ProgressTold(obs, k, i, Recall(b.appliedSeen, i))
    ensures ApplyIn(b, obs[k], i, x) <==> Applies(obs, k, i, x)
  {
    hide SameLife;
    SeenBefore(obs, ids, k, i);
    if SameLifeAsBefore(obs, k, i) {
      LifeGoesOn(obs, i, k);
      forall j: nat | j < k && SameLife(obs, i, j, k) && Seen(obs, j, i) ensures LivedOn(obs, i, j, k) {}
    }
  }

  lemma SeenBefore(obs: Recording, ids: seq<NodeId>, k: nat, i: NodeId)
    requires Recorded(obs, ids) && Seen(obs, k, i)
    ensures i in ids && obs[k][i].id == i && obs[k][i].commit <= Top(obs[k][i])
    ensures forall j: nat | j < |obs| :: Seen(obs, j, i)
  {
    assert Listed(ids, obs[k]);
    forall j: nat | j < |obs| ensures Seen(obs, j, i) { assert Listed(ids, obs[j]); }
  }

  lemma LeadersNow(obs: Recording, ids: seq<NodeId>, k: nat, leaders: map<nat, NodeId>)
    requires Recorded(obs, ids) && k < |obs|
    ensures forall i | i in ids :: i in obs[k]
    ensures var all := Leaders(leaders, obs[k], ids);
            && (forall i, t | Leads(obs, k, i, t) :: t in all)
            && (forall t | t in leaders :: t in all && all[t] == leaders[t])
            && (forall t | t in all && t !in leaders :: Leads(obs, k, all[t], t))
  {
    hide Leaders;
    assert Listed(ids, obs[k]);
    LeadersFrom(leaders, obs[k], ids);
    var all := Leaders(leaders, obs[k], ids);
    forall t | t in all && t !in leaders ensures Leads(obs, k, all[t], t) { var i :| LeaderIn(obs[k], ids, i, t, all[t]); }
  }

  lemma LeadersStep(obs: Recording, ids: seq<NodeId>, k: nat, leaders: map<nat, NodeId>)
    requires Recorded(obs, ids) && k < |obs| && LeadersTold(obs, k, leaders)
    ensures (forall i | i in ids :: i in obs[k]) && LeadersTold(obs, k + 1, Leaders(leaders, obs[k], ids))
  {
    hide Leaders, Recorded, Leads;
    LeadersNow(obs, ids, k, leaders);
    var all, next := Leaders(leaders, obs[k], ids), k + 1;
    forall j: nat, i, t | LeadsBefore(obs, next, t, i, j) ensures t in all {
      if j < k { assert LeadsBefore(obs, k, t, i, j); }
    }
    forall t | t in all ensures LedBefore(obs, next, t, all[t]) {
      if t in leaders {
        assert LedBefore(obs, k, t, leaders[t]);
        var j: nat :| LeadsBefore(obs, k, t, leaders[t], j);
        assert LeadsBefore(obs, next, t, all[t], j);
      } else {
        assert LeadsBefore(obs, next, t, all[t], k);
      }
    }
  }

  ghost predicate ShownFirstBy(b: Book, nodes: Views, ids: seq<NodeId>, x: nat, w: Witnessed, i: NodeId) {
    ShownBy(b, nodes, ids, x, w, i) && forall l | l in ids && l in nodes && l < i :: !NewIn(b, nodes, l, x)
  }

  lemma FirstInFront(b: Book, nodes: Views, front: seq<NodeId>, last: NodeId, x: nat, w: Witnessed, i: NodeId)
    requires ShownFirstBy(b, nodes, front, x, w, i) && forall l | l in front :: l < last
    ensures ShownFirstBy(b, nodes, front + [last], x, w, i)
  {
    hide NewIn;
  }

  /** Of those who show an index newly committed the one with the least id is written down. */
  lemma {:induction false} CommittedFirst(b: Book, nodes: Views, ids: seq<NodeId>, x: nat)
    requires (forall i | i in ids :: i in nodes && nodes[i].commit <= Top(nodes[i])) && forall p, q | 0 <= p < q < |ids| :: ids[p] < ids[q]
    requires x in Committed(b, nodes, ids) && x !in b.committed
    ensures exists i :: ShownFirstBy(b, nodes, ids, x, Committed(b, nodes, ids)[x], i)
  {
    hide PrevCommit, EntryAt, ShownFirstBy;
    if ids != [] {
      var front, i := ids[..|ids| - 1], ids[|ids| - 1];
      assert ids == front + [i];
      var before, v := Committed(b, nodes, front), nodes[i];
      CommitUpFrom(before, v, Largest(PrevCommit(b, v), v.base), v.commit);
      assert forall l | l in front :: l < i;
      if x in before {
        CommittedFirst(b, nodes, front, x);
        var j :| ShownFirstBy(b, nodes, front, x, before[x], j);
        FirstInFront(b, nodes, front, i, x, before[x], j);
      } else {
        FirstAtLast(b, nodes, front, i, x);
      }
    }
  }

  lemma FirstAtLast(b: Book, nodes: Views, front: seq<NodeId>, i: NodeId, x: nat)
    requires (forall l | l in front :: l in nodes && nodes[l].commit <= Top(nodes[l])) && i in nodes && nodes[i].commit <= Top(nodes[i])
    requires x !in Committed(b, nodes, front) && NewIn(b, nodes, i, x)
    ensures Live(nodes[i], x) && ShownFirstBy(b, nodes, front + [i], x, Witnessed(EntryAt(nodes[i], x), nodes[i].term), i)
  {
    hide Committed;
    CommittedFrom(b, nodes, front);
  }

  lemma CommitsNow(obs: Recording, ids: seq<NodeId>, k: nat, b: Book)
    requires Recorded(obs, ids) && k < |obs| && CommitsTold(obs, k, b.committed) && LastTold(obs, k, b)
    ensures forall i | i in ids :: i in obs[k] && obs[k][i].commit <= Top(obs[k][i])
    ensures var all, next := Committed(b, obs[k], ids), k + 1;
            && (forall i, x: nat | Shows(obs, k, i, x) :: x in all)
            && (forall x | x in b.committed :: x in all && all[x] == b.committed[x])
            && (forall x | x in all && x !in b.committed :: WitnessedBefore(obs, next, x, all[x]))
  {
    hide Committed, Shows, NewIn, LastTold, CommitsTold, Recorded;
    ListedAt(obs, ids, k);
    CommittedFrom(b, obs[k], ids);
    var all, next := Committed(b, obs[k], ids), k + 1;
    forall i, x: nat | Shows(obs, k, i, x) ensures x in all {
      ShowsSeen(obs, k, i, x);
      NewIsShown(obs, ids, k, b, i, x);
    }
    forall x | x in all && x !in b.committed ensures WitnessedBefore(obs, next, x, all[x]) {
      CommittedFirst(b, obs[k], ids, x);
      var i :| ShownFirstBy(b, obs[k], ids, x, all[x], i);
      NewWitness(obs, ids, k, b, x, all[x], i);
      assert Witnesses(obs, next, x, all[x], k, i);
    }
  }

  lemma ListedAt(obs: Recording, ids: seq<NodeId>, k: nat)
    requires Recorded(obs, ids) && k < |obs|
    ensures Listed(ids, obs[k]) && forall i :: i in ids <==> i in obs[k]
  {
    AllListed(ids, obs[k]);
  }

  lemma CommitsStep(obs: Recording, ids: seq<NodeId>, k: nat, b: Book)
    requires Recorded(obs, ids) && k < |obs| && CommitsTold(obs, k, b.committed) && LastTold(obs, k, b)
    ensures (forall i | i in ids :: i in obs[k] && obs[k][i].commit <= Top(obs[k][i])) && CommitsTold(obs, k + 1, Committed(b, obs[k], ids))
  {
    hide Committed, Shows, LastTold, Recorded;
    CommitsNow(obs, ids, k, b);
    var all, next := Committed(b, obs[k], ids), k + 1;
    forall x | x in all ensures WitnessedBefore(obs, next, x, all[x]) {
      if x in b.committed {
        assert WitnessedBefore(obs, k, x, b.committed[x]);
        var j: nat, i :| Witnesses(obs, k, x, b.committed[x], j, i);
        assert Witnesses(obs, next, x, all[x], j, i);
      }
    }
  }

  lemma ShowsSeen(obs: Recording, k: nat, i: NodeId, x: nat)
    requires Shows(obs, k, i, x)
    ensures Seen(obs, k, i)
  {}

  lemma NewWitness(obs: Recording, ids: seq<NodeId>, k: nat, b: Book, x: nat, w: Witnessed, i: NodeId)
    requires Recorded(obs, ids) && k < |obs| && CommitsTold(obs, k, b.committed) && LastTold(obs, k, b) && x !in b.committed
    requires ShownFirstBy(b, obs[k], ids, x, w, i)
    ensures Witnesses(obs, k + 1, x, w, k, i)
  {
    hide Shows, NewIn, LastTold;
    NewIsShown(obs, ids, k, b, i, x);
    forall j: nat, l | Earlier(j, l, k, i) ensures !Shows(obs, j, l, x) {
      if Shows(obs, j, l, x) && j == k {
        ShowsSeen(obs, k, l, x);
        SeenBefore(obs, ids, k, l);
        NewIsShown(obs, ids, k, b, l, x);
      }
    }
  }

  lemma TopStep(obs: Recording, ids: seq<NodeId>, k: nat, b: Book)
    requires Recorded(obs, ids) && k < |obs| && TopTold(obs, k, b.maxCommit)
    ensures (forall i | i in ids :: i in obs[k]) && TopTold(obs, k + 1, MaxCommit(b, obs[k], ids))
  {
    hide MaxCommit;
    AllListed(ids, obs[k]);
    var top := MaxCommit(b, obs[k], ids);
    MaxCommitFrom(b, obs[k], ids, top + 1);
    MaxCommitFrom(b, obs[k], ids, top);
    forall j: nat, i | j < k + 1 && Seen(obs, j, i) ensures obs[j][i].commit <= top {}
    if top == b.maxCommit {
    } else {
      var i :| i in ids && obs[k][i].commit == top;
      assert Seen(obs, k, i);
    }
  }

  lemma LastStep(obs: Recording, ids: seq<NodeId>, k: nat, b: Book)
    requires Recorded(obs, ids) && k < |obs|
    ensures LastTold(obs, k + 1, b.(prevCommit := b.prevCommit + CommitsOf(obs[k]), incarnation := b.incarnation + IncarnationsOf(obs[k])))
  {}

  lemma ProgressStep(obs: Recording, ids: seq<NodeId>, k: nat, b: Book, i: NodeId)
    requires Recorded(obs, ids) && k < |obs| && i in ids && LastTold(obs, k, b) && ProgressTold(obs, k, i, Recall(b.appliedSeen, i))
    ensures ProgressTold(obs, k + 1, i, Recall(b.appliedSeen + ProgressOf(b, obs[k]), i))
  {
    hide SameLife, SameLifeAsBefore, ProgressOf, LastTold, Progress;
    SeenBefore(obs, ids, k, i);
    NextProgress(obs, ids, k, b, i);
    LifeNow(obs, i, k);
    var next := k + 1;
    assert LivedOn(obs, i, k, next);
    if SameLifeAsBefore(obs, k, i) {
      LifeGoesOn(obs, i, k);
      forall j: nat | j < k ensures LivedOn(obs, i, j, next) <==> LivedOn(obs, i, j, k) {}
    } else {
      forall j: nat | LivedOn(obs, i, j, next) ensures j == k { if j < k { LifeNeeds(obs, i, j, k); } }
    }
  }

  lemma NextProgress(obs: Recording, ids: seq<NodeId>, k: nat, b: Book, i: NodeId)
    requires Recorded(obs, ids) && Seen(obs, k, i) && LastTold(obs, k, b) && ProgressTold(obs, k, i, Recall(b.appliedSeen, i))
    ensures var before := if SameLifeAsBefore(obs, k, i) then Recall(b.appliedSeen, i) else 0;
            Recall(b.appliedSeen + ProgressOf(b, obs[k]), i) == Largest(before, Progress(obs[k][i]))
  {
    SeenBefore(obs, ids, k, i);
  }

  lemma LifeNow(obs: Recording, i: NodeId, k: nat)
    ensures SameLife(obs, i, k, k)
  {}

  lemma LifeNeeds(obs: Recording, i: NodeId, j: nat, k: nat)
    requires j < k && SameLife(obs, i, j, k)
    ensures SameLifeAsBefore(obs, k, i)
  {}

  lemma AppliedStep(obs: Recording, ids: seq<NodeId>, k: nat, b: Book)
    requires Recorded(obs, ids) && k < |obs| && AppliedTold(obs, k, b.appliedAt) && LastTold(obs, k, b)
    requires forall i | i in ids :: ProgressTold(obs, k, i, Recall(b.appliedSeen, i))
    ensures (forall i | i in ids :: i in obs[k]) && AppliedTold(obs, k + 1, AppliedAt(b, obs[k], ids))
  {
    hide AppliedAt, Applies, ApplyIn, LastTold, ProgressTold;
    AllListed(ids, obs[k]);
    AppliedFrom(b, obs[k], ids);
    var all, next := AppliedAt(b, obs[k], ids), k + 1;
    forall j: nat, i, x: nat | j < k + 1 && Applies(obs, j, i, x) ensures x in all {
      if j == k { AppliesSeen(obs, k, i, x); NewIsApplied(obs, ids, k, b, i, x); }
    }
    forall x | x in all ensures exists j: nat, i :: AppliedBefore(obs, next, x, all[x], j, i) {
      if x in b.appliedAt {
        var j: nat, i :| AppliedBefore(obs, k, x, b.appliedAt[x], j, i);
        assert AppliedBefore(obs, next, x, all[x], j, i);
      } else {
        var i :| AppliedBy(b, obs[k], ids, x, all[x], i);
        NewIsApplied(obs, ids, k, b, i, x);
        assert AppliedBefore(obs, next, x, all[x], k, i);
      }
    }
  }

  lemma AppliesSeen(obs: Recording, k: nat, i: NodeId, x: nat)
    requires Applies(obs, k, i, x)
    ensures Seen(obs, k, i)
  {}

  lemma {:induction false} BookTells(obs: Recording, ids: seq<NodeId>, k: nat)
    requires Recorded(obs, ids) && k <= |obs|
    ensures Told(obs, ids, k, BookAfter(obs, ids, k))
    decreases k
  {
    hide LeadersTold, CommitsTold, TopTold, LastTold, ProgressTold, AppliedTold, Leaders, Committed, MaxCommit, AppliedAt, ProgressOf, CommitsOf, IncarnationsOf, Listed;
    if k == 0 {
      BlankTells(obs, ids);
    } else {
      BookTells(obs, ids, k - 1);
      var b := BookAfter(obs, ids, k - 1);
      LeadersStep(obs, ids, k - 1, b.leaders);
      CommitsStep(obs, ids, k - 1, b);
      TopStep(obs, ids, k - 1, b);
      LastStep(obs, ids, k - 1, b);
      LastOnly(obs, k, b.(prevCommit := b.prevCommit + CommitsOf(obs[k - 1]), incarnation := b.incarnation + IncarnationsOf(obs[k - 1])), BookAfter(obs, ids, k));
      forall i | i in ids ensures ProgressTold(obs, k, i, Recall(b.appliedSeen + ProgressOf(b, obs[k - 1]), i)) { ProgressStep(obs, ids, k - 1, b, i); }
      AppliedStep(obs, ids, k - 1, b);
    }
  }

  lemma LastOnly(obs: Recording, k: nat, b: Book, c: Book)
    requires k <= |obs| && LastTold(obs, k, b) && c.prevCommit == b.prevCommit && c.incarnation == b.incarnation
    ensures LastTold(obs, k, c)
  {}

  lemma BlankTells(obs: Recording, ids: seq<NodeId>)
    ensures Told(obs, ids, 0, BLANK)
  {}

  // ---- each check, told by the recording ----

  lemma OneLeaderTold(obs: Recording, ids: seq<NodeId>, k: nat, leaders: map<nat, NodeId>)
    requires Recorded(obs, ids) && k < |obs| && LeadersTold(obs, k, leaders) && forall j: nat | j < k :: OneLeader(obs, j)
    ensures OneLeaderPerTerm(leaders, obs[k]) <==> OneLeader(obs, k)
  {
    hide Recorded, OneLeader;
    ListedAt(obs, ids, k);
    if OneLeaderPerTerm(leaders, obs[k]) {
      forall j: nat, i, l, t | j <= k && Leads(obs, j, i, t) && Leads(obs, k, l, t) ensures i == l {
        if j < k {
          assert LeadsBefore(obs, k, t, i, j);
          LeaderKnown(obs, k, leaders, t, i, j);
        }
      }
      assert OneLeader(obs, k) by { OneLeaderIf(obs, k); }
    }
    if OneLeader(obs, k) {
      forall i | i in obs[k] && obs[k][i].leader && obs[k][i].term in leaders ensures leaders[obs[k][i].term] == obs[k][i].id {
        var t := obs[k][i].term;
        assert LedBefore(obs, k, t, leaders[t]);
        var j: nat :| LeadsBefore(obs, k, t, leaders[t], j);
        OneLeaderGives(obs, k, j, leaders[t], i, t);
      }
      forall i, j | i in obs[k] && j in obs[k] && obs[k][i].leader && obs[k][j].leader && obs[k][i].term == obs[k][j].term
        ensures obs[k][i].id == obs[k][j].id
      {
        OneLeaderGives(obs, k, k, i, j, obs[k][i].term);
      }
    }
  }

  lemma OneLeaderIf(obs: Recording, k: nat)
    requires forall j: nat, i, l, t | j <= k && Leads(obs, j, i, t) && Leads(obs, k, l, t) :: i == l
    ensures OneLeader(obs, k)
  {}

  lemma OneLeaderGives(obs: Recording, k: nat, j: nat, i: NodeId, l: NodeId, t: nat)
    requires OneLeader(obs, k) && j <= k && Leads(obs, j, i, t) && Leads(obs, k, l, t)
    ensures i == l
  {}

  lemma LeaderKnown(obs: Recording, k: nat, leaders: map<nat, NodeId>, t: nat, i: NodeId, j: nat)
    requires LeadersTold(obs, k, leaders) && LeadsBefore(obs, k, t, i, j) && forall m: nat | m < k :: OneLeader(obs, m)
    ensures t in leaders && leaders[t] == i
  {
    hide OneLeader;
    assert LedBefore(obs, k, t, leaders[t]);
    var m: nat :| LeadsBefore(obs, k, t, leaders[t], m);
    if m <= j { OneLeaderGives(obs, j, m, leaders[t], i, t); } else { OneLeaderGives(obs, m, j, i, leaders[t], t); }
  }

  lemma KeptIsExtended(before: NodeView, now: NodeView)
    ensures KeptBy(before, now) <==> Extends(before.base, before.log, now)
  {
    if Extends(before.base, before.log, now) {
      forall x: nat | BothHave(before, now, x) ensures SameEntry(before, now, x) { assert before.log[x - before.base - 1] == EntryAt(now, x); }
    }
    if KeptBy(before, now) {
      forall x: nat | Largest(before.base, now.base) < x <= before.base + |before.log| ensures before.log[x - before.base - 1] == EntryAt(now, x) {
        assert BothHave(before, now, x) && SameEntry(before, now, x);
      }
    }
  }

  lemma KeepsLogTold(obs: Recording, ids: seq<NodeId>, k: nat)
    requires Recorded(obs, ids) && k < |obs|
    ensures AppendOnly(LastSeen(obs, k), obs[k]) <==> LeadersKeepLogs(obs, k)
  {
    hide KeptBy, Extends, Recorded;
    ListedAt(obs, ids, k);
    if k > 0 {
      ListedAt(obs, ids, k - 1);
      forall i | i in obs[k] ensures i in obs[k - 1] && (KeptBy(obs[k - 1][i], obs[k][i]) <==> Extends(obs[k - 1][i].base, obs[k - 1][i].log, obs[k][i])) {
        KeptIsExtended(obs[k - 1][i], obs[k][i]);
      }
      if AppendOnly(LastSeen(obs, k), obs[k]) {
        forall i, t | Leads(obs, k - 1, i, t) && Leads(obs, k, i, t) ensures KeptBy(obs[k - 1][i], obs[k][i]) { assert KeepsLog(LastSeen(obs, k), obs[k][i]); }
      }
      if LeadersKeepLogs(obs, k) {
        forall i | i in obs[k] ensures KeepsLog(LastSeen(obs, k), obs[k][i]) {
          var t := obs[k][i].term;
          assert Leads(obs, k - 1, i, t) && Leads(obs, k, i, t) ==> KeptBy(obs[k - 1][i], obs[k][i]);
        }
      }
    }
  }

  lemma MatchIsMatching(a: NodeView, b: NodeView)
    ensures MatchBelow(a, b) <==> Matching(a, b)
  {
    if Matching(a, b) {
      forall x: nat, y: nat | x <= y && BothHave(a, b, x) && BothHave(a, b, y) && SameTerm(a, b, y) ensures SameEntry(a, b, x) {
        assert Shared(a, b, y) && Shared(a, b, x);
        assert EntryAt(a, x) == EntryAt(b, x);
      }
    }
    if MatchBelow(a, b) {
      forall y: nat, x: nat | Shared(a, b, y) && Shared(a, b, x) && x <= y && EntryAt(a, y).term == EntryAt(b, y).term ensures EntryAt(a, x) == EntryAt(b, x) {
        assert BothHave(a, b, x) && BothHave(a, b, y) && SameTerm(a, b, y);
      }
    }
  }

  lemma MatchIsSymmetric(a: NodeView, b: NodeView)
    requires MatchBelow(a, b)
    ensures MatchBelow(b, a)
  {
    forall x: nat, y: nat | x <= y && BothHave(b, a, x) && BothHave(b, a, y) && SameTerm(b, a, y) ensures SameEntry(b, a, x) {
      assert BothHave(a, b, x) && BothHave(a, b, y) && SameTerm(a, b, y);
    }
  }

  lemma MatchingTold(obs: Recording, k: nat)
    requires k < |obs|
    ensures AllMatching(obs[k]) <==> LogsMatchAt(obs, k)
  {
    hide MatchBelow, Matching;
    forall i, l | i in obs[k] && l in obs[k] ensures MatchBelow(obs[k][i], obs[k][l]) <==> Matching(obs[k][i], obs[k][l]) {
      MatchIsMatching(obs[k][i], obs[k][l]);
    }
    if AllMatching(obs[k]) {
      forall i, l | Seen(obs, k, i) && Seen(obs, k, l) ensures MatchBelow(obs[k][i], obs[k][l]) {
        if l < i { MatchIsSymmetric(obs[k][l], obs[k][i]); } else if i == l { MatchesItself(obs[k][i]); }
      }
    }
    if LogsMatchAt(obs, k) {
      forall i, l | i in obs[k] && l in obs[k] && i < l ensures Matching(obs[k][i], obs[k][l]) { assert Seen(obs, k, i) && Seen(obs, k, l); }
    }
  }

  lemma MatchesItself(a: NodeView)
    ensures MatchBelow(a, a)
  {}

  lemma MonotoneTold(obs: Recording, ids: seq<NodeId>, k: nat, b: Book)
    requires Recorded(obs, ids) && k < |obs| && LastTold(obs, k, b)
    ensures Monotone(b, obs[k]) <==> NoneRegress(obs, k)
  {
    hide Recorded, LastTold, PrevCommit;
    forall i | i in obs[k] ensures PrevCommit(b, obs[k][i]) <= obs[k][i].commit <==> (SameLifeAsBefore(obs, k, i) ==> obs[k - 1][i].commit <= obs[k][i].commit) {
      NewIsShown(obs, ids, k, b, i, 0);
    }
  }

  lemma ShowsLive(obs: Recording, ids: seq<NodeId>, k: nat, i: NodeId, x: nat)
    requires Recorded(obs, ids) && Shows(obs, k, i, x)
    ensures Seen(obs, k, i) && Live(obs[k][i], x)
  {
    assert Listed(ids, obs[k]);
  }

  lemma HasItToo(a: NodeView, b: NodeView, x: nat)
    requires Live(a, x)
    ensures HasToo(a, b, x) <==> Holds(b, x, EntryAt(a, x))
  {}

  lemma WitnessIsKnown(obs: Recording, ids: seq<NodeId>, k: nat, committed: map<nat, Witnessed>, j: nat, i: NodeId, x: nat)
    requires Recorded(obs, ids) && CommitsTold(obs, k, committed) && j < k && FirstShown(obs, j, i, x)
    ensures Seen(obs, j, i) && Live(obs[j][i], x) && x in committed && committed[x] == Witnessed(EntryAt(obs[j][i], x), obs[j][i].term)
  {
    hide Shows;
    ShowsLive(obs, ids, j, i, x);
    assert WitnessedBefore(obs, k, x, committed[x]);
    var m: nat, l :| Witnesses(obs, k, x, committed[x], m, l);
    assert !Earlier(m, l, j, i) && !Earlier(j, i, m, l);
  }

  lemma ShownIsKnown(obs: Recording, ids: seq<NodeId>, k: nat, committed: map<nat, Witnessed>, j: nat, i: NodeId, x: nat)
    requires Recorded(obs, ids) && CommitsTold(obs, k, committed) && j < k && Shows(obs, j, i, x) && ShownAgree(obs, j)
    ensures Seen(obs, j, i) && Live(obs[j][i], x) && x in committed && committed[x].entry == EntryAt(obs[j][i], x)
  {
    hide Shows;
    ShowsLive(obs, ids, j, i, x);
    assert WitnessedBefore(obs, k, x, committed[x]);
    var m: nat, l :| Witnesses(obs, k, x, committed[x], m, l);
    assert !Earlier(j, i, m, l);
    ShowsLive(obs, ids, m, l, x);
    assert HasToo(obs[m][l], obs[j][i], x);
  }

  lemma CommitsAgreeTold(obs: Recording, ids: seq<NodeId>, k: nat, b: Book)
    requires Recorded(obs, ids) && k < |obs| && CommitsTold(obs, k, b.committed) && LastTold(obs, k, b) && forall j: nat | j < k :: ShownAgree(obs, j)
    ensures (forall i | i in obs[k] :: obs[k][i].commit <= Top(obs[k][i])) && (CommitsAgree(b, obs[k]) <==> ShownAgree(obs, k))
  {
    hide Recorded, LastTold, CommitsTold, Shows, NewIn, HasToo, Holds, EntryAt, ShownAgree, Live;
    ListedAt(obs, ids, k);
    assert forall i | i in obs[k] :: obs[k][i].commit <= Top(obs[k][i]);
    if CommitsAgree(b, obs[k]) { AgreeGives(obs, ids, k, b); }
    if ShownAgree(obs, k) { AgreeFrom(obs, ids, k, b); }
  }

  lemma AgreeGives(obs: Recording, ids: seq<NodeId>, k: nat, b: Book)
    requires Recorded(obs, ids) && k < |obs| && CommitsTold(obs, k, b.committed) && LastTold(obs, k, b) && forall j: nat | j < k :: ShownAgree(obs, j)
    requires (forall i | i in obs[k] :: obs[k][i].commit <= Top(obs[k][i])) && CommitsAgree(b, obs[k])
    ensures ShownAgree(obs, k)
  {
    hide Recorded, LastTold, CommitsTold, Shows, NewIn, HasToo;
    forall j: nat, i, l, x: nat | j <= k && Shows(obs, j, i, x) && Shows(obs, k, l, x) ensures Seen(obs, j, i) && Seen(obs, k, l) && HasToo(obs[j][i], obs[k][l], x) {
      ShowsLive(obs, ids, j, i, x);
      ShowsLive(obs, ids, k, l, x);
      NewIsShown(obs, ids, k, b, l, x);
      HasItToo(obs[j][i], obs[k][l], x);
      if j < k { ShownIsKnown(obs, ids, k, b.committed, j, i, x); } else { NewIsShown(obs, ids, k, b, i, x); }
    }
  }

  lemma AgreeFrom(obs: Recording, ids: seq<NodeId>, k: nat, b: Book)
    requires Recorded(obs, ids) && k < |obs| && CommitsTold(obs, k, b.committed) && LastTold(obs, k, b) && ShownAgree(obs, k)
    requires forall i | i in obs[k] :: obs[k][i].commit <= Top(obs[k][i])
    ensures CommitsAgree(b, obs[k])
  {
    hide Recorded, LastTold, Shows, NewIn, HasToo;
    forall i, x: nat | i in obs[k] && NewIn(b, obs[k], i, x) && x in b.committed
      ensures Live(obs[k][i], x) && b.committed[x].entry == EntryAt(obs[k][i], x)
    {
      NewIsShown(obs, ids, k, b, i, x);
      ShowsLive(obs, ids, k, i, x);
      assert WitnessedBefore(obs, k, x, b.committed[x]);
      var j: nat, l :| Witnesses(obs, k, x, b.committed[x], j, l);
      ShowsLive(obs, ids, j, l, x);
      HasItToo(obs[j][l], obs[k][i], x);
    }
    forall i, j, x: nat | i in obs[k] && j in obs[k] && NewIn(b, obs[k], i, x) && NewIn(b, obs[k], j, x)
      ensures Live(obs[k][i], x) && Live(obs[k][j], x) && EntryAt(obs[k][i], x) == EntryAt(obs[k][j], x)
    {
      NewIsShown(obs, ids, k, b, i, x);
      NewIsShown(obs, ids, k, b, j, x);
      ShowsLive(obs, ids, k, i, x);
      ShowsLive(obs, ids, k, j, x);
      HasItToo(obs[k][i], obs[k][j], x);
    }
  }

  lemma BackedIsHeld(obs: Recording, k: nat, i: NodeId, x: nat)
    requires Seen(obs, k, i) && Live(obs[k][i], x)
    ensures Backed(obs, k, i, x) <==> HeldByMajority(obs[k], obs[k][i], x, EntryAt(obs[k][i], x))
  {
    hide HasToo, Holds, EntryAt;
    var v := obs[k][i];
    forall w | Seen(obs, k, w) ensures HasToo(v, obs[k][w], x) <==> Holds(obs[k][w], x, EntryAt(v, x)) { HasItToo(v, obs[k][w], x); }
    assert (set w | w in v.voters && Seen(obs, k, w) && HasToo(v, obs[k][w], x)) == Holders(obs[k], v.voters, x, EntryAt(v, x));
  }

  lemma FirstIsFirst(obs: Recording, ids: seq<NodeId>, k: nat, b: Book, i: NodeId, x: nat)
    requires Recorded(obs, ids) && Seen(obs, k, i) && TopTold(obs, k, b.maxCommit) && LastTold(obs, k, b)
    ensures FirstToCommit(b, obs[k], i, x) <==> Shows(obs, k, i, x) && NoneSoFar(obs, k, i, x)
  {
    hide Recorded, LastTold, NewIn, Shows;
    NewIsShown(obs, ids, k, b, i, x);
    if Shows(obs, k, i, x) { ShowsLive(obs, ids, k, i, x); }
    if FirstToCommit(b, obs[k], i, x) {
      forall j: nat, l | Earlier(j, l, k, i) && Seen(obs, j, l) ensures obs[j][l].commit < x {}
    }
    if Shows(obs, k, i, x) && NoneSoFar(obs, k, i, x) {
      forall l | l in obs[k] && l < i ensures obs[k][l].commit < x { assert Earlier(k, l, k, i) && Seen(obs, k, l); }
      if b.maxCommit > 0 {
        var j: nat, l :| j < k && Seen(obs, j, l) && obs[j][l].commit == b.maxCommit;
        assert Earlier(j, l, k, i);
      }
    }
  }

  lemma QuorumsTold(obs: Recording, ids: seq<NodeId>, k: nat, b: Book)
    requires Recorded(obs, ids) && k < |obs| && TopTold(obs, k, b.maxCommit) && LastTold(obs, k, b)
    ensures (forall i | i in obs[k] :: obs[k][i].commit <= Top(obs[k][i])) && (Quorums(b, obs[k]) <==> FirstCommitsBacked(obs, k))
  {
    hide Recorded, LastTold, TopTold, NewIn, Shows, HeldByMajority, Backed, FirstToCommit, NoneSoFar;
    ListedAt(obs, ids, k);
    forall i, x: nat | i in obs[k] ensures FirstToCommit(b, obs[k], i, x) <==> Shows(obs, k, i, x) && NoneSoFar(obs, k, i, x) { FirstIsFirst(obs, ids, k, b, i, x); }
    if Quorums(b, obs[k]) {
      forall i, x: nat | Shows(obs, k, i, x) && NoneSoFar(obs, k, i, x) ensures Seen(obs, k, i) && Backed(obs, k, i, x) {
        ShowsLive(obs, ids, k, i, x);
        BackedIsHeld(obs, k, i, x);
        assert FirstToCommit(b, obs[k], i, x);
      }
    }
    if FirstCommitsBacked(obs, k) {
      forall i, x: nat | i in obs[k] && FirstToCommit(b, obs[k], i, x)
        ensures Live(obs[k][i], x) && HeldByMajority(obs[k], obs[k][i], x, EntryAt(obs[k][i], x))
      {
        ShowsLive(obs, ids, k, i, x);
        BackedIsHeld(obs, k, i, x);
      }
    }
  }

  lemma CompleteTold(obs: Recording, ids: seq<NodeId>, k: nat, committed: map<nat, Witnessed>)
    requires Recorded(obs, ids) && k < |obs| && CommitsTold(obs, k + 1, committed)
    ensures LeadersComplete(committed, obs[k]) <==> LeadersHaveCommits(obs, k)
  {
    hide Recorded, FirstShown, CommitsTold, HasToo, Holds;
    if LeadersComplete(committed, obs[k]) {
      forall j: nat, l, x: nat | FirstShown(obs, j, l, x) ensures Seen(obs, j, l) { FirstIsSeen(obs, j, l, x); }
      forall i, t, j: nat, l, x: nat | Leads(obs, k, i, t) && j <= k && FirstShown(obs, j, l, x) && obs[j][l].term <= t
        ensures HasToo(obs[j][l], obs[k][i], x)
      {
        WitnessIsKnown(obs, ids, k + 1, committed, j, l, x);
        HasItToo(obs[j][l], obs[k][i], x);
      }
    }
    if LeadersHaveCommits(obs, k) {
      forall i | i in obs[k] && obs[k][i].leader ensures HasAll(obs[k][i].term, obs[k][i], committed) {
        forall x | x in committed && committed[x].term <= obs[k][i].term ensures Holds(obs[k][i], x, committed[x].entry) {
          WitnessOf(obs, ids, k + 1, committed, x);
          var j: nat, l :| Witnesses(obs, k + 1, x, committed[x], j, l);
          FirstIsSeen(obs, j, l, x);
          HasItToo(obs[j][l], obs[k][i], x);
          assert Leads(obs, k, i, obs[k][i].term);
        }
      }
    }
  }

  lemma FirstIsSeen(obs: Recording, j: nat, i: NodeId, x: nat)
    requires FirstShown(obs, j, i, x)
    ensures Seen(obs, j, i)
  {}

  lemma WitnessOf(obs: Recording, ids: seq<NodeId>, k: nat, committed: map<nat, Witnessed>, x: nat)
    requires Recorded(obs, ids) && CommitsTold(obs, k, committed) && x in committed
    ensures exists j: nat, l :: Witnesses(obs, k, x, committed[x], j, l)
  {
    assert WitnessedBefore(obs, k, x, committed[x]);
  }

  lemma AppliedTells(obs: Recording, ids: seq<NodeId>, k: nat, b: Book)
    requires Recorded(obs, ids) && k < |obs| && AppliedTold(obs, k, b.appliedAt) && LastTold(obs, k, b) && forall j: nat | j < k :: AppliedAgree(obs, j)
    requires forall i | i in ids :: ProgressTold(obs, k, i, Recall(b.appliedSeen, i))
    ensures AppliesAgree(b, obs[k]) <==> AppliedAgree(obs, k)
  {
    hide Recorded, LastTold, Applies, ApplyIn, ProgressTold, AppliedTold, AppliedAgree;
    ListedAt(obs, ids, k);
    forall i, x: nat | i in obs[k] ensures ApplyIn(b, obs[k], i, x) <==> Applies(obs, k, i, x) { NewIsApplied(obs, ids, k, b, i, x); }
    if AppliesAgree(b, obs[k]) { AppliedGives(obs, k, b); }
    if AppliedAgree(obs, k) { AppliedFromBook(obs, k, b); }
  }

  lemma AppliedGives(obs: Recording, k: nat, b: Book)
    requires k < |obs| && AppliedTold(obs, k, b.appliedAt) && (forall j: nat | j < k :: AppliedAgree(obs, j)) && AppliesAgree(b, obs[k])
    requires forall i, x: nat | i in obs[k] :: ApplyIn(b, obs[k], i, x) <==> Applies(obs, k, i, x)
    ensures AppliedAgree(obs, k)
  {
    hide ApplyIn, AppliedAgree, Applies, AppliedTold, AppliesAgree;
    forall j: nat, i, l, x: nat | j <= k && Applies(obs, j, i, x) && Applies(obs, k, l, x)
      ensures SameApplied(obs, j, i, k, l, x)
    {
      AppliedPair(obs, k, b, j, i, l, x);
    }
    AppliedAgreeIf(obs, k);
  }

  lemma AppliedPair(obs: Recording, k: nat, b: Book, j: nat, i: NodeId, l: NodeId, x: nat)
    requires k < |obs| && AppliedTold(obs, k, b.appliedAt) && (forall m: nat | m < k :: AppliedAgree(obs, m)) && AppliesAgree(b, obs[k])
    requires forall i, x: nat | i in obs[k] :: ApplyIn(b, obs[k], i, x) <==> Applies(obs, k, i, x)
    requires j <= k && Applies(obs, j, i, x) && Applies(obs, k, l, x)
    ensures SameApplied(obs, j, i, k, l, x)
  {
    hide AppliedAgree, AppliedTold, SameLife;
    assert ApplyIn(b, obs[k], l, x);
    if j < k { AppliedIsKnown(obs, k, b.appliedAt, j, i, x); } else { assert ApplyIn(b, obs[k], i, x); }
  }

  lemma AppliedAgreeIf(obs: Recording, k: nat)
    requires forall j: nat, i, l, x: nat | j <= k && Applies(obs, j, i, x) && Applies(obs, k, l, x) :: SameApplied(obs, j, i, k, l, x)
    ensures AppliedAgree(obs, k)
  {
    hide Applies, SameApplied;
  }

  lemma AppliedAgreeGives(obs: Recording, k: nat, j: nat, i: NodeId, l: NodeId, x: nat)
    requires AppliedAgree(obs, k) && j <= k && Applies(obs, j, i, x) && Applies(obs, k, l, x)
    ensures SameApplied(obs, j, i, k, l, x)
  {
    hide Applies, SameApplied;
  }

  lemma AppliedIsKnown(obs: Recording, k: nat, appliedAt: map<nat, Command>, j: nat, i: NodeId, x: nat)
    requires AppliedTold(obs, k, appliedAt) && j < k && Applies(obs, j, i, x) && forall m: nat | m < k :: AppliedAgree(obs, m)
    ensures x in appliedAt && appliedAt[x] == obs[j][i].applied[x - obs[j][i].base - 1]
  {
    hide AppliedAgree;
    var m: nat, l :| AppliedBefore(obs, k, x, appliedAt[x], m, l);
    if m <= j { AppliedAgreeGives(obs, j, m, l, i, x); } else { AppliedAgreeGives(obs, m, j, i, l, x); }
  }

  lemma AppliedFromBook(obs: Recording, k: nat, b: Book)
    requires k < |obs| && AppliedTold(obs, k, b.appliedAt) && AppliedAgree(obs, k)
    requires forall i, x: nat | i in obs[k] :: ApplyIn(b, obs[k], i, x) <==> Applies(obs, k, i, x)
    ensures AppliesAgree(b, obs[k])
  {
    hide AppliedAgree, Applies;
    forall i, x: nat | i in obs[k] && ApplyIn(b, obs[k], i, x) && x in b.appliedAt ensures b.appliedAt[x] == AppliedCommand(obs[k][i], x) {
      var j: nat, l :| AppliedBefore(obs, k, x, b.appliedAt[x], j, l);
      AppliedAgreeGives(obs, k, j, l, i, x);
    }
    forall i, j, x: nat | i in obs[k] && j in obs[k] && ApplyIn(b, obs[k], i, x) && ApplyIn(b, obs[k], j, x)
      ensures AppliedCommand(obs[k][i], x) == AppliedCommand(obs[k][j], x)
    {
      AppliedAgreeGives(obs, k, k, i, j, x);
    }
  }

  // ---- the whole recording ----

  /** If every earlier observation was sound, the next passes exactly if it is. */
  lemma PassesExactly(obs: Recording, ids: seq<NodeId>, k: nat)
    requires Recorded(obs, ids) && k < |obs| && forall j: nat | j < k :: Sound(obs, j)
    ensures Listed(ids, obs[k]) && (Accepts(BookAfter(obs, ids, k), LastSeen(obs, k), obs[k], ids) <==> Sound(obs, k))
  {
    hide BookAfter, LastSeen, Recorded, OneLeader, LeadersKeepLogs, LogsMatchAt, NoneRegress, ShownAgree, FirstCommitsBacked, LeadersHaveCommits, AppliedAgree,
         LeadersTold, CommitsTold, TopTold, LastTold, ProgressTold, AppliedTold,
         OneLeaderPerTerm, AppendOnly, AllMatching, Monotone, CommitsAgree, Quorums, LeadersComplete, AppliesAgree, Committed;
    var b := BookAfter(obs, ids, k);
    ListedAt(obs, ids, k);
    BookTells(obs, ids, k);
    forall j: nat | j < k ensures OneLeader(obs, j) && ShownAgree(obs, j) && AppliedAgree(obs, j) { assert Sound(obs, j); }
    OneLeaderTold(obs, ids, k, b.leaders);
    KeepsLogTold(obs, ids, k);
    MatchingTold(obs, k);
    MonotoneTold(obs, ids, k, b);
    CommitsAgreeTold(obs, ids, k, b);
    QuorumsTold(obs, ids, k, b);
    CommitsStep(obs, ids, k, b);
    CompleteTold(obs, ids, k, Committed(b, obs[k], ids));
    AppliedTells(obs, ids, k, b);
  }

  /** What a server shows changes only with its version. */
  ghost predicate Versioned(obs: Recording) {
    forall k | 0 < k < |obs| :: VersionsTell(obs[k - 1], obs[k])
  }

  lemma NextSeen(obs: Recording, ids: seq<NodeId>, k: nat)
    requires Recorded(obs, ids) && Versioned(obs) && k < |obs|
    ensures VersionsTell(LastSeen(obs, k), obs[k]) && LastSeen(obs, k) + obs[k] == LastSeen(obs, k + 1)
    ensures BookAfter(obs, ids, k + 1) == Noted(BookAfter(obs, ids, k), obs[k], ids)
  {
    hide Noted, Listed, Recorded;
    ListedAt(obs, ids, k);
    if k > 0 { ListedAt(obs, ids, k - 1); }
  }

  /** The checker, with its caches and its book, passes a recording exactly if every observation in it is sound. */
  method Judge(obs: Recording, ids: seq<NodeId>) returns (passed: bool)
    requires Recorded(obs, ids) && Versioned(obs)
    ensures passed <==> forall k: nat | k < |obs| :: Sound(obs, k)
  {
    hide Recorded, Versioned, Sound, Listed, Accepts, Noted, VersionsTell, BookAfter, LastSeen,
         InvariantChecker.InvariantChecker.View, InvariantChecker.InvariantChecker.Valid;
    var checker := new InvariantChecker.InvariantChecker();
    StartSeen(obs, ids);
    var k := 0;
    while k < |obs|
      invariant k <= |obs| && fresh(checker) && checker.Valid()
      invariant checker.View() == BookAfter(obs, ids, k) && checker.last == LastSeen(obs, k)
      invariant forall j: nat | j < k :: Sound(obs, j)
    {
      PassesExactly(obs, ids, k);
      NextSeen(obs, ids, k);
      passed := checker.Check(obs[k], ids);
      if !passed {
        return;
      }
      k := k + 1;
    }
    passed := true;
  }

  lemma StartSeen(obs: Recording, ids: seq<NodeId>)
    requires Recorded(obs, ids)
    ensures BookAfter(obs, ids, 0) == BLANK && LastSeen(obs, 0) == map[]
  {}
}
