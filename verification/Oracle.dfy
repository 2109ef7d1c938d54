/** The linearizability oracle: an iterative depth-first search with an explicit stack and a memo of
    visited states (raftverified/linearizability.py, `check`). */
module Oracle {
  import opened Types
  import opened Kv
  import opened Linearizability
  import opened Lists
  import opened Sorting

  datatype Verdict =
    | Linearized(linearization: seq<HistoryEntry>, checked: nat)
    | Stuck(frontier: seq<HistoryEntry>, checked: nat)
    | Undetermined(checked: nat)

  /** One level of the search: the state reached by `path`, and which candidates are still untried. */
  datatype Frame = Frame(store: Store, pending: seq<nat>, cands: Option<seq<nat>>, next: nat, path: seq<nat>)

  /** What the memo remembers of a visited state. */
  datatype Key = Key(store: Store, pending: seq<nat>)

  // ---- states reached by placing operations one at a time ----

  function PendingAfter(n: nat, path: seq<nat>): (pending: seq<nat>)
    ensures forall x | 0 <= x < |pending| :: pending[x] < n
  {
    if path == [] then Positions(n)
    else
      var before := PendingAfter(n, path[..|path| - 1]);
      RestWithin(before, path[|path| - 1], n);
      Without(before, path[|path| - 1])
  }

  lemma RestWithin(pending: seq<nat>, p: nat, n: nat)
    requires forall x | 0 <= x < |pending| :: pending[x] < n
    ensures forall x | 0 <= x < |Without(pending, p)| :: Without(pending, p)[x] < n
  {
    forall x | 0 <= x < |Without(pending, p)| ensures Without(pending, p)[x] < n {
      assert Without(pending, p)[x] in pending;
    }
  }

  function StoreAfter(ops: seq<HistoryEntry>, path: seq<nat>): Store {
    if path == [] then map[]
    else if path[|path| - 1] < |ops| then After(StoreAfter(ops, path[..|path| - 1]), ops[path[|path| - 1]])
    else map[]
  }

  /** Every step of the path placed a minimal operation that answered as observed. */
  predicate LegalPath(ops: seq<HistoryEntry>, path: seq<nat>) {
    path == [] ||
    var before, p := path[..|path| - 1], path[|path| - 1];
    && LegalPath(ops, before)
    && MayBeNext(ops, PendingAfter(|ops|, before), p)
    && Answers(StoreAfter(ops, before), ops[p])
  }

  lemma PathStep(ops: seq<HistoryEntry>, path: seq<nat>)
    requires path != [] && LegalPath(ops, path)
    ensures var before, p := path[..|path| - 1], path[|path| - 1];
            && path == before + [p] && LegalPath(ops, before) && p < |ops|
            && MayBeNext(ops, PendingAfter(|ops|, before), p) && p in PendingAfter(|ops|, before)
            && Answers(StoreAfter(ops, before), ops[p])
            && PendingAfter(|ops|, path) == Without(PendingAfter(|ops|, before), p)
            && StoreAfter(ops, path) == After(StoreAfter(ops, before), ops[p])
  {
    hide Without, Answers, After;
  }

  lemma {:induction false} PathFacts(ops: seq<HistoryEntry>, path: seq<nat>)
    requires LegalPath(ops, path)
    ensures Within(ops, path) && Distinct(PendingAfter(|ops|, path))
    ensures |PendingAfter(|ops|, path)| + |path| == |ops|
  {
    hide Without, Answers, After, MayBeNext, StoreAfter, LegalPath, Pick;
    if path != [] {
      var before, p := path[..|path| - 1], path[|path| - 1];
      PathStep(ops, path);
      PathFacts(ops, before);
      WithoutDistinct(PendingAfter(|ops|, before), p);
    }
  }

  /** What is placed and what is pending make up all the operations. */
  lemma {:induction false} PathSplits(ops: seq<HistoryEntry>, path: seq<nat>)
    requires LegalPath(ops, path)
    ensures Within(ops, path)
    ensures multiset(Pick(ops, path)) + multiset(Pick(ops, PendingAfter(|ops|, path))) == multiset(ops)
  {
    hide Without, Answers, After, MayBeNext, StoreAfter, LegalPath, Pick, PendingAfter;
    PathFacts(ops, path);
    if path == [] {
      PickAll(ops);
      NothingPlaced(ops);
    } else {
      var before, p := path[..|path| - 1], path[|path| - 1];
      PathStep(ops, path);
      PathFacts(ops, before);
      PathSplits(ops, before);
      PickWithout(ops, PendingAfter(|ops|, before), p);
      PickSnoc(ops, before, p);
    }
  }

  lemma NothingPlaced(ops: seq<HistoryEntry>)
    ensures Pick(ops, []) == [] && PendingAfter(|ops|, []) == Positions(|ops|) && StoreAfter(ops, []) == map[]
  {}

  lemma PickSnoc(ops: seq<HistoryEntry>, before: seq<nat>, p: nat)
    requires Within(ops, before) && p < |ops|
    ensures Within(ops, before + [p]) && Pick(ops, before + [p]) == Pick(ops, before) + [ops[p]]
  {
    hide Pick;
  }

  /** What is placed was allowed before everything still pending. */
  lemma {:induction false} PlacedBeforePending(ops: seq<HistoryEntry>, path: seq<nat>, a: nat, q: nat)
    requires LegalPath(ops, path) && a < |path| && q in PendingAfter(|ops|, path)
    ensures path[a] < |ops| && q < |ops| && ops[path[a]].invoked <= ops[q].Return()
  {
    hide Answers, After, StoreAfter, LegalPath, PendingAfter, Without;
    var before, p := path[..|path| - 1], path[|path| - 1];
    PathStep(ops, path);
    StillPending(PendingAfter(|ops|, before), p, q);
    if a < |before| { PlacedBeforePending(ops, before, a, q); }
  }

  lemma StillPending(pending: seq<nat>, p: nat, q: nat)
    requires q in Without(pending, p)
    ensures q in pending && q != p
  {
    hide Without;
  }

  lemma {:induction false} PathInRealTime(ops: seq<HistoryEntry>, path: seq<nat>)
    requires LegalPath(ops, path)
    ensures Within(ops, path) && InRealTime(Pick(ops, path))
  {
    hide Answers, After, StoreAfter, LegalPath, PendingAfter, Without, MayBeNext, Pick;
    PathFacts(ops, path);
    if path != [] {
      var before, p := path[..|path| - 1], path[|path| - 1];
      PathStep(ops, path);
      PathFacts(ops, before);
      PathInRealTime(ops, before);
      PickSnoc(ops, before, p);
      forall a | 0 <= a < |before| ensures Pick(ops, before)[a].invoked <= ops[p].Return() {
        PlacedBeforePending(ops, before, a, p);
      }
      RealTimeSnoc(Pick(ops, before), ops[p]);
    }
  }

  lemma RealTimeSnoc(lin: seq<HistoryEntry>, e: HistoryEntry)
    requires InRealTime(lin) && forall a | 0 <= a < |lin| :: lin[a].invoked <= e.Return()
    ensures InRealTime(lin + [e])
  {
    var whole := lin + [e];
    forall a, b | 0 <= a < b < |whole| ensures !(whole[b].Return() < whole[a].invoked) {
      assert whole[a] == lin[a];
      if b < |lin| { assert whole[b] == lin[b]; }
    }
  }

  function StoreFrom(store: Store, lin: seq<HistoryEntry>): Store {
    if lin == [] then store else After(StoreFrom(store, lin[..|lin| - 1]), lin[|lin| - 1])
  }

  lemma {:induction false} LegalSnoc(store: Store, lin: seq<HistoryEntry>, e: HistoryEntry)
    requires Legal(store, lin) && Answers(StoreFrom(store, lin), e)
    ensures Legal(store, lin + [e])
    ensures StoreFrom(store, lin + [e]) == After(StoreFrom(store, lin), e)
    decreases |lin|
  {
    assert (lin + [e])[..|lin|] == lin;
    if lin == [] {
      assert [e][1..] == [];
    } else {
      TailOfSnoc(lin, e);
      StoreFromTail(store, lin);
      LegalSnoc(After(store, lin[0]), lin[1..], e);
    }
  }

  lemma TailOfSnoc(lin: seq<HistoryEntry>, e: HistoryEntry)
    requires lin != []
    ensures (lin + [e])[0] == lin[0] && (lin + [e])[1..] == lin[1..] + [e]
  {}

  lemma {:induction false} StoreFromTail(store: Store, lin: seq<HistoryEntry>)
    requires lin != []
    ensures StoreFrom(store, lin) == StoreFrom(After(store, lin[0]), lin[1..])
    decreases |lin|
  {
    if |lin| > 1 {
      var front := lin[..|lin| - 1];
      StoreFromTail(store, front);
      assert front[1..] == lin[1..][..|lin[1..]| - 1];
    }
  }

  lemma {:induction false} PathLegal(ops: seq<HistoryEntry>, path: seq<nat>)
    requires LegalPath(ops, path)
    ensures Within(ops, path) && Legal(map[], Pick(ops, path))
    ensures StoreFrom(map[], Pick(ops, path)) == StoreAfter(ops, path)
  {
    hide Answers, After, StoreAfter, LegalPath, PendingAfter, Without, MayBeNext, Pick;
    PathFacts(ops, path);
    if path == [] {
      NothingPlaced(ops);
    } else {
      var before, p := path[..|path| - 1], path[|path| - 1];
      PathStep(ops, path);
      PathFacts(ops, before);
      PathLegal(ops, before);
      PickSnoc(ops, before, p);
      LegalSnoc(map[], Pick(ops, before), ops[p]);
    }
  }

  /** A path that places everything is a linearization. */
  lemma FullPathLinearizes(ops: seq<HistoryEntry>, path: seq<nat>)
    requires LegalPath(ops, path) && PendingAfter(|ops|, path) == []
    ensures Within(ops, path) && IsLinearization(ops, Pick(ops, path))
  {
    hide Answers, After, StoreAfter, LegalPath, PendingAfter, Without, MayBeNext, Legal, InRealTime;
    PathSplits(ops, path);
    PathInRealTime(ops, path);
    PathLegal(ops, path);
  }

  // ---- candidates ----

  /** `minimal`: the pending operations no other pending operation must precede, found with the two
      smallest return times. */
  method Minimal(ops: seq<HistoryEntry>, pending: seq<nat>) returns (out: seq<nat>)
    requires Within(ops, pending) && Distinct(pending) && pending != []
    ensures |out| <= |pending| && forall p :: p in out <==> MayBeNext(ops, pending, p)
  {
    if |pending| == 1 {
      return [pending[0]];
    }
    var first, second := FirstTwo(ops, pending);
    out := [];
    for x := 0 to |pending|
      invariant |out| <= x
      invariant forall p :: p in out <==> p in pending[..x] && MayBeNext(ops, pending, p)
    {
      var p := pending[x];
      var other := if p == first then ops[second].Return() else ops[first].Return();
      assert ops[p].invoked <= other <==> MayBeNext(ops, pending, p) by { EarliestOther(ops, pending, first, second, p); }
      if ops[p].invoked <= other {
        out := out + [p];
      }
      assert pending[..x + 1] == pending[..x] + [p];
    }
    assert pending[..|pending|] == pending;
  }

  /** `first` returns first among the pending operations, `second` among the others. */
  predicate EarliestTwo(ops: seq<HistoryEntry>, pending: seq<nat>, first: nat, second: nat)
    requires Within(ops, pending)
  {
    && first in pending && second in pending && first != second && first < |ops| && second < |ops|
    && (forall x | 0 <= x < |pending| :: ops[first].Return() <= ops[pending[x]].Return())
    && (forall x | 0 <= x < |pending| && pending[x] != first :: ops[second].Return() <= ops[pending[x]].Return())
  }

  lemma EarliestOther(ops: seq<HistoryEntry>, pending: seq<nat>, first: nat, second: nat, p: nat)
    requires Within(ops, pending) && EarliestTwo(ops, pending, first, second) && p in pending
    ensures p < |ops|
    ensures ops[p].invoked <= (if p == first then ops[second].Return() else ops[first].Return()) <==> MayBeNext(ops, pending, p)
  {
    var a :| 0 <= a < |pending| && pending[a] == first;
    var b :| 0 <= b < |pending| && pending[b] == second;
    var c :| 0 <= c < |pending| && pending[c] == p;
  }

  method FirstTwo(ops: seq<HistoryEntry>, pending: seq<nat>) returns (first: nat, second: nat)
    requires Within(ops, pending) && Distinct(pending) && |pending| >= 2
    ensures EarliestTwo(ops, pending, first, second)
  {
    var min1: Option<nat>, min2: Option<nat> := None, None;
    for x := 0 to |pending|
      invariant min1.Some? <==> x >= 1
      invariant min2.Some? <==> x >= 2
      invariant min1.Some? ==> min1.value in pending[..x] && min1.value < |ops|
      invariant min2.Some? ==> min2.value in pending[..x] && min2.value < |ops| && min2.value != min1.value
      invariant forall y | 0 <= y < x :: ops[min1.value].Return() <= ops[pending[y]].Return()
      invariant forall y | 0 <= y < x && pending[y] != min1.value :: min2.Some? && ops[min2.value].Return() <= ops[pending[y]].Return()
    {
      var p := pending[x];
      assert p !in pending[..x];
      if min1.None? || ops[p].Return() < ops[min1.value].Return() {
        min1, min2 := Some(p), min1;
      } else if min2.None? || ops[p].Return() < ops[min2.value].Return() {
        min2 := Some(p);
      }
    }
    first, second := min1.value, min2.value;
  }

  // ---- what the search maintains ----

  predicate Candidates(ops: seq<HistoryEntry>, pending: seq<nat>, cands: seq<nat>)
    requires Within(ops, pending)
  {
    && |cands| <= |pending|
    && (forall c | 0 <= c < |cands| :: MayBeNext(ops, pending, cands[c]))
    && (forall x | 0 <= x < |pending| && MayBeNext(ops, pending, pending[x]) :: pending[x] in cands)
  }

  predicate FrameOK(ops: seq<HistoryEntry>, f: Frame, depth: nat) {
    && LegalPath(ops, f.path) && |f.path| == depth
    && f.store == StoreAfter(ops, f.path) && f.pending == PendingAfter(|ops|, f.path)
    && Within(ops, f.pending) && Distinct(f.pending) && |f.pending| + depth == |ops|
    && (f.cands.None? ==> f.next == 0)
    && (f.cands.Some? ==> Candidates(ops, f.pending, f.cands.value) && f.next <= |f.cands.value|)
  }

  /** The first k candidates lead nowhere. */
  ghost predicate DeadUpTo(ops: seq<HistoryEntry>, f: Frame, k: nat) {
    k > 0 ==> Within(ops, f.pending) && f.cands.Some? && k <= |f.cands.value|
              && forall c | 0 <= c < k :: !SolvableBy(ops, f.store, f.pending, f.cands.value[c])
  }

  /** `child` explores the candidate f tried last. */
  ghost predicate ChildOf(ops: seq<HistoryEntry>, f: Frame, child: Frame) {
    && f.cands.Some? && 0 < f.next <= |f.cands.value| && DeadUpTo(ops, f, f.next - 1)
    && child.path == f.path + [f.cands.value[f.next - 1]]
  }

  ghost predicate StackOK(ops: seq<HistoryEntry>, stack: seq<Frame>) {
    && (forall d | 0 <= d < |stack| :: FrameOK(ops, stack[d], d))
    && (forall d | 0 < d < |stack| :: ChildOf(ops, stack[d - 1], stack[d]))
    && (stack != [] ==> DeadUpTo(ops, Top(stack), Top(stack).next))
  }

  function Top(stack: seq<Frame>): Frame
    requires stack != []
  {
    stack[|stack| - 1]
  }

  function Popped(stack: seq<Frame>): seq<Frame>
    requires stack != []
  {
    stack[..|stack| - 1]
  }

  ghost predicate Reached(ops: seq<HistoryEntry>, key: Key) {
    exists path :: ReachedBy(ops, key, path)
  }

  predicate ReachedBy(ops: seq<HistoryEntry>, key: Key, path: seq<nat>) {
    LegalPath(ops, path) && key == Key(StoreAfter(ops, path), PendingAfter(|ops|, path))
  }

  ghost predicate Dead(ops: seq<HistoryEntry>, key: Key) {
    Within(ops, key.pending) && !Solvable(ops, key.store, key.pending)
  }

  /** A visited state is a dead end, or still being explored. */
  ghost predicate Visited(ops: seq<HistoryEntry>, stack: seq<Frame>, key: Key) {
    Reached(ops, key) && (Dead(ops, key) || exists d | 0 < d < |stack| :: KeyOf(stack[d]) == key)
  }

  function KeyOf(f: Frame): Key { Key(f.store, f.pending) }

  ghost predicate SearchOK(ops: seq<HistoryEntry>, stack: seq<Frame>, memo: set<Key>) {
    && StackOK(ops, stack)
    && (forall key | key in memo :: Visited(ops, stack, key))
    && (stack == [] ==> Dead(ops, Key(map[], Positions(|ops|))))
  }

  // ---- the search's steps ----

  /** The memo only cuts off dead ends: a smaller state cannot be one still on the stack. */
  lemma MemoIsDead(ops: seq<HistoryEntry>, stack: seq<Frame>, memo: set<Key>, key: Key)
    requires SearchOK(ops, stack, memo) && stack != [] && key in memo && |key.pending| < |Top(stack).pending|
    ensures Dead(ops, key)
  {
    hide LegalPath, StoreAfter, PendingAfter, Solvable, ChildOf, DeadUpTo, Candidates, Reached;
    assert Visited(ops, stack, key);
    assert FrameOK(ops, Top(stack), |stack| - 1);
  }

  lemma RetopKeepsVisited(ops: seq<HistoryEntry>, stack: seq<Frame>, top: Frame, key: Key)
    requires stack != [] && Visited(ops, stack, key) && KeyOf(top) == KeyOf(Top(stack))
    ensures Visited(ops, Popped(stack) + [top], key)
  {
    hide Reached, Dead;
    if !Dead(ops, key) {
      var d :| 0 < d < |stack| && KeyOf(stack[d]) == key;
      assert KeyOf((Popped(stack) + [top])[d]) == key;
    }
  }

  /** Replacing the top frame by one with the same state and path. */
  lemma Retop(ops: seq<HistoryEntry>, stack: seq<Frame>, memo: set<Key>, top: Frame)
    requires SearchOK(ops, stack, memo) && stack != []
    requires KeyOf(top) == KeyOf(Top(stack)) && top.path == Top(stack).path
    requires FrameOK(ops, top, |stack| - 1) && DeadUpTo(ops, top, top.next)
    ensures SearchOK(ops, Popped(stack) + [top], memo)
  {
    hide Visited, FrameOK, DeadUpTo, Dead;
    forall key | key in memo ensures Visited(ops, Popped(stack) + [top], key) {
      RetopKeepsVisited(ops, stack, top, key);
    }
    var stack' := Popped(stack) + [top];
    forall d | 0 <= d < |stack'| ensures FrameOK(ops, stack'[d], d) {
      if d < |stack| - 1 { assert FrameOK(ops, stack[d], d); }
    }
    forall d | 0 < d < |stack'| ensures ChildOf(ops, stack'[d - 1], stack'[d]) {
      assert ChildOf(ops, stack[d - 1], stack[d]);
    }
  }

  /** Another candidate of the top frame has been tried without success. */
  lemma TryNext(ops: seq<HistoryEntry>, stack: seq<Frame>, memo: set<Key>)
    requires SearchOK(ops, stack, memo) && stack != [] && Top(stack).cands.Some? && Top(stack).next < |Top(stack).cands.value|
    requires FrameOK(ops, Top(stack), |stack| - 1)
    requires !SolvableBy(ops, Top(stack).store, Top(stack).pending, Top(stack).cands.value[Top(stack).next])
    ensures SearchOK(ops, Popped(stack) + [Top(stack).(next := Top(stack).next + 1)], memo)
  {
    hide SolvableBy, LegalPath, StoreAfter, PendingAfter, Candidates, Visited, Dead;
    var top := Top(stack);
    assert DeadUpTo(ops, top, top.next);
    var top' := top.(next := top.next + 1);
    assert DeadUpTo(ops, top', top'.next);
    Retop(ops, stack, memo, top');
  }

  /** The candidates of the top frame have just been computed. */
  lemma Fill(ops: seq<HistoryEntry>, stack: seq<Frame>, memo: set<Key>, cands: seq<nat>)
    requires SearchOK(ops, stack, memo) && stack != [] && Top(stack).cands.None? && Within(ops, Top(stack).pending)
    requires |cands| <= |Top(stack).pending| && forall p :: p in cands <==> MayBeNext(ops, Top(stack).pending, p)
    ensures SearchOK(ops, Popped(stack) + [Top(stack).(cands := Some(cands))], memo)
  {
    hide SolvableBy, LegalPath, StoreAfter, PendingAfter, Visited, Dead, MayBeNext;
    assert FrameOK(ops, Top(stack), |stack| - 1);
    var top' := Top(stack).(cands := Some(cands));
    assert forall c | 0 <= c < |cands| :: cands[c] in cands;
    assert Candidates(ops, top'.pending, cands);
    Retop(ops, stack, memo, top');
  }

  lemma CandidateDead(ops: seq<HistoryEntry>, f: Frame, depth: nat, p: nat)
    requires FrameOK(ops, f, depth) && f.cands.Some? && f.next == |f.cands.value| && DeadUpTo(ops, f, f.next)
    ensures !SolvableBy(ops, f.store, f.pending, p)
  {
    hide LegalPath, StoreAfter, PendingAfter, MayBeNext, Answers, After, Without, Solvable;
    if MayBeNext(ops, f.pending, p) {
      MayBeNextPending(ops, f.pending, p);
      var c :| 0 <= c < |f.cands.value| && f.cands.value[c] == p;
    }
  }

  /** A state all of whose candidates lead nowhere is a dead end. */
  lemma ExhaustedIsDead(ops: seq<HistoryEntry>, f: Frame, depth: nat)
    requires FrameOK(ops, f, depth) && f.pending != [] && f.cands.Some? && f.next == |f.cands.value| && DeadUpTo(ops, f, f.next)
    ensures Dead(ops, KeyOf(f))
  {
    hide LegalPath, StoreAfter, PendingAfter, DeadUpTo, MayBeNext, Answers, After, Without;
    if Solvable(ops, f.store, f.pending) {
      var p := SolvableNext(ops, f.store, f.pending);
      CandidateDead(ops, f, depth, p);
    }
  }

  lemma MayBeNextPending(ops: seq<HistoryEntry>, pending: seq<nat>, p: nat)
    requires Within(ops, pending) && MayBeNext(ops, pending, p)
    ensures exists x :: 0 <= x < |pending| && pending[x] == p
  {}

  /** The child of a frame is the state after its last tried candidate. */
  lemma ChildState(ops: seq<HistoryEntry>, f: Frame, child: Frame, depth: nat)
    requires FrameOK(ops, f, depth) && FrameOK(ops, child, depth + 1) && ChildOf(ops, f, child)
    ensures var p := f.cands.value[f.next - 1];
            p < |ops| && child.store == After(f.store, ops[p]) && child.pending == Without(f.pending, p)
  {
    hide LegalPath, StoreAfter, PendingAfter, MayBeNext, Answers, After, Without, Candidates;
    assert child.path[..|child.path| - 1] == f.path;
    PathStep(ops, child.path);
  }

  lemma DeadChild(ops: seq<HistoryEntry>, f: Frame, child: Frame, depth: nat)
    requires FrameOK(ops, f, depth) && FrameOK(ops, child, depth + 1) && ChildOf(ops, f, child) && Dead(ops, KeyOf(child))
    ensures DeadUpTo(ops, f, f.next)
  {
    hide LegalPath, StoreAfter, PendingAfter, MayBeNext, Answers, After, Without, Candidates, Solvable;
    ChildState(ops, f, child, depth);
  }

  /** Backtracking: the exhausted state is dead, and so is its parent's last candidate. */
  lemma Pop(ops: seq<HistoryEntry>, stack: seq<Frame>, memo: set<Key>)
    requires SearchOK(ops, stack, memo) && stack != [] && Top(stack).pending != []
    requires Top(stack).cands.Some? && Top(stack).next == |Top(stack).cands.value|
    ensures SearchOK(ops, Popped(stack), memo)
  {
    hide FrameOK, DeadUpTo, Dead, Reached, KeyOf, ChildOf;
    var top, rest, last := Top(stack), Popped(stack), |stack| - 1;
    assert FrameOK(ops, top, last) && DeadUpTo(ops, top, top.next);
    ExhaustedIsDead(ops, top, last);
    if rest == [] {
      RootKey(ops, top);
    } else {
      assert FrameOK(ops, rest[last - 1], last - 1) && ChildOf(ops, stack[last - 1], stack[last]);
      DeadChild(ops, rest[last - 1], top, last - 1);
    }
    forall key | key in memo ensures Visited(ops, rest, key) {
      assert Visited(ops, stack, key);
      PoppedVisited(ops, stack, key);
    }
    forall d | 0 < d < |rest| ensures ChildOf(ops, rest[d - 1], rest[d]) { assert ChildOf(ops, stack[d - 1], stack[d]); }
  }

  lemma PoppedVisited(ops: seq<HistoryEntry>, stack: seq<Frame>, key: Key)
    requires stack != [] && Visited(ops, stack, key) && Dead(ops, KeyOf(Top(stack)))
    ensures Visited(ops, Popped(stack), key)
  {
    hide Reached, Dead;
    if !Dead(ops, key) {
      var d :| 0 < d < |stack| && KeyOf(stack[d]) == key;
      assert KeyOf(Popped(stack)[d]) == key;
    }
  }

  lemma RootKey(ops: seq<HistoryEntry>, f: Frame)
    requires FrameOK(ops, f, 0)
    ensures KeyOf(f) == Key(map[], Positions(|ops|))
  {
    NothingPlaced(ops);
  }

  function Child(ops: seq<HistoryEntry>, f: Frame, p: nat): Frame
    requires p < |ops|
  {
    Frame(After(f.store, ops[p]), Without(f.pending, p), None, 0, f.path + [p])
  }

  /** The state after one more candidate that answered as observed. */
  lemma ChildOK(ops: seq<HistoryEntry>, f: Frame, depth: nat, p: nat)
    requires FrameOK(ops, f, depth) && MayBeNext(ops, f.pending, p) && Answers(f.store, ops[p])
    ensures FrameOK(ops, Child(ops, f, p), depth + 1)
    ensures |Child(ops, f, p).pending| < |f.pending|
  {
    hide MayBeNext, Answers, After, Without;
    var path := f.path + [p];
    assert path[..|path| - 1] == f.path;
    MayBeNextPending(ops, f.pending, p);
    assert LegalPath(ops, path);
    PathStep(ops, path);
    PathFacts(ops, path);
  }

  /** Descending into a candidate whose state has not been visited. */
  lemma Push(ops: seq<HistoryEntry>, stack: seq<Frame>, memo: set<Key>, p: nat)
    requires SearchOK(ops, stack, memo) && stack != [] && Top(stack).cands.Some? && Top(stack).next < |Top(stack).cands.value|
    requires p == Top(stack).cands.value[Top(stack).next] && p < |ops| && Answers(Top(stack).store, ops[p])
    ensures var child := Child(ops, Top(stack), p);
            SearchOK(ops, Popped(stack) + [Top(stack).(next := Top(stack).next + 1), child], memo + {KeyOf(child)})
  {
    hide LegalPath, StoreAfter, PendingAfter, MayBeNext, Answers, After, Without, Dead, Reached, SolvableBy;
    var top, last := Top(stack), |stack| - 1;
    var top', child := top.(next := top.next + 1), Child(ops, top, p);
    assert FrameOK(ops, top, last) && DeadUpTo(ops, top, top.next);
    ChildOK(ops, top, last, p);
    var stack' := Popped(stack) + [top', child];
    PushedStack(ops, stack, top', child);
    forall key | key in memo + {KeyOf(child)} ensures Visited(ops, stack', key) {
      PushedVisited(ops, stack, memo, top', child, key);
    }
  }

  lemma PushedStack(ops: seq<HistoryEntry>, stack: seq<Frame>, top': Frame, child: Frame)
    requires StackOK(ops, stack) && stack != []
    requires top' == Top(stack).(next := top'.next) && FrameOK(ops, top', |stack| - 1) && FrameOK(ops, child, |stack|)
    requires ChildOf(ops, top', child) && child.next == 0
    ensures StackOK(ops, Popped(stack) + [top', child])
  {
    hide FrameOK;
    var stack' := Popped(stack) + [top', child];
    forall d | 0 <= d < |stack'| ensures FrameOK(ops, stack'[d], d) {
      if d < |stack| - 1 { assert FrameOK(ops, stack[d], d); }
    }
    forall d | 0 < d < |stack'| ensures ChildOf(ops, stack'[d - 1], stack'[d]) {
      if d < |stack| { assert ChildOf(ops, stack[d - 1], stack[d]); }
    }
  }

  lemma PushedVisited(ops: seq<HistoryEntry>, stack: seq<Frame>, memo: set<Key>, top': Frame, child: Frame, key: Key)
    requires SearchOK(ops, stack, memo) && stack != [] && FrameOK(ops, child, |stack|)
    requires KeyOf(top') == KeyOf(Top(stack)) && key in memo + {KeyOf(child)}
    ensures Visited(ops, Popped(stack) + [top', child], key)
  {
    hide StackOK, Dead, LegalPath, StoreAfter, PendingAfter;
    var stack' := Popped(stack) + [top', child];
    if key == KeyOf(child) {
      assert ReachedBy(ops, key, child.path);
      assert KeyOf(stack'[|stack|]) == key;
    } else {
      assert Visited(ops, stack, key);
      if !Dead(ops, key) {
        var d :| 0 < d < |stack| && KeyOf(stack[d]) == key;
        assert KeyOf(stack'[d]) == key;
      }
    }
  }

  // ---- termination ----

  function Left(f: Frame): nat {
    match f.cands
    case None => |f.pending|
    case Some(cands) => if f.next <= |cands| then |cands| - f.next else 0
  }

  /** Candidates left on the stack, plus its height. */
  function Work(stack: seq<Frame>): nat {
    if stack == [] then 0 else Work(Popped(stack)) + Left(Top(stack)) + 1
  }

  function Room(explored: nat, budget: int): nat {
    if explored <= budget then budget - explored + 1 else 0
  }

  // ---- the search ----

  /** The positions from `from` on that are not among the placed ones. */
  function LeftFrom(n: nat, placed: seq<nat>, from: nat): (rest: seq<nat>)
    ensures forall x | 0 <= x < |rest| :: from <= rest[x] < n
    ensures forall p: nat :: p in rest <==> from <= p < n && p !in placed
    ensures Rising(rest)
    decreases n - from
  {
    if from >= n then []
    else
      var later := LeftFrom(n, placed, from + 1);
      if from in placed then later else [from] + later
  }

  predicate Rising(xs: seq<nat>) {
    forall a, b | 0 <= a < b < |xs| :: xs[a] < xs[b]
  }

  /** The first eight operations that the deepest attempt did not place. */
  function Frontier(ops: seq<HistoryEntry>, deepest: seq<nat>): seq<HistoryEntry> {
    var unplaced := Pick(ops, LeftFrom(|ops|, deepest, 0));
    if |unplaced| <= 8 then unplaced else unplaced[..8]
  }

  /** `rest` lists the positions that are not in `placed`, each once and in ascending order. */
  ghost predicate LeftOver(n: nat, placed: seq<nat>, rest: seq<nat>) {
    Rising(rest) && forall p: nat :: p in rest <==> p < n && p !in placed
  }

  /** The frontier shows the first operations that are not placed, in order, but no more than eight. */
  ghost predicate IsFrontier(ops: seq<HistoryEntry>, placed: seq<nat>, frontier: seq<HistoryEntry>) {
    exists rest :: ShowsFirst(ops, placed, frontier, rest)
  }

  ghost predicate ShowsFirst(ops: seq<HistoryEntry>, placed: seq<nat>, frontier: seq<HistoryEntry>, rest: seq<nat>) {
    && LeftOver(|ops|, placed, rest) && |frontier| == Least(8, |rest|)
    && forall x | 0 <= x < |frontier| :: rest[x] < |ops| && frontier[x] == ops[rest[x]]
  }

  lemma FrontierShowsFirst(ops: seq<HistoryEntry>, placed: seq<nat>)
    ensures IsFrontier(ops, placed, Frontier(ops, placed))
  {
    var rest := LeftFrom(|ops|, placed, 0);
    assert ShowsFirst(ops, placed, Frontier(ops, placed), rest);
  }

  /** What is not placed is what is pending. */
  lemma {:induction false} PendingIsLeftOver(ops: seq<HistoryEntry>, path: seq<nat>)
    requires LegalPath(ops, path)
    ensures LeftOver(|ops|, path, PendingAfter(|ops|, path))
  {
    hide LegalPath, MayBeNext, Answers, Without, StoreAfter;
    if path == [] {
      AllPositions(|ops|);
    } else {
      var before, p := path[..|path| - 1], path[|path| - 1];
      PathStep(ops, path);
      PendingIsLeftOver(ops, before);
      WithoutOne(PendingAfter(|ops|, before), p);
      assert path == before + [p];
    }
  }

  lemma AllPositions(n: nat)
    ensures Rising(Positions(n)) && forall p: nat :: p in Positions(n) <==> p < n
  {
    forall p: nat ensures p in Positions(n) <==> p < n {
      if p < n { assert Positions(n)[p] == p; }
    }
  }

  lemma {:induction false} WithoutOne(pending: seq<nat>, p: nat)
    requires Rising(pending)
    ensures Rising(Without(pending, p)) && forall q: nat :: q in Without(pending, p) <==> q in pending && q != p
  {
    if pending != [] {
      assert Rising(pending[1..]);
      WithoutOne(pending[1..], p);
      var rest := Without(pending[1..], p);
      forall y | 0 <= y < |rest| ensures pending[0] < rest[y] {
        assert rest[y] in pending[1..];
      }
    }
  }

  /** A search that got stuck has something to show. */
  lemma StuckShowsSomething(ops: seq<HistoryEntry>, path: seq<nat>)
    requires LegalPath(ops, path) && !Linearizable(ops)
    ensures Frontier(ops, path) != []
  {
    hide LegalPath, IsLinearization, PendingAfter, Pick;
    PendingIsLeftOver(ops, path);
    var pending := PendingAfter(|ops|, path);
    if pending == [] {
      FullPathLinearizes(ops, path);
    } else {
      assert pending[0] in pending;
      assert pending[0] in LeftFrom(|ops|, path, 0);
    }
  }

  function Root(ops: seq<HistoryEntry>): Frame { Frame(map[], Positions(|ops|), None, 0, []) }

  // ---- how far the search got ----

  /** p can be placed in this state, with the answer that was observed. */
  predicate LeadsOn(ops: seq<HistoryEntry>, key: Key, p: nat) {
    Within(ops, key.pending) && MayBeNext(ops, key.pending, p) && Answers(key.store, ops[p])
  }

  function NextKey(ops: seq<HistoryEntry>, key: Key, p: nat): Key
    requires p < |ops|
  {
    Key(After(key.store, ops[p]), Without(key.pending, p))
  }

  function StartKey(ops: seq<HistoryEntry>): Key { Key(map[], Positions(|ops|)) }

  /** What the first k candidates lead to has been visited. */
  ghost predicate Followed(ops: seq<HistoryEntry>, f: Frame, k: nat, memo: set<Key>) {
    k > 0 ==> f.cands.Some? && k <= |f.cands.value|
              && forall c | 0 <= c < k && LeadsOn(ops, KeyOf(f), f.cands.value[c]) :: NextKey(ops, KeyOf(f), f.cands.value[c]) in memo
  }

  ghost predicate Exhausted(ops: seq<HistoryEntry>, key: Key, memo: set<Key>) {
    forall p: nat | p < |ops| && LeadsOn(ops, key, p) :: NextKey(ops, key, p) in memo
  }

  predicate Open(stack: seq<Frame>, key: Key) {
    exists d :: 0 <= d < |stack| && KeyOf(stack[d]) == key
  }

  /** Every visited state is still open or everything it leads to has been visited. */
  ghost predicate Explored(ops: seq<HistoryEntry>, stack: seq<Frame>, memo: set<Key>) {
    && (forall d | 0 <= d < |stack| :: Followed(ops, stack[d], stack[d].next, memo))
    && forall key | key in memo + {StartKey(ops)} :: Open(stack, key) || Exhausted(ops, key, memo)
  }

  function Depth(ops: seq<HistoryEntry>, key: Key): int { |ops| - |key.pending| }

  /** No visited state is deeper than `deepest`, except for one that has just been entered. */
  predicate NoDeeper(ops: seq<HistoryEntry>, stack: seq<Frame>, memo: set<Key>, deepest: nat) {
    forall key | key in memo + {StartKey(ops)} ::
      Depth(ops, key) <= deepest || (stack != [] && KeyOf(Top(stack)) == key && Top(stack).cands.None?)
  }

  lemma StartExplored(ops: seq<HistoryEntry>)
    ensures Explored(ops, [Root(ops)], {}) && NoDeeper(ops, [Root(ops)], {}, 0)
  {
    assert KeyOf([Root(ops)][0]) == StartKey(ops);
  }

  lemma StillOpen(stack: seq<Frame>, stack': seq<Frame>, key: Key)
    requires Open(stack, key) && |stack| <= |stack'| && forall d | 0 <= d < |stack| :: KeyOf(stack'[d]) == KeyOf(stack[d])
    ensures Open(stack', key)
  {
    var d :| 0 <= d < |stack| && KeyOf(stack[d]) == key;
    assert KeyOf(stack'[d]) == key;
  }

  lemma MoreMemo(ops: seq<HistoryEntry>, f: Frame, key: Key, memo: set<Key>, memo': set<Key>)
    requires memo <= memo'
    ensures Followed(ops, f, f.next, memo) ==> Followed(ops, f, f.next, memo')
    ensures Exhausted(ops, key, memo) ==> Exhausted(ops, key, memo')
  {
    hide LeadsOn;
  }

  /** The top frame may get its candidates, or have one more of them followed. */
  lemma RetopExplored(ops: seq<HistoryEntry>, stack: seq<Frame>, memo: set<Key>, top: Frame)
    requires Explored(ops, stack, memo) && stack != [] && KeyOf(top) == KeyOf(Top(stack)) && Followed(ops, top, top.next, memo)
    ensures Explored(ops, Popped(stack) + [top], memo)
  {
    hide Followed, Exhausted, KeyOf;
    var stack' := Popped(stack) + [top];
    forall d | 0 <= d < |stack'| ensures Followed(ops, stack'[d], stack'[d].next, memo) {
      if d < |stack| - 1 { assert Followed(ops, stack[d], stack[d].next, memo); }
    }
    forall key | key in memo + {StartKey(ops)} ensures Open(stack', key) || Exhausted(ops, key, memo) {
      if Open(stack, key) { StillOpen(stack, stack', key); }
    }
  }

  lemma FollowNext(ops: seq<HistoryEntry>, f: Frame, memo: set<Key>)
    requires f.cands.Some? && f.next < |f.cands.value| && Followed(ops, f, f.next, memo)
    requires LeadsOn(ops, KeyOf(f), f.cands.value[f.next]) ==> NextKey(ops, KeyOf(f), f.cands.value[f.next]) in memo
    ensures Followed(ops, f.(next := f.next + 1), f.next + 1, memo)
  {
    hide LeadsOn;
    assert KeyOf(f.(next := f.next + 1)) == KeyOf(f);
  }

  lemma TryExplored(ops: seq<HistoryEntry>, stack: seq<Frame>, memo: set<Key>, deepest: nat)
    requires Explored(ops, stack, memo) && NoDeeper(ops, stack, memo, deepest)
    requires stack != [] && Top(stack).cands.Some? && Top(stack).next < |Top(stack).cands.value|
    requires var f := Top(stack); LeadsOn(ops, KeyOf(f), f.cands.value[f.next]) ==> NextKey(ops, KeyOf(f), f.cands.value[f.next]) in memo
    ensures var stack' := Popped(stack) + [Top(stack).(next := Top(stack).next + 1)];
            Explored(ops, stack', memo) && NoDeeper(ops, stack', memo, deepest)
  {
    hide LeadsOn, Followed, Exhausted;
    assert Followed(ops, stack[|stack| - 1], stack[|stack| - 1].next, memo);
    FollowNext(ops, Top(stack), memo);
    RetopExplored(ops, stack, memo, Top(stack).(next := Top(stack).next + 1));
  }

  lemma FillExplored(ops: seq<HistoryEntry>, stack: seq<Frame>, memo: set<Key>, deepest: nat, cands: seq<nat>, deepest': nat)
    requires Explored(ops, stack, memo) && NoDeeper(ops, stack, memo, deepest) && stack != [] && Top(stack).next == 0
    requires deepest' >= deepest && deepest' >= Depth(ops, KeyOf(Top(stack)))
    ensures var stack' := Popped(stack) + [Top(stack).(cands := Some(cands))];
            Explored(ops, stack', memo) && NoDeeper(ops, stack', memo, deepest')
  {
    hide LeadsOn, Exhausted;
    var top := Top(stack).(cands := Some(cands));
    assert KeyOf(top) == KeyOf(Top(stack));
    RetopExplored(ops, stack, memo, top);
  }

  lemma PushExplored(ops: seq<HistoryEntry>, stack: seq<Frame>, memo: set<Key>, deepest: nat, child: Frame)
    requires Explored(ops, stack, memo) && NoDeeper(ops, stack, memo, deepest)
    requires stack != [] && Top(stack).cands.Some? && Top(stack).next < |Top(stack).cands.value|
    requires var f := Top(stack); LeadsOn(ops, KeyOf(f), f.cands.value[f.next]) ==> KeyOf(child) == NextKey(ops, KeyOf(f), f.cands.value[f.next])
    requires child.cands.None? && child.next == 0
    ensures var stack' := Popped(stack) + [Top(stack).(next := Top(stack).next + 1), child];
            Explored(ops, stack', memo + {KeyOf(child)}) && NoDeeper(ops, stack', memo + {KeyOf(child)}, deepest)
  {
    hide LeadsOn, Followed, Exhausted, NextKey;
    var memo' := memo + {KeyOf(child)};
    var top := Top(stack).(next := Top(stack).next + 1);
    var stack' := Popped(stack) + [top, child];
    assert Followed(ops, stack[|stack| - 1], stack[|stack| - 1].next, memo);
    MoreMemo(ops, Top(stack), KeyOf(child), memo, memo');
    FollowNext(ops, Top(stack), memo');
    NothingFollowed(ops, child, memo');
    forall d | 0 <= d < |stack'| ensures Followed(ops, stack'[d], stack'[d].next, memo') {
      if d < |stack| - 1 {
        assert Followed(ops, stack[d], stack[d].next, memo);
        MoreMemo(ops, stack[d], KeyOf(child), memo, memo');
      }
    }
    forall key | key in memo' + {StartKey(ops)} ensures Open(stack', key) || Exhausted(ops, key, memo') {
      MoreMemo(ops, child, key, memo, memo');
      if key == KeyOf(child) {
        assert KeyOf(stack'[|stack|]) == key;
      } else if Open(stack, key) {
        StillOpen(stack, stack', key);
      }
    }
  }

  lemma NothingFollowed(ops: seq<HistoryEntry>, f: Frame, memo: set<Key>)
    requires f.next == 0
    ensures Followed(ops, f, f.next, memo)
  {}

  lemma AllFollowed(ops: seq<HistoryEntry>, f: Frame, depth: nat, memo: set<Key>)
    requires FrameOK(ops, f, depth) && f.cands.Some? && f.next == |f.cands.value| && Followed(ops, f, f.next, memo)
    ensures Exhausted(ops, KeyOf(f), memo)
  {
    hide LegalPath, StoreAfter, PendingAfter, NextKey, Answers;
    forall p: nat | p < |ops| && LeadsOn(ops, KeyOf(f), p) ensures NextKey(ops, KeyOf(f), p) in memo {
      MayBeNextPending(ops, f.pending, p);
      var c :| 0 <= c < |f.cands.value| && f.cands.value[c] == p;
    }
  }

  lemma PopExplored(ops: seq<HistoryEntry>, stack: seq<Frame>, memo: set<Key>, deepest: nat)
    requires Explored(ops, stack, memo) && NoDeeper(ops, stack, memo, deepest)
    requires stack != [] && FrameOK(ops, Top(stack), |stack| - 1) && Top(stack).cands.Some? && Top(stack).next == |Top(stack).cands.value|
    ensures Explored(ops, Popped(stack), memo) && NoDeeper(ops, Popped(stack), memo, deepest)
  {
    hide Followed, Exhausted, FrameOK;
    assert Followed(ops, stack[|stack| - 1], stack[|stack| - 1].next, memo);
    AllFollowed(ops, Top(stack), |stack| - 1, memo);
    var rest := Popped(stack);
    forall key | key in memo + {StartKey(ops)} ensures Open(rest, key) || Exhausted(ops, key, memo) {
      if Open(stack, key) && key != KeyOf(Top(stack)) {
        var d :| 0 <= d < |stack| && KeyOf(stack[d]) == key;
        assert KeyOf(rest[d]) == key;
      }
    }
    forall d | 0 <= d < |rest| ensures Followed(ops, rest[d], rest[d].next, memo) {
      assert Followed(ops, stack[d], stack[d].next, memo);
    }
  }

  /** When the search has ended, the state after every legal path has been visited. */
  lemma {:induction false} PathVisited(ops: seq<HistoryEntry>, memo: set<Key>, path: seq<nat>)
    requires Explored(ops, [], memo) && LegalPath(ops, path)
    ensures Key(StoreAfter(ops, path), PendingAfter(|ops|, path)) in memo + {StartKey(ops)}
  {
    hide LegalPath, MayBeNext, Answers, After, Without, StoreAfter, PendingAfter;
    if path == [] {
      NothingPlaced(ops);
    } else {
      var before, p := path[..|path| - 1], path[|path| - 1];
      PathStep(ops, path);
      PathFacts(ops, before);
      PathVisited(ops, memo, before);
      var key := Key(StoreAfter(ops, before), PendingAfter(|ops|, before));
      PathFacts(ops, before);
      assert Exhausted(ops, key, memo);
      WithinPending(ops, before);
      assert LeadsOn(ops, key, p);
    }
  }

  lemma WithinPending(ops: seq<HistoryEntry>, path: seq<nat>)
    requires LegalPath(ops, path)
    ensures Within(ops, PendingAfter(|ops|, path))
  {}

  /** So none is longer than the deepest one that was tried. */
  lemma NoLongerPath(ops: seq<HistoryEntry>, memo: set<Key>, deepest: nat, path: seq<nat>)
    requires Explored(ops, [], memo) && NoDeeper(ops, [], memo, deepest) && LegalPath(ops, path)
    ensures |path| <= deepest
  {
    hide LegalPath, Explored;
    PathVisited(ops, memo, path);
    PathFacts(ops, path);
  }

  // ---- the loop invariant and its steps ----

  ghost predicate Searching(ops: seq<HistoryEntry>, stack: seq<Frame>, memo: set<Key>, deepest: nat) {
    SearchOK(ops, stack, memo) && Explored(ops, stack, memo) && NoDeeper(ops, stack, memo, deepest)
  }

  lemma Started(ops: seq<HistoryEntry>)
    ensures Searching(ops, [Root(ops)], {}, 0) && LegalPath(ops, [])
  {
    hide Solvable, SolvableBy;
    PickAll(ops);
    NothingPlaced(ops);
    StartExplored(ops);
  }

  lemma TopOK(ops: seq<HistoryEntry>, stack: seq<Frame>, memo: set<Key>, deepest: nat)
    requires Searching(ops, stack, memo, deepest) && stack != []
    ensures FrameOK(ops, Top(stack), |stack| - 1) && Within(ops, Top(stack).pending) && Distinct(Top(stack).pending)
    ensures LegalPath(ops, Top(stack).path) && Top(stack).pending == PendingAfter(|ops|, Top(stack).path)
    ensures Top(stack).cands.Some? ==> Top(stack).next <= |Top(stack).cands.value|
    ensures Top(stack).cands.None? ==> Top(stack).next == 0
    ensures |Top(stack).path| == Depth(ops, KeyOf(Top(stack)))
  {
    hide LegalPath, PendingAfter, StoreAfter, Candidates, Explored, NoDeeper;
  }

  lemma Filled(ops: seq<HistoryEntry>, stack: seq<Frame>, memo: set<Key>, deepest: nat, cands: seq<nat>, deepest': nat)
    requires Searching(ops, stack, memo, deepest) && stack != [] && Top(stack).cands.None? && Within(ops, Top(stack).pending)
    requires |cands| <= |Top(stack).pending| && forall p :: p in cands <==> MayBeNext(ops, Top(stack).pending, p)
    requires deepest' == Largest(deepest, |Top(stack).path|)
    ensures Searching(ops, Popped(stack) + [Top(stack).(cands := Some(cands))], memo, deepest')
  {
    hide SearchOK, Explored, NoDeeper, MayBeNext, FrameOK, LegalPath, PendingAfter, KeyOf, Depth;
    TopOK(ops, stack, memo, deepest);
    Fill(ops, stack, memo, cands);
    FillExplored(ops, stack, memo, deepest, cands, deepest');
  }

  /** The next candidate answers differently, or leads to a state that has been visited. */
  lemma Tried(ops: seq<HistoryEntry>, stack: seq<Frame>, memo: set<Key>, deepest: nat, p: nat)
    requires Searching(ops, stack, memo, deepest) && stack != [] && Top(stack).cands.Some? && Top(stack).next < |Top(stack).cands.value|
    requires p == Top(stack).cands.value[Top(stack).next] && p < |ops|
    requires !Answers(Top(stack).store, ops[p]) || NextKey(ops, KeyOf(Top(stack)), p) in memo
    ensures Searching(ops, Popped(stack) + [Top(stack).(next := Top(stack).next + 1)], memo, deepest)
  {
    hide SearchOK, Explored, NoDeeper, MayBeNext, FrameOK, LegalPath, PendingAfter, Answers, Without, After, Depth;
    TopOK(ops, stack, memo, deepest);
    CandidateAt(ops, Top(stack), |stack| - 1);
    if Answers(Top(stack).store, ops[p]) { VisitedDead(ops, stack, memo, p); }
    TryNext(ops, stack, memo);
    TryExplored(ops, stack, memo, deepest);
  }

  lemma Backtracked(ops: seq<HistoryEntry>, stack: seq<Frame>, memo: set<Key>, deepest: nat)
    requires Searching(ops, stack, memo, deepest) && stack != [] && Top(stack).pending != []
    requires Top(stack).cands.Some? && Top(stack).next == |Top(stack).cands.value|
    ensures Searching(ops, Popped(stack), memo, deepest)
  {
    hide SearchOK, Explored, NoDeeper, FrameOK, LegalPath, PendingAfter, Depth, KeyOf;
    TopOK(ops, stack, memo, deepest);
    Pop(ops, stack, memo);
    PopExplored(ops, stack, memo, deepest);
  }

  lemma Descended(ops: seq<HistoryEntry>, stack: seq<Frame>, memo: set<Key>, deepest: nat, p: nat)
    requires Searching(ops, stack, memo, deepest) && stack != [] && Top(stack).cands.Some? && Top(stack).next < |Top(stack).cands.value|
    requires p == Top(stack).cands.value[Top(stack).next] && p < |ops| && Answers(Top(stack).store, ops[p])
    ensures var child := Child(ops, Top(stack), p);
            Searching(ops, Popped(stack) + [Top(stack).(next := Top(stack).next + 1), child], memo + {KeyOf(child)}, deepest)
  {
    hide SearchOK, Explored, NoDeeper, MayBeNext, Answers, Without, After, Depth, LeadsOn;
    Push(ops, stack, memo, p);
    PushExplored(ops, stack, memo, deepest, Child(ops, Top(stack), p));
  }

  lemma CandidateAt(ops: seq<HistoryEntry>, f: Frame, depth: nat)
    requires FrameOK(ops, f, depth) && f.cands.Some? && f.next < |f.cands.value|
    ensures f.cands.value[f.next] < |ops| && Within(ops, f.pending)
    ensures MayBeNext(ops, f.pending, f.cands.value[f.next]) && f.cands.value[f.next] in f.pending
  {
    hide LegalPath, PendingAfter, StoreAfter;
  }

  lemma VisitedDead(ops: seq<HistoryEntry>, stack: seq<Frame>, memo: set<Key>, p: nat)
    requires SearchOK(ops, stack, memo) && stack != [] && Within(ops, Top(stack).pending)
    requires p < |ops| && p in Top(stack).pending && Key(After(Top(stack).store, ops[p]), Without(Top(stack).pending, p)) in memo
    ensures !SolvableBy(ops, Top(stack).store, Top(stack).pending, p)
  {
    hide SearchOK, Without, After, MayBeNext, Answers;
    MemoIsDead(ops, stack, memo, Key(After(Top(stack).store, ops[p]), Without(Top(stack).pending, p)));
  }

  lemma VisitedReached(ops: seq<HistoryEntry>, stack: seq<Frame>, memo: set<Key>, deepest: nat)
    requires Searching(ops, stack, memo, deepest)
    ensures forall key | key in memo :: Reached(ops, key)
  {
    hide StackOK, Reached, Dead, Explored, NoDeeper;
    forall key | key in memo ensures Reached(ops, key) { assert Visited(ops, stack, key); }
  }

  /** Once nothing is left to try, there is no linearization and no longer order than the deepest one. */
  lemma Finished(ops: seq<HistoryEntry>, memo: set<Key>, deepest: nat)
    requires Searching(ops, [], memo, deepest)
    ensures !Linearizable(ops) && forall path | LegalPath(ops, path) :: |path| <= deepest
  {
    hide Solvable, SolvableBy, Linearizable, Explored, NoDeeper, LegalPath;
    SolvableIsLinearizable(ops);
    forall path | LegalPath(ops, path) ensures |path| <= deepest { NoLongerPath(ops, memo, deepest, path); }
  }

  lemma WorkTop(stack: seq<Frame>, top: Frame)
    requires stack != []
    ensures Work(stack) == Work(Popped(stack)) + Left(Top(stack)) + 1
    ensures Work(Popped(stack) + [top]) == Work(Popped(stack)) + Left(top) + 1
  {
    assert Popped(Popped(stack) + [top]) == Popped(stack);
  }

  /** No legal order of operations is longer than this one. */
  ghost predicate Deepest(ops: seq<HistoryEntry>, deepest: seq<nat>) {
    LegalPath(ops, deepest) && forall path | LegalPath(ops, path) :: |path| <= |deepest|
  }

  /** Depth-first search over a list of completed operations. A positive verdict carries a
      linearization, a negative one means that there is none and shows what is left after a longest legal order,
      and the search gives up only after visiting more than `budget` different states. */
  method Search(ops: seq<HistoryEntry>, budget: int) returns (v: Verdict)
    requires ops != []
    ensures v.checked == |ops|
    ensures v.Linearized? ==> IsLinearization(ops, v.linearization)
    ensures v.Stuck? ==> !Linearizable(ops)
    ensures v.Stuck? ==> v.frontier != [] && exists deepest :: Deepest(ops, deepest) && IsFrontier(ops, deepest, v.frontier)
    ensures v.Undetermined? ==> exists memo: set<Key> :: |memo| > budget && forall key | key in memo :: Reached(ops, key)
  {
    hide Searching, LegalPath, MayBeNext, Answers, Without, StoreAfter, PendingAfter, Frontier, IsFrontier, Solvable, SolvableBy,
         Reached, IsLinearization, Linearizable, FrameOK, Pick, Execute, Work, Distinct, Depth, NextKey, Respond, Child;
    var memo: set<Key> := {};
    var deepest: seq<nat> := [];
    var explored: nat := 0;
    var stack: seq<Frame> := [Root(ops)];
    Started(ops);
    while stack != []
      invariant Searching(ops, stack, memo, |deepest|)
      invariant explored == |memo|
      invariant LegalPath(ops, deepest)
      decreases Room(explored, budget), Work(stack)
    {
      var frame := stack[|stack| - 1];
      TopOK(ops, stack, memo, |deepest|);
      if frame.pending == [] {
        FullPathLinearizes(ops, frame.path);
        return Linearized(Pick(ops, frame.path), |ops|);
      }
      if frame.cands.None? {
        var found := Minimal(ops, frame.pending);
        Filled(ops, stack, memo, |deepest|, found, Largest(|deepest|, |frame.path|));
        WorkTop(stack, frame.(cands := Some(found)));
        frame := frame.(cands := Some(found));
        stack := Popped(stack) + [frame];
        if |frame.path| > |deepest| {
          deepest := frame.path;
        }
        TopOK(ops, stack, memo, |deepest|);
      }
      var cands := frame.cands.value;
      WorkTop(stack, frame.(next := frame.next + 1));
      if frame.next >= |cands| {
        Backtracked(ops, stack, memo, |deepest|);
        stack := Popped(stack);
        continue;
      }
      CandidateAt(ops, frame, |stack| - 1);
      var i := cands[frame.next];
      var tried := Popped(stack) + [frame.(next := frame.next + 1)];
      var (store, result) := Respond(frame.store, ops[i].command);
      Responded(frame, ops, i);
      if result != ops[i].observed {
        Tried(ops, stack, memo, |deepest|, i);
        stack := tried;
        continue;
      }
      var pending := Without(frame.pending, i);
      var key := Key(store, pending);
      if key in memo {
        Tried(ops, stack, memo, |deepest|, i);
        stack := tried;
        continue;
      }
      Descended(ops, stack, memo, |deepest|, i);
      memo := memo + {key};
      explored := explored + 1;
      stack := tried + [Frame(store, pending, None, 0, frame.path + [i])];
      PushedTwo(Popped(tried), frame.(next := frame.next + 1), Frame(store, pending, None, 0, frame.path + [i]), tried);
      if explored > budget {
        VisitedReached(ops, stack, memo, |deepest|);
        return Undetermined(|ops|);
      }
    }
    Finished(ops, memo, |deepest|);
    assert Deepest(ops, deepest);
    FrontierShowsFirst(ops, deepest);
    StuckShowsSomething(ops, deepest);
    v := Stuck(Frontier(ops, deepest), |ops|);
  }

  lemma Responded(f: Frame, ops: seq<HistoryEntry>, p: nat)
    requires p < |ops|
    ensures Answers(f.store, ops[p]) <==> Respond(f.store, ops[p].command).1 == ops[p].observed
    ensures NextKey(ops, KeyOf(f), p) == Key(Respond(f.store, ops[p].command).0, Without(f.pending, p))
    ensures Child(ops, f, p) == Frame(Respond(f.store, ops[p].command).0, Without(f.pending, p), None, 0, f.path + [p])
  {}

  lemma PushedTwo(rest: seq<Frame>, top: Frame, child: Frame, tried: seq<Frame>)
    requires tried == rest + [top]
    ensures tried + [child] == rest + [top, child]
  {}

  // ---- which operations are checked ----

  /** The sort key: invocation, return, client, request. */
  predicate AtMost(a: HistoryEntry, b: HistoryEntry) {
    || a.invoked < b.invoked
    || (a.invoked == b.invoked && (a.Return() < b.Return() || (a.Return() == b.Return() && IdAtMost(a.command, b.command))))
  }

  predicate IdAtMost(a: Command, b: Command) {
    a.Kv? && b.Kv? ==> a.client < b.client || (a.client == b.client && a.req <= b.req)
  }

  function Sorted(ops: seq<HistoryEntry>): seq<HistoryEntry> { Sort(ops, AtMost) }

  predicate ByInvocation(ops: seq<HistoryEntry>) {
    forall a, b | 0 <= a < b < |ops| :: ops[a].invoked <= ops[b].invoked
  }

  lemma OrderedCons(x: HistoryEntry, rest: seq<HistoryEntry>)
    ensures ByInvocation([x] + rest) <==> ByInvocation(rest) && forall y | 0 <= y < |rest| :: x.invoked <= rest[y].invoked
  {
    var all := [x] + rest;
    if ByInvocation(all) {
      forall a, b | 0 <= a < b < |rest| ensures rest[a].invoked <= rest[b].invoked { assert all[a + 1] == rest[a] && all[b + 1] == rest[b]; }
      forall y | 0 <= y < |rest| ensures x.invoked <= rest[y].invoked { assert all[0] == x && all[y + 1] == rest[y]; }
    }
    if ByInvocation(rest) && forall y | 0 <= y < |rest| :: x.invoked <= rest[y].invoked {
      forall a, b | 0 <= a < b < |all| ensures all[a].invoked <= all[b].invoked {
        assert all[b] == rest[b - 1];
        if a > 0 { assert all[a] == rest[a - 1]; }
      }
    }
  }

  lemma {:induction false} InsertOrdered(e: HistoryEntry, sorted: seq<HistoryEntry>)
    requires ByInvocation(sorted)
    ensures ByInvocation(Insert(e, sorted, AtMost))
  {
    hide ByInvocation;
    if sorted == [] {
      OrderedCons(e, []);
      EmptyOrdered();
    } else {
      var first, rest := sorted[0], sorted[1..];
      assert sorted == [first] + rest;
      OrderedCons(first, rest);
      if AtMost(e, first) {
        OrderedCons(e, sorted);
      } else {
        InsertOrdered(e, rest);
        var out := Insert(e, rest, AtMost);
        InsertKeepsElements(e, rest, AtMost);
        forall y | 0 <= y < |out| ensures first.invoked <= out[y].invoked {
          assert out[y] in multiset(out);
          assert out[y] == e || out[y] in rest;
        }
        OrderedCons(first, out);
      }
    }
  }

  lemma EmptyOrdered()
    ensures ByInvocation([])
  {}

  lemma {:induction false} SortedFacts(ops: seq<HistoryEntry>)
    ensures multiset(Sorted(ops)) == multiset(ops) && ByInvocation(Sorted(ops))
  {
    SortKeepsElements(ops, AtMost);
    if ops != [] {
      SortedFacts(ops[1..]);
      InsertOrdered(ops[0], Sorted(ops[1..]));
    }
  }

  /** Operations are compared by invocation, then return, then client, then request. */
  predicate InKeyOrder(a: HistoryEntry, b: HistoryEntry) {
    var x, y := a.command, b.command;
    x.Kv? && y.Kv? ==>
      a.invoked < b.invoked || (a.invoked == b.invoked && (a.Return() < b.Return() || (a.Return() == b.Return() &&
        (x.client < y.client || (x.client == y.client && x.req <= y.req)))))
  }

  predicate AllKv(ops: seq<HistoryEntry>) { forall x | 0 <= x < |ops| :: ops[x].command.Kv? }

  lemma KeyOrderIsLinear(a: HistoryEntry, b: HistoryEntry, c: HistoryEntry)
    requires a.command.Kv? && b.command.Kv? && c.command.Kv?
    ensures AtMost(a, b) ==> InKeyOrder(a, b)
    ensures !AtMost(a, b) ==> InKeyOrder(b, a)
    ensures InKeyOrder(a, b) && InKeyOrder(b, c) ==> InKeyOrder(a, c)
  {}

  lemma {:induction false} InsertByKey(e: HistoryEntry, sorted: seq<HistoryEntry>)
    requires e.command.Kv? && AllKv(sorted) && forall a, b | 0 <= a < b < |sorted| :: InKeyOrder(sorted[a], sorted[b])
    ensures var out := Insert(e, sorted, AtMost);
            AllKv(out) && |out| == |sorted| + 1 && forall a, b | 0 <= a < b < |out| :: InKeyOrder(out[a], out[b])
  {
    hide InKeyOrder, AtMost;
    var out := Insert(e, sorted, AtMost);
    if sorted == [] {
    } else if AtMost(e, sorted[0]) {
      forall x | 0 <= x < |sorted| ensures InKeyOrder(e, sorted[x]) { KeyOrderIsLinear(e, sorted[0], sorted[x]); }
    } else {
      KeyOrderIsLinear(e, sorted[0], e);
      InsertByKey(e, sorted[1..]);
      var later := Insert(e, sorted[1..], AtMost);
      InsertKeepsElements(e, sorted[1..], AtMost);
      forall b | 0 <= b < |later| ensures InKeyOrder(sorted[0], later[b]) {
        assert later[b] in multiset(later);
        assert later[b] == e || later[b] in sorted[1..];
      }
    }
  }

  /** The operations that are checked come in that order, and the first ones of it if only so many are. */
  lemma {:induction false} SortedByKey(ops: seq<HistoryEntry>)
    requires AllKv(ops)
    ensures AllKv(Sorted(ops)) && forall a, b | 0 <= a < b < |Sorted(ops)| :: InKeyOrder(Sorted(ops)[a], Sorted(ops)[b])
  {
    hide InKeyOrder;
    if ops != [] {
      SortedByKey(ops[1..]);
      InsertByKey(ops[0], Sorted(ops[1..]));
    }
  }

  function Considered(history: seq<HistoryEntry>, maxOps: Option<nat>): seq<HistoryEntry> {
    var ops := Sorted(CompletedOf(history));
    if maxOps.Some? && maxOps.value < |ops| then ops[..maxOps.value] else ops
  }

  lemma SameOperationsSameVerdict(a: seq<HistoryEntry>, b: seq<HistoryEntry>)
    requires multiset(a) == multiset(b)
    ensures Linearizable(a) <==> Linearizable(b)
    ensures forall lin :: IsLinearization(a, lin) <==> IsLinearization(b, lin)
  {
    if Linearizable(a) { var lin :| IsLinearization(a, lin); assert IsLinearization(b, lin); }
    if Linearizable(b) { var lin :| IsLinearization(b, lin); assert IsLinearization(a, lin); }
  }

  /** `check`: decides the completed operations of a recorded history. */
  method Check(history: seq<HistoryEntry>, maxOps: Option<nat>, budget: int) returns (v: Verdict)
    ensures v.checked == |Considered(history, maxOps)|
    ensures v.Linearized? ==> IsLinearization(Considered(history, maxOps), v.linearization)
    ensures v.Stuck? ==> !Linearizable(Considered(history, maxOps))
    ensures v.Stuck? ==> v.frontier != [] && exists deepest :: Deepest(Considered(history, maxOps), deepest) && IsFrontier(Considered(history, maxOps), deepest, v.frontier)
    ensures maxOps.None? && v.Linearized? ==> IsLinearization(CompletedOf(history), v.linearization)
    ensures maxOps.None? && v.Stuck? ==> !Linearizable(CompletedOf(history))
    ensures v.Undetermined? ==> exists memo: set<Key> :: |memo| > budget && forall key | key in memo :: Reached(Considered(history, maxOps), key)
  {
    hide IsLinearization, Linearizable, Reached, Deepest, IsFrontier;
    var ops := Sorted(CompletedOf(history));
    SortedFacts(CompletedOf(history));
    SameOperationsSameVerdict(ops, CompletedOf(history));
    if maxOps.Some? && maxOps.value < |ops| {
      ops := ops[..maxOps.value];
    }
    if |ops| == 0 {
      EmptyLinearizes();
      return Linearized([], 0);
    }
    v := Search(ops, budget);
  }

  lemma EmptyLinearizes()
    ensures IsLinearization([], [])
  {}
}
