/** When does a bounded check condemn the whole history? `max_ops` keeps the operations invoked first and
    drops the rest; the documentation says a non-linearizable prefix proves the history non-linearizable
    (raftverified/linearizability.py). That holds exactly when every kept operation returned before any
    dropped one was invoked: otherwise a dropped put may explain what a kept get saw. */
module OracleBound {
  import opened Types
  import opened Linearizability
  import opened Oracle

  /** Completed operations, none of which returned before it was invoked. */
  predicate Timely(ops: seq<HistoryEntry>) {
    forall x | 0 <= x < |ops| :: ops[x].Completed() && ops[x].invoked <= ops[x].Return()
  }

  /** Every kept operation returned before any dropped one was invoked. */
  predicate CutIsClean(ops: seq<HistoryEntry>, m: nat) {
    forall a, b | 0 <= a < m <= b < |ops| :: ops[a].Return() < ops[b].invoked
  }

  /** The same invocation and return steps, for any commands and any observed results. */
  predicate SameTimes(ops: seq<HistoryEntry>, other: seq<HistoryEntry>) {
    |other| == |ops| && forall x | 0 <= x < |ops| :: other[x].invoked == ops[x].invoked && other[x].returned == ops[x].returned
  }

  // ---- a clean cut: the kept operations come first in every order ----

  lemma {:induction false} LegalPrefix(store: Store, lin: seq<HistoryEntry>, j: nat)
    requires Legal(store, lin) && j <= |lin|
    ensures Legal(store, lin[..j])
    decreases j
  {
    if j > 0 {
      LegalPrefix(After(store, lin[0]), lin[1..], j - 1);
      assert lin[..j][1..] == lin[1..][..j - 1];
    }
  }

  /** The elements of `kept` come first. */
  lemma {:induction false} KeptFirst(lin: seq<HistoryEntry>, kept: multiset<HistoryEntry>) returns (j: nat)
    requires forall a, b | 0 <= a < b < |lin| && lin[b] in kept :: lin[a] in kept
    ensures j <= |lin| && (forall x | 0 <= x < j :: lin[x] in kept) && forall x | j <= x < |lin| :: lin[x] !in kept
  {
    if lin == [] || lin[|lin| - 1] in kept {
      j := |lin|;
    } else {
      j := KeptFirst(lin[..|lin| - 1], kept);
    }
  }

  lemma KeptPrefix(lin: seq<HistoryEntry>, kept: multiset<HistoryEntry>, dropped: multiset<HistoryEntry>, j: nat)
    requires multiset(lin) == kept + dropped && j <= |lin|
    requires (forall x | 0 <= x < j :: lin[x] in kept) && forall x | j <= x < |lin| :: lin[x] !in kept
    requires forall e | e in kept :: e !in dropped
    ensures multiset(lin[..j]) == kept
  {
    var first, rest := lin[..j], lin[j..];
    assert lin == first + rest;
    assert multiset(first) + multiset(rest) == kept + dropped;
    forall e ensures multiset(first)[e] == kept[e] {
      assert (multiset(first) + multiset(rest))[e] == (kept + dropped)[e];
      if e in kept {
        assert e !in rest;
      } else {
        assert e !in first;
      }
    }
  }

  lemma CleanOrder(ops: seq<HistoryEntry>, m: nat, lin: seq<HistoryEntry>)
    requires m <= |ops| && Timely(ops) && CutIsClean(ops, m) && multiset(lin) == multiset(ops) && InRealTime(lin)
    ensures forall a, b | 0 <= a < b < |lin| && lin[b] in multiset(ops[..m]) :: lin[a] in multiset(ops[..m])
    ensures forall e | e in multiset(ops[..m]) :: e !in multiset(ops[m..])
    ensures multiset(lin) == multiset(ops[..m]) + multiset(ops[m..])
  {
    assert ops == ops[..m] + ops[m..];
    forall a, b | 0 <= a < b < |lin| && lin[b] in multiset(ops[..m]) ensures lin[a] in multiset(ops[..m]) {
      assert lin[a] in multiset(lin);
      if lin[a] !in multiset(ops[..m]) {
        assert lin[a] in multiset(ops[m..]);
        KeptBeforeDropped(ops, m, lin[b], lin[a]);
        assert false;
      }
    }
    forall e | e in multiset(ops[..m]) ensures e !in multiset(ops[m..]) {
      if e in multiset(ops[m..]) {
        KeptBeforeDropped(ops, m, e, e);
        assert false;
      }
    }
  }

  lemma KeptBeforeDropped(ops: seq<HistoryEntry>, m: nat, kept: HistoryEntry, dropped: HistoryEntry)
    requires m <= |ops| && Timely(ops) && CutIsClean(ops, m) && kept in multiset(ops[..m]) && dropped in multiset(ops[m..])
    ensures kept.Return() < dropped.invoked && kept.invoked <= kept.Return()
  {
    var a :| 0 <= a < m && ops[..m][a] == kept;
    var b :| 0 <= b < |ops[m..]| && ops[m..][b] == dropped;
    assert ops[a] == kept && ops[m + b] == dropped;
  }

  /** A bounded check across a clean cut condemns the whole history. */
  lemma CleanCutIsSound(ops: seq<HistoryEntry>, m: nat)
    requires m <= |ops| && Timely(ops) && CutIsClean(ops, m) && Linearizable(ops)
    ensures Linearizable(ops[..m])
  {
    hide Legal, Timely, CutIsClean;
    var lin :| IsLinearization(ops, lin);
    CleanOrder(ops, m, lin);
    var j := KeptFirst(lin, multiset(ops[..m]));
    KeptPrefix(lin, multiset(ops[..m]), multiset(ops[m..]), j);
    LegalPrefix(map[], lin, j);
    assert IsLinearization(ops[..m], lin[..j]);
  }

  // ---- any other cut: a dropped put explains a kept get ----

  /** Operation a gets what operation b puts; all others put something unrelated. */
  function Refilled(ops: seq<HistoryEntry>, a: nat, b: nat, x: nat): HistoryEntry
    requires x < |ops|
  {
    if x == a then HistoryEntry(Kv(0, x, Get, "k", "", ""), ops[x].invoked, ops[x].returned, "v")
    else HistoryEntry(Kv(0, x, Put, if x == b then "k" else "other", "v", ""), ops[x].invoked, ops[x].returned, "ok")
  }

  function RefilledAll(ops: seq<HistoryEntry>, a: nat, b: nat): (r: seq<HistoryEntry>)
    ensures SameTimes(ops, r) && forall x | 0 <= x < |ops| :: r[x] == Refilled(ops, a, b, x)
  {
    seq(|ops|, x requires 0 <= x < |ops| => Refilled(ops, a, b, x))
  }

  /** The operations by invocation, except that a comes right after b. */
  function GetAfterPut(r: seq<HistoryEntry>, a: nat, b: nat): seq<HistoryEntry>
    requires a < b < |r|
  {
    r[..a] + r[a + 1..b + 1] + [r[a]] + r[b + 1..]
  }

  lemma SwapParts(s: seq<HistoryEntry>, e: HistoryEntry, t: seq<HistoryEntry>, u: seq<HistoryEntry>)
    ensures multiset(s + [e] + t + u) == multiset(s + t + [e] + u)
  {}

  lemma SameOperations(r: seq<HistoryEntry>, a: nat, b: nat)
    requires a < b < |r|
    ensures multiset(GetAfterPut(r, a, b)) == multiset(r)
  {
    SwapParts(r[..a], r[a], r[a + 1..b + 1], r[b + 1..]);
    assert r == r[..a] + [r[a]] + r[a + 1..b + 1] + r[b + 1..];
  }

  /** Which operation stands at place x. */
  function PlaceOf(a: nat, b: nat, x: nat): nat { if x < a || x > b then x else if x < b then x + 1 else a }

  lemma SamePlaces(r: seq<HistoryEntry>, a: nat, b: nat, x: nat)
    requires a < b < |r| && x < |r|
    ensures |GetAfterPut(r, a, b)| == |r| && PlaceOf(a, b, x) < |r| && GetAfterPut(r, a, b)[x] == r[PlaceOf(a, b, x)]
  {}

  lemma MovedInRealTime(r: seq<HistoryEntry>, a: nat, b: nat)
    requires a < b < |r| && Timely(r) && ByInvocation(r) && r[b].invoked <= r[a].Return()
    ensures InRealTime(GetAfterPut(r, a, b))
  {
    hide GetAfterPut;
    var lin := GetAfterPut(r, a, b);
    SamePlaces(r, a, b, 0);
    forall x, y | 0 <= x < y < |lin| ensures !(lin[y].Return() < lin[x].invoked) {
      SamePlaces(r, a, b, x);
      SamePlaces(r, a, b, y);
    }
  }

  predicate Puts(e: HistoryEntry) { e.command.Kv? && e.command.op.Put? && e.observed == "ok" }

  lemma {:induction false} PutsAreLegal(store: Store, lin: seq<HistoryEntry>)
    requires forall x | 0 <= x < |lin| :: Puts(lin[x])
    ensures Legal(store, lin)
    decreases |lin|
  {
    if lin != [] { PutsAreLegal(After(store, lin[0]), lin[1..]); }
  }

  lemma {:induction false} LegalConcat(store: Store, s: seq<HistoryEntry>, t: seq<HistoryEntry>)
    requires Legal(store, s) && Legal(StoreFrom(store, s), t)
    ensures Legal(store, s + t)
    decreases |s|
  {
    if s == [] {
      assert s + t == t;
    } else {
      StoreFromTail(store, s);
      LegalConcat(After(store, s[0]), s[1..], t);
      assert (s + t)[1..] == s[1..] + t;
    }
  }

  lemma StoryIsLegal(before: seq<HistoryEntry>, put: HistoryEntry, get: HistoryEntry, after: seq<HistoryEntry>)
    requires forall store: Store :: Answers(store, put) && Answers(After(store, put), get)
    requires (forall x | 0 <= x < |before| :: Puts(before[x])) && forall x | 0 <= x < |after| :: Puts(after[x])
    ensures Legal(map[], before + ([put] + ([get] + after)))
  {
    hide Legal, Answers, After;
    PutsAreLegal(map[], before);
    var store := StoreFrom(map[], before);
    PutsAreLegal(After(After(store, put), get), after);
    LegalCons(After(store, put), get, after);
    LegalCons(store, put, [get] + after);
    LegalConcat(map[], before, [put] + ([get] + after));
  }

  lemma SameStory(r: seq<HistoryEntry>, a: nat, b: nat)
    requires a < b < |r|
    ensures GetAfterPut(r, a, b) == (r[..a] + r[a + 1..b]) + ([r[b]] + ([r[a]] + r[b + 1..]))
  {
    assert r[a + 1..b + 1] == r[a + 1..b] + [r[b]];
  }

  lemma RefilledIsLegal(ops: seq<HistoryEntry>, a: nat, b: nat)
    requires a < b < |ops|
    ensures Legal(map[], GetAfterPut(RefilledAll(ops, a, b), a, b))
  {
    hide Legal, GetAfterPut;
    var r := RefilledAll(ops, a, b);
    SameStory(r, a, b);
    forall store: Store ensures Answers(store, r[b]) && Answers(After(store, r[b]), r[a]) { GetSeesPut(store, ops, a, b); }
    StoryIsLegal(r[..a] + r[a + 1..b], r[b], r[a], r[b + 1..]);
  }

  lemma RefilledIsLinearizable(ops: seq<HistoryEntry>, a: nat, b: nat)
    requires a < b < |ops| && Timely(ops) && ByInvocation(ops) && ops[b].invoked <= ops[a].Return()
    ensures Linearizable(RefilledAll(ops, a, b))
  {
    hide Legal, InRealTime, GetAfterPut;
    var r := RefilledAll(ops, a, b);
    SameOperations(r, a, b);
    MovedInRealTime(r, a, b);
    RefilledIsLegal(ops, a, b);
    assert IsLinearization(r, GetAfterPut(r, a, b));
  }

  lemma LegalCons(store: Store, e: HistoryEntry, rest: seq<HistoryEntry>)
    requires Answers(store, e) && Legal(After(store, e), rest)
    ensures Legal(store, [e] + rest)
  {
    assert ([e] + rest)[1..] == rest;
  }

  lemma GetSeesPut(store: Store, ops: seq<HistoryEntry>, a: nat, b: nat)
    requires a < b < |ops|
    ensures Answers(store, Refilled(ops, a, b, b)) && Answers(After(store, Refilled(ops, a, b, b)), Refilled(ops, a, b, a))
  {}

  /** Without the put, nothing explains the get. */
  lemma {:induction false} NothingExplains(store: Store, lin: seq<HistoryEntry>, y: nat)
    requires "k" !in store && y < |lin| && lin[y].command.Kv? && lin[y].command.op.Get? && lin[y].command.key == "k" && lin[y].observed == "v"
    requires forall x | 0 <= x < |lin| :: lin[x].command.Kv? && (lin[x].command.op.Get? || (lin[x].command.op.Put? && lin[x].command.key != "k"))
    ensures !Legal(store, lin)
    decreases |lin|
  {
    if y > 0 {
      NothingExplains(After(store, lin[0]), lin[1..], y - 1);
    }
  }

  lemma PrefixIsStuck(ops: seq<HistoryEntry>, a: nat, b: nat, m: nat)
    requires a < m <= b < |ops|
    ensures !Linearizable(RefilledAll(ops, a, b)[..m])
  {
    hide Legal, InRealTime;
    var kept := RefilledAll(ops, a, b)[..m];
    forall lin: seq<HistoryEntry> | IsLinearization(kept, lin) ensures false {
      assert kept[a] in multiset(lin);
      var y :| 0 <= y < |lin| && lin[y] == kept[a];
      forall x | 0 <= x < |lin| ensures lin[x].command.Kv? && (lin[x].command.op.Get? || (lin[x].command.op.Put? && lin[x].command.key != "k")) {
        assert lin[x] in multiset(kept);
      }
      NothingExplains(map[], lin, y);
    }
  }

  /** The documented claim holds, whatever the operations are and return, exactly for clean cuts. */
  lemma BoundedCheckIsSound(ops: seq<HistoryEntry>, m: nat)
    requires m <= |ops| && Timely(ops) && ByInvocation(ops)
    ensures CutIsClean(ops, m) <==> forall other | SameTimes(ops, other) && Linearizable(other) :: Linearizable(other[..m])
  {
    hide Linearizable;
    if CutIsClean(ops, m) {
      forall other | SameTimes(ops, other) && Linearizable(other) ensures Linearizable(other[..m]) { CleanCutIsSound(other, m); }
    } else {
      var a, b :| 0 <= a < m <= b < |ops| && !(ops[a].Return() < ops[b].invoked);
      var other := RefilledAll(ops, a, b);
      RefilledIsLinearizable(ops, a, b);
      PrefixIsStuck(ops, a, b, m);
      assert SameTimes(ops, other) && Linearizable(other) && !Linearizable(other[..m]);
    }
  }

  /** So a bounded verdict of `check` that no order exists condemns the whole history across a clean cut. */
  lemma BoundedVerdict(history: seq<HistoryEntry>, m: nat)
    requires var ops := Sorted(CompletedOf(history)); m <= |ops| && Timely(ops) && CutIsClean(ops, m)
    ensures !Linearizable(Considered(history, Some(m))) ==> !Linearizable(CompletedOf(history))
  {
    hide Linearizable, Timely, CutIsClean;
    var ops := Sorted(CompletedOf(history));
    SortedFacts(CompletedOf(history));
    SameOperationsSameVerdict(ops, CompletedOf(history));
    if Linearizable(ops) { CleanCutIsSound(ops, m); }
    assert m == |ops| ==> ops[..m] == ops;
  }
}
