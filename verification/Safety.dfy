/** Consequences of the ledger invariant: Leader Completeness under single-server membership
    changes, and with it at most one leader a term and agreement on committed entries. */
module Safety {
  import opened Types
  import opened Quorums
  import opened Logs
  import opened Protocol

  lemma LeaderLogGenuine(initial: set<NodeId>, h: History, t: nat)
    requires HistoryOK(initial, h) && t in h.elected
    ensures Genuine(h, h.leaderLog[t], t)
  {
    assert ElectionOK(initial, h, t);
    var e, log := h.elected[t], h.leaderLog[t];
    forall i | 0 <= i < |log|
      ensures log[i].term <= t && log[i].term in h.leaderLog && log[..i + 1] <= h.leaderLog[log[i].term]
    {
      if i < |e.base| {
        assert log[i] == e.base[i] && log[..i + 1] == e.base[..i + 1];
      }
    }
  }

  /** Terms never decrease along a genuine log. */
  lemma TermsSorted(initial: set<NodeId>, h: History, log: Log, top: int, i: nat, j: nat)
    requires HistoryOK(initial, h) && Genuine(h, log, top)
    requires i <= j < |log|
    ensures log[i].term <= log[j].term
  {
    var t := log[j].term;
    LeaderLogGenuine(initial, h, t);
    assert log[..j + 1] <= h.leaderLog[t];
    assert log[i] == h.leaderLog[t][i];
  }

  /** Log Matching: two genuine logs with the same term at a position agree up to it. */
  lemma LogMatching(h: History, a: Log, b: Log, top: int, top': int, i: nat)
    requires Genuine(h, a, top) && Genuine(h, b, top')
    requires i < |a| && i < |b| && a[i].term == b[i].term
    ensures a[..i + 1] == b[..i + 1]
  {
    var full := h.leaderLog[a[i].term];
    assert a[..i + 1] == full[..i + 1] && b[..i + 1] == full[..i + 1];
  }

  /** A genuine log ending in a term past its leader's base contains that base. */
  lemma ContainsBase(initial: set<NodeId>, h: History, log: Log, top: int)
    requires HistoryOK(initial, h) && Genuine(h, log, top) && log != []
    ensures LastTerm(log) in h.elected && log <= h.leaderLog[LastTerm(log)]
    ensures h.elected[LastTerm(log)].base <= log && |h.elected[LastTerm(log)].base| < |log|
  {
    var t := LastTerm(log);
    assert log[..|log|] == log;
    assert ElectionOK(initial, h, t);
    var base := h.elected[t].base;
    assert h.leaderLog[t][|log| - 1].term == t;
    assert forall i | 0 <= i < |base| && i < |log| :: base[i] == log[i];
  }

  ghost predicate Holds(h: History, c: Commit, log: Log) {
    Written(h, c.term, c.index) <= log
  }

  lemma CommonLength(a: Log, b: Log) returns (p: nat)
    ensures p <= |a| && p <= |b| && a[..p] == b[..p]
    ensures p < |a| && p < |b| ==> a[p] != b[p]
  {
    p := 0;
    while p < |a| && p < |b| && a[p] == b[p]
      invariant p <= |a| && p <= |b| && a[..p] == b[..p]
    {
      p := p + 1;
    }
  }

  lemma SharedPrefixInside(x: Log, a: Log, b: Log, p: nat)
    requires x <= a && x <= b && p <= |a| && p <= |b|
    requires p < |a| && p < |b| ==> a[p] != b[p]
    ensures |x| <= p
  {
    assert forall k | 0 <= k < |x| :: x[k] == a[k] && x[k] == b[k];
  }

  /** An own-term configuration entry at position i of a genuine log, seen as its leader's. */
  lemma ConfigEntryOrigin(initial: set<NodeId>, h: History, a: Log, top: int, i: nat) returns (c: Commit)
    requires HistoryOK(initial, h) && Genuine(h, a, top) && ConfigAt(a, i)
    ensures Clears(h, a[i].term, i, c) && a[..i + 1] <= h.leaderLog[a[i].term]
    ensures |h.elected[a[i].term].base| < c.index <= i && CommitOK(initial, h, c)
    ensures OneApart(a[i].command.voters, ConfigOf(initial, a[..i]))
  {
    var t := a[i].term;
    var up := a[..i + 1];
    forall k | 0 <= k < |up| ensures up[k].term <= top && up[k].term in h.leaderLog && up[..k + 1] <= h.leaderLog[up[k].term] {
      assert up[..k + 1] == a[..k + 1];
    }
    ContainsBase(initial, h, up, top);
    assert a[i] == h.leaderLog[t][i] && ConfigAt(h.leaderLog[t], i);
    assert ChangeOK(initial, h, t, i);
    c :| Clears(h, t, i, c);
    assert CommitOK(initial, h, c);
    assert Written(h, t, i) == a[..i];
  }

  /** Two logs that contain every commit their configuration entries rest on cannot have
      drifted more than one server apart. */
  lemma ForkedConfigsClose(initial: set<NodeId>, h: History, a: Log, b: Log, top: nat)
    requires HistoryOK(initial, h) && Genuine(h, a, top) && Genuine(h, b, top)
    requires forall c | c in h.commits && c.term <= LastTerm(a) :: Holds(h, c, a) && Holds(h, c, b)
    requires forall c | c in h.commits && c.term <= LastTerm(b) :: Holds(h, c, a) && Holds(h, c, b)
    ensures Close(ConfigOf(initial, a), ConfigOf(initial, b))
  {
    var p := CommonLength(a, b);
    AtMostOneAbove(initial, h, a, b, top, p);
    AtMostOneAbove(initial, h, b, a, top, p);
    if (exists i :: p <= i < |a| && ConfigAt(a, i)) && (exists j :: p <= j < |b| && ConfigAt(b, j)) {
      var i :| p <= i < |a| && ConfigAt(a, i);
      var j :| p <= j < |b| && ConfigAt(b, j);
      NotBothSides(initial, h, a, b, top, p, i, j);
    } else if exists i :: p <= i < |a| && ConfigAt(a, i) {
      ConfigUnchanged(initial, b, p);
    } else {
      ConfigUnchanged(initial, a, p);
      CloseSymmetric(ConfigOf(initial, a), ConfigOf(initial, b));
    }
  }

  lemma CloseSymmetric(a: set<NodeId>, b: set<NodeId>)
    ensures Close(a, b) <==> Close(b, a)
  {
    assert (a - b) + (b - a) == (b - a) + (a - b);
  }

  lemma LastTermBounds(initial: set<NodeId>, h: History, a: Log, top: int, i: nat)
    requires HistoryOK(initial, h) && Genuine(h, a, top) && i < |a|
    ensures a[i].term <= LastTerm(a)
  {
    TermsSorted(initial, h, a, top, i, |a| - 1);
  }

  lemma AtMostOneAbove(initial: set<NodeId>, h: History, a: Log, b: Log, top: nat, p: nat)
    requires HistoryOK(initial, h) && Genuine(h, a, top)
    requires p <= |a| && p <= |b| && (p < |a| && p < |b| ==> a[p] != b[p])
    requires forall c | c in h.commits && c.term <= LastTerm(a) :: Holds(h, c, a) && Holds(h, c, b)
    ensures Close(ConfigOf(initial, a[..p]), ConfigOf(initial, a))
  {
    forall i, j | p <= i < j < |a| ensures !(ConfigAt(a, i) && ConfigAt(a, j)) {
      if ConfigAt(a, i) && ConfigAt(a, j) {
        var c := ConfigEntryOrigin(initial, h, a, top, j);
        LastTermBounds(initial, h, a, top, j);
        SharedPrefixInside(Written(h, c.term, c.index), a, b, p);
        assert h.leaderLog[c.term][i] == a[i];
        assert ConfigAt(h.leaderLog[c.term], i);
      }
    }
    forall j | p <= j < |a| && ConfigAt(a, j) ensures OneApart(a[j].command.voters, ConfigOf(initial, a[..j])) {
      var c := ConfigEntryOrigin(initial, h, a, top, j);
    }
    ConfigCloseAbove(initial, a, p);
  }

  /** The commit behind a configuration entry above the fork lies below it, in the same term. */
  lemma ConfigTermBelowFork(initial: set<NodeId>, h: History, a: Log, b: Log, top: nat, p: nat, i: nat) returns (x: nat)
    requires HistoryOK(initial, h) && Genuine(h, a, top)
    requires p <= |a| && p <= |b| && (p < |a| && p < |b| ==> a[p] != b[p])
    requires forall c | c in h.commits && c.term <= LastTerm(a) :: Holds(h, c, a) && Holds(h, c, b)
    requires p <= i && ConfigAt(a, i)
    ensures x < p && a[x].term == a[i].term && a[..i + 1] <= h.leaderLog[a[i].term]
  {
    var c := ConfigEntryOrigin(initial, h, a, top, i);
    LastTermBounds(initial, h, a, top, i);
    SharedPrefixInside(Written(h, c.term, c.index), a, b, p);
    x := c.index - 1;
    assert a[x] == h.leaderLog[c.term][x];
    assert ElectionOK(initial, h, c.term);
  }

  lemma NotBothSides(initial: set<NodeId>, h: History, a: Log, b: Log, top: nat, p: nat, i: nat, j: nat)
    requires HistoryOK(initial, h) && Genuine(h, a, top) && Genuine(h, b, top)
    requires p <= |a| && p <= |b| && a[..p] == b[..p] && (p < |a| && p < |b| ==> a[p] != b[p])
    requires forall c | c in h.commits && c.term <= LastTerm(a) :: Holds(h, c, a) && Holds(h, c, b)
    requires forall c | c in h.commits && c.term <= LastTerm(b) :: Holds(h, c, a) && Holds(h, c, b)
    requires p <= i < |a| && ConfigAt(a, i) && p <= j < |b|
    ensures !ConfigAt(b, j)
  {
    if ConfigAt(b, j) {
      var x := ConfigTermBelowFork(initial, h, a, b, top, p, i);
      var y := ConfigTermBelowFork(initial, h, b, a, top, p, j);
      assert a[p] == a[..i + 1][p] && b[p] == b[..j + 1][p];
      assert a[..p][x] == b[..p][x] && a[..p][y] == b[..p][y];
      TermsSorted(initial, h, a, top, y, i);
      TermsSorted(initial, h, b, top, x, j);
      assert false;
    }
  }

  /** Leader Completeness, for any winner of an election (elected already, or about to be):
      an entry counted as committed in an earlier term is in the winner's log. */
  lemma {:induction false} CommitSurvives(initial: set<NodeId>, h: History, c: Commit, u: nat, cand: NodeId, log: Log, q: set<NodeId>, hi: nat)
    requires HistoryOK(initial, h) && c in h.commits && c.term < u
    requires u - 1 <= hi <= u
    requires Genuine(h, log, u - 1) && Won(initial, h, u, cand, log, q, hi)
    ensures Holds(h, c, log)
    decreases c.term, hi, c.length
  {
    assert CommitOK(initial, h, c) && ElectionOK(initial, h, c.term);
    forall w | c.term < w <= hi && w in h.elected ensures Holds(h, c, h.elected[w].base) {
      assert ElectionOK(initial, h, w);
      CommitSurvives(initial, h, c, w, h.elected[w].leader, h.elected[w].base, h.elected[w].quorum, w - 1);
    }
    var last := LastTerm(log);
    if last > c.term {
      ContainsBase(initial, h, log, u - 1);
      assert Holds(h, c, h.elected[last].base);
    } else if !Holds(h, c, log) {
      if last == c.term {
        CloseInSameTerm(initial, h, c, u, cand, log, q, hi);
      } else {
        CloseAcrossTerms(initial, h, c, u, cand, log, q, hi);
      }
      MajoritiesMeet(c.quorum, ConfigOf(initial, Written(h, c.term, c.length)), q, ConfigOf(initial, log));
      var v :| v in c.quorum && v in q;
      VoterPassesItOn(initial, h, c, u, cand, log, v, hi);
      assert false;
    }
  }

  lemma VoterPassesItOn(initial: set<NodeId>, h: History, c: Commit, u: nat, cand: NodeId, log: Log, v: NodeId, hi: nat)
    requires HistoryOK(initial, h) && c in h.commits && c.term < u <= hi + 1
    requires Genuine(h, log, u - 1) && Supports(h, u, cand, log, v, hi) && v in c.quorum
    requires forall w | c.term < w <= hi && w in h.elected :: Holds(h, c, h.elected[w].base)
    requires LastTerm(log) <= c.term
    ensures Holds(h, c, log)
  {
    assert CommitOK(initial, h, c) && ElectionOK(initial, h, c.term);
    assert Acked(h, c.term, v, c.index);
    var own := h.ballots[Slot(u, v)].log;
    assert BallotOK(h, Slot(u, v));
    assert !Lost(h, c.term, c.index, hi);
    assert Written(h, c.term, c.index) <= own;
    assert own[c.index - 1].term == c.term;
    LastTermBounds(initial, h, own, u, c.index - 1);
    assert log != [];
    ContainsBase(initial, h, log, u - 1);
  }

  /** The winner's log ends in the committing leader's own term but is too short. */
  lemma {:induction false} CloseInSameTerm(initial: set<NodeId>, h: History, c: Commit, u: nat, cand: NodeId, log: Log, q: set<NodeId>, hi: nat)
    requires HistoryOK(initial, h) && c in h.commits && c.term < u
    requires u - 1 <= hi <= u
    requires Genuine(h, log, u - 1) && Won(initial, h, u, cand, log, q, hi)
    requires LastTerm(log) == c.term && !Holds(h, c, log)
    ensures Close(ConfigOf(initial, Written(h, c.term, c.length)), ConfigOf(initial, log))
    decreases c.term, hi, c.length, 0
  {
    assert CommitOK(initial, h, c) && ElectionOK(initial, h, c.term);
    ContainsBase(initial, h, log, u - 1);
    var full, k := Written(h, c.term, c.length), |log|;
    assert k < c.index && full[..k] == log;
    forall i, j | k <= i < j < |full| ensures !(ConfigAt(full, i) && ConfigAt(full, j)) {
      if ConfigAt(full, i) && ConfigAt(full, j) {
        assert ConfigAt(h.leaderLog[c.term], i) && ConfigAt(h.leaderLog[c.term], j);
        assert ChangeOK(initial, h, c.term, j);
        var d :| Clears(h, c.term, j, d);
        assert CommitOK(initial, h, d);
        CommitSurvives(initial, h, d, u, cand, log, q, hi);
        assert false;
      }
    }
    forall j | k <= j < |full| && ConfigAt(full, j) ensures OneApart(full[j].command.voters, ConfigOf(initial, full[..j])) {
      assert ConfigAt(h.leaderLog[c.term], j);
      assert ChangeOK(initial, h, c.term, j);
      assert Written(h, c.term, j) == full[..j];
    }
    ConfigCloseAbove(initial, full, k);
    CloseSymmetric(ConfigOf(initial, full), ConfigOf(initial, log));
  }

  /** The winner's log has nothing of the committing leader's term. */
  lemma {:induction false} CloseAcrossTerms(initial: set<NodeId>, h: History, c: Commit, u: nat, cand: NodeId, log: Log, q: set<NodeId>, hi: nat)
    requires HistoryOK(initial, h) && c in h.commits && c.term < u
    requires u - 1 <= hi <= u
    requires Genuine(h, log, u - 1) && Won(initial, h, u, cand, log, q, hi)
    requires LastTerm(log) < c.term
    ensures Close(ConfigOf(initial, Written(h, c.term, c.length)), ConfigOf(initial, log))
    decreases c.term, hi, c.length, 0
  {
    assert CommitOK(initial, h, c) && ElectionOK(initial, h, c.term);
    var e := h.elected[c.term];
    var full := Written(h, c.term, c.length);
    forall j | |e.base| <= j < |full| ensures !ConfigAt(full, j) {
      if ConfigAt(full, j) {
        assert ConfigAt(h.leaderLog[c.term], j);
        assert ChangeOK(initial, h, c.term, j);
        var d :| Clears(h, c.term, j, d);
        CommitSurvives(initial, h, d, u, cand, log, q, hi);
        assert CommitOK(initial, h, d);
        assert log[d.index - 1].term == c.term;
        LastTermBounds(initial, h, log, u - 1, d.index - 1);
      }
    }
    ConfigUnchanged(initial, full, |e.base|);
    assert full[..|e.base|] == e.base;
    forall d | d in h.commits && d.term < c.term ensures Holds(h, d, e.base) && Holds(h, d, log) {
      CommitSurvives(initial, h, d, c.term, e.leader, e.base, e.quorum, c.term - 1);
      CommitSurvives(initial, h, d, u, cand, log, q, hi);
    }
    BaseBelowTerm(initial, h, c.term);
    ForkedConfigsClose(initial, h, e.base, log, u);
  }

  lemma BaseBelowTerm(initial: set<NodeId>, h: History, t: nat)
    requires HistoryOK(initial, h) && t in h.elected
    ensures LastTerm(h.elected[t].base) < t && Genuine(h, h.elected[t].base, t - 1)
  {
    assert ElectionOK(initial, h, t);
  }

  /** Leader Completeness for elected leaders. */
  lemma LeaderCompleteness(initial: set<NodeId>, h: History, c: Commit, u: nat)
    requires HistoryOK(initial, h) && c in h.commits && u in h.elected && c.term < u
    ensures Holds(h, c, h.elected[u].base) && Holds(h, c, h.leaderLog[u])
  {
    assert ElectionOK(initial, h, u);
    var e := h.elected[u];
    CommitSurvives(initial, h, c, u, e.leader, e.base, e.quorum, u - 1);
  }

  /** Two winners of the same term have configurations whose majorities meet. */
  lemma WinnersMeet(initial: set<NodeId>, h: History, u: nat, cand: NodeId, log: Log, q: set<NodeId>)
    requires HistoryOK(initial, h) && u in h.elected
    requires Genuine(h, log, u - 1) && Won(initial, h, u, cand, log, q, u)
    ensures cand == h.elected[u].leader
  {
    assert ElectionOK(initial, h, u);
    var e := h.elected[u];
    forall d | d in h.commits && d.term < u ensures Holds(h, d, e.base) && Holds(h, d, log) {
      CommitSurvives(initial, h, d, u, e.leader, e.base, e.quorum, u - 1);
      CommitSurvives(initial, h, d, u, cand, log, q, u);
    }
    ForkedConfigsClose(initial, h, e.base, log, u);
    MajoritiesMeet(e.quorum, ConfigOf(initial, e.base), q, ConfigOf(initial, log));
    var v :| v in e.quorum && v in q;
    assert Supports(h, u, e.leader, e.base, v, u - 1) && Supports(h, u, cand, log, v, u);
  }

  /** Agreement: two commits agree on every index both cover. */
  lemma CommitsAgree(initial: set<NodeId>, h: History, c: Commit, d: Commit, n: nat)
    requires HistoryOK(initial, h) && c in h.commits && d in h.commits
    requires n <= c.index && n <= d.index
    ensures Written(h, c.term, n) == Written(h, d.term, n)
  {
    assert CommitOK(initial, h, c) && CommitOK(initial, h, d);
    if c.term < d.term {
      LeaderCompleteness(initial, h, c, d.term);
      assert Written(h, c.term, c.index)[..n] == Written(h, c.term, n);
    } else if d.term < c.term {
      LeaderCompleteness(initial, h, d, c.term);
      assert Written(h, d.term, d.index)[..n] == Written(h, d.term, n);
    }
  }
}
