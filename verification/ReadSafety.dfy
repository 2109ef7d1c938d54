/** The core of ReadIndex: acknowledgements from a majority in a leader's own term rule out that a newer
    leader had been elected when the read was requested, even while the configuration changes. */
module ReadSafety {
  import opened Types
  import opened Quorums
  import opened Logs
  import opened Protocol
  import opened Safety
  import opened ProtocolSteps

  /** Server v had not voted above term t. */
  predicate StaysBelow(h: History, v: NodeId, t: nat) {
    forall k | k in h.ballots && k.node == v :: k.term <= t
  }

  /** The first leader elected after term t starts from a prefix of leader t's log, once t has
      committed an entry of its own. */
  lemma NextLeaderStartsInside(initial: set<NodeId>, h: History, c: Commit, u: nat)
    requires HistoryOK(initial, h) && c in h.commits && u in h.elected && c.term < u
    requires forall w | c.term < w < u :: w !in h.elected
    ensures c.term in h.leaderLog && h.elected[u].base <= h.leaderLog[c.term]
    ensures c.index <= |h.elected[u].base|
  {
    hide Won;
    LeaderCompleteness(initial, h, c, u);
    var base := h.elected[u].base;
    assert CommitOK(initial, h, c) && ElectionOK(initial, h, u) && ElectionOK(initial, h, c.term);
    assert base[c.index - 1] == Written(h, c.term, c.index)[c.index - 1] == h.leaderLog[c.term][c.index - 1];
    TermsSorted(initial, h, base, u - 1, c.index - 1, |base| - 1);
    var last := base[|base| - 1];
    assert last.term <= u - 1 && last.term in h.elected;
    assert base[..|base|] == base;
  }

  /** At most one of the leader's configuration entries lies above the next leader's start. */
  lemma OneChangeAbove(initial: set<NodeId>, h: History, t: nat, u: nat, i: nat, j: nat)
    requires HistoryOK(initial, h) && t in h.elected && u in h.elected && t < u
    requires |h.elected[t].base| <= i < j && |h.elected[u].base| <= i && ConfigAt(h.leaderLog[t], j)
    ensures !ConfigAt(h.leaderLog[t], i)
  {
    hide ElectionOK, CommitOK;
    assert ChangeOK(initial, h, t, j);
    var d :| Clears(h, t, j, d);
    LeaderCompleteness(initial, h, d, u);
    WrittenLength(initial, h, d);
  }

  lemma WrittenLength(initial: set<NodeId>, h: History, d: Commit)
    requires HistoryOK(initial, h) && d in h.commits
    ensures |Written(h, d.term, d.index)| == d.index
  {
    assert CommitOK(initial, h, d);
  }

  lemma ConfigsStayClose(initial: set<NodeId>, h: History, t: nat, u: nat)
    requires HistoryOK(initial, h) && t in h.elected && u in h.elected && t < u
    requires h.elected[u].base <= h.leaderLog[t] && |h.elected[t].base| <= |h.elected[u].base|
    ensures Close(ConfigOf(initial, h.elected[u].base), ConfigOf(initial, h.leaderLog[t]))
  {
    var log, k := h.leaderLog[t], |h.elected[u].base|;
    forall j | k <= j < |log| && ConfigAt(log, j) ensures OneApart(log[j].command.voters, ConfigOf(initial, log[..j])) {
      assert ChangeOK(initial, h, t, j);
    }
    forall i, j | k <= i < j < |log| ensures !(ConfigAt(log, i) && ConfigAt(log, j)) {
      if ConfigAt(log, j) { OneChangeAbove(initial, h, t, u, i, j); }
    }
    hide HistoryOK, ConfigAt, OneApart;
    ConfigCloseAbove(initial, log, k);
    assert log[..k] == h.elected[u].base;
  }

  /** h is the ledger when the read was requested, h' when it is served: a majority of the configuration
      then in force had not moved past the leader's term. So no newer leader existed. */
  lemma {:induction false} NoNewerLeader(initial: set<NodeId>, h: History, h': History, c: Commit, q: set<NodeId>, hi: nat)
    requires HistoryOK(initial, h) && HistoryOK(initial, h') && Grows(h, h') && c in h.commits
    requires c.term in h'.leaderLog && Majority(q, ConfigOf(initial, h'.leaderLog[c.term]))
    requires forall v | v in q :: StaysBelow(h, v, c.term)
    ensures forall u | c.term < u <= hi :: u !in h.elected
    decreases hi
  {
    hide HistoryOK, Grows, Majority, ConfigOf;
    if hi > c.term {
      NoNewerLeader(initial, h, h', c, q, hi - 1);
      if hi in h.elected {
        var v := SharedVoter(initial, h, h', c, q, hi);
        assert false;
      }
    }
  }

  /** The next leader's voters and any majority of the older leader's configuration share a server. */
  lemma SharedVoter(initial: set<NodeId>, h: History, h': History, c: Commit, q: set<NodeId>, u: nat) returns (v: NodeId)
    requires HistoryOK(initial, h) && HistoryOK(initial, h') && Grows(h, h') && c in h.commits
    requires c.term in h'.leaderLog && Majority(q, ConfigOf(initial, h'.leaderLog[c.term]))
    requires c.term < u && u in h.elected && forall w | c.term < w < u :: w !in h.elected
    ensures v in q && Slot(u, v) in h.ballots
  {
    hide HistoryOK, Grows, Majority, Close, ConfigOf;
    var e := h.elected[u];
    NextLeaderFits(initial, h, h', c, u);
    ElectedQuorum(initial, h, u);
    ConfigsStayClose(initial, h', c.term, u);
    MajoritiesMeet(e.quorum, ConfigOf(initial, e.base), q, ConfigOf(initial, h'.leaderLog[c.term]));
    v :| v in e.quorum && v in q;
  }

  lemma NextLeaderFits(initial: set<NodeId>, h: History, h': History, c: Commit, u: nat)
    requires HistoryOK(initial, h) && Grows(h, h') && c in h.commits && u in h.elected && c.term < u
    requires forall w | c.term < w < u :: w !in h.elected
    ensures u in h'.elected && h'.elected[u] == h.elected[u] && c.term in h'.elected && c.term in h'.leaderLog
    ensures h'.elected[u].base <= h'.leaderLog[c.term] && |h'.elected[c.term].base| <= |h'.elected[u].base|
  {
    NextLeaderStartsInside(initial, h, c, u);
    assert CommitOK(initial, h, c);
    assert h.leaderLog[c.term] <= h'.leaderLog[c.term];
  }

  lemma ElectedQuorum(initial: set<NodeId>, h: History, u: nat)
    requires HistoryOK(initial, h) && u in h.elected
    ensures Majority(h.elected[u].quorum, ConfigOf(initial, h.elected[u].base))
    ensures forall v | v in h.elected[u].quorum :: Slot(u, v) in h.ballots
  {
    hide Majority, Reflects, Genuine;
    assert ElectionOK(initial, h, u);
    var e := h.elected[u];
    forall v | v in e.quorum ensures Slot(u, v) in h.ballots { assert Supports(h, u, e.leader, e.base, v, u - 1); }
  }

  /** Without a newer leader, a commit of the leader's own term is the latest of all. */
  lemma OwnCommitIsLatest(initial: set<NodeId>, h: History, c: Commit, d: Commit)
    requires HistoryOK(initial, h) && c in h.commits && d in h.commits
    requires forall e | e in h.commits && e.term == c.term :: e.index <= c.index
    requires d.term <= c.term
    ensures d.index <= c.index
  {
    assert CommitOK(initial, h, c);
    if d.term < c.term {
      LeaderCompleteness(initial, h, d, c.term);
      WrittenLength(initial, h, d);
    }
  }
}
