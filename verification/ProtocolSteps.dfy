/** The elementary steps servers take, and the proof that each keeps the protocol invariant.
    A handler of RaftNode is a short sequence of these (see Cluster). */
module ProtocolSteps {
  import opened Types
  import opened Logs
  import opened Protocol

  // ---- how one server's step may add to the ledger ----

  /** h' adds to h what server i may add while in term t. */
  ghost predicate Extends(h: History, h': History, i: NodeId, t: nat) {
    && (forall k | k in h.campaigns :: k in h'.campaigns && h'.campaigns[k] == h.campaigns[k])
    && (forall k | k in h'.campaigns && k !in h.campaigns :: k == Slot(t, i))
    && (forall k | k in h.ballots :: k in h'.ballots && h'.ballots[k] == h.ballots[k])
    && (forall k | k in h'.ballots && k !in h.ballots :: k == Slot(t, i))
    && (forall u | u in h.elected :: u in h'.elected && h'.elected[u] == h.elected[u])
    && (forall u | u in h'.elected && u !in h.elected :: u == t && h'.elected[u].leader == i)
    && (forall u | u in h.leaderLog :: u in h'.leaderLog && h.leaderLog[u] <= h'.leaderLog[u])
    && (forall u | u in h.leaderLog && h'.leaderLog[u] != h.leaderLog[u] :: u == t && u in h.elected && h.elected[u].leader == i)
    && (forall j | t in h.leaderLog && |h.leaderLog[t]| <= j < |h'.leaderLog[t]| :: h'.leaderLog[t][j].term == t)
    && h'.leaderLog.Keys == h'.elected.Keys
    && (forall k | k in h.acked :: k in h'.acked && h.acked[k] <= h'.acked[k])
    && (forall k | k in h'.acked :: k == Slot(t, i) || (k in h.acked && h'.acked[k] == h.acked[k]))
    && h.commits <= h'.commits
    && (forall c | c in h'.commits && c !in h.commits :: c.term == t && t in h'.elected && h'.elected[t].leader == i)
  }

  lemma WrittenStable(h: History, h': History, i: NodeId, now: nat, t: nat, m: nat)
    requires Extends(h, h', i, now) && t in h.leaderLog && m <= |h.leaderLog[t]|
    ensures Written(h', t, m) == Written(h, t, m)
  {
    assert h.leaderLog[t] <= h'.leaderLog[t];
  }

  lemma LostStable(h: History, h': History, i: NodeId, now: nat, t: nat, m: nat, hi: int)
    requires Extends(h, h', i, now) && Lost(h, t, m, hi)
    ensures Lost(h', t, m, hi)
  {
    var w :| t < w <= hi && w in h.elected && !(Written(h, t, m) <= h.elected[w].base);
    WrittenStable(h, h', i, now, t, m);
    assert w in h'.elected;
  }

  lemma GenuineStable(h: History, h': History, i: NodeId, now: nat, log: Log, top: int)
    requires Extends(h, h', i, now) && Genuine(h, log, top)
    ensures Genuine(h', log, top)
  {
    forall j | 0 <= j < |log|
      ensures log[j].term <= top && log[j].term in h'.leaderLog && log[..j + 1] <= h'.leaderLog[log[j].term]
    {
      assert h.leaderLog[log[j].term] <= h'.leaderLog[log[j].term];
    }
  }

  lemma ReflectsStable(initial: set<NodeId>, h: History, h': History, i: NodeId, now: nat, log: Log, v: NodeId, u: nat, hi: int)
    requires HistoryOK(initial, h) && Extends(h, h', i, now) && Reflects(h, log, v, u, hi)
    requires v == i ==> u <= now
    ensures Reflects(h', log, v, u, hi)
  {
    forall t: nat, m: nat | t < u && Acked(h', t, v, m) ensures Written(h', t, m) <= log || Lost(h', t, m, hi) {
      assert AckOK(h, Slot(t, v)) && Acked(h, t, v, m);
      WrittenStable(h, h', i, now, t, m);
      if Lost(h, t, m, hi) { LostStable(h, h', i, now, t, m, hi); }
    }
  }

  lemma CoveredStable(initial: set<NodeId>, h: History, h': History, i: NodeId, now: nat, log: Log, n: nat, top: nat)
    requires HistoryOK(initial, h) && Extends(h, h', i, now) && Covered(h, log, n, top)
    ensures Covered(h', log, n, top)
  {
    if n > 0 {
      var c :| CoveredBy(h, log, n, top, c);
      assert CommitOK(initial, h, c);
      WrittenStable(h, h', i, now, c.term, n);
      assert CoveredBy(h', log, n, top, c);
    }
  }

  lemma SupportsStable(initial: set<NodeId>, h: History, h': History, i: NodeId, now: nat, u: nat, cand: NodeId, log: Log, v: NodeId, hi: int)
    requires HistoryOK(initial, h) && Extends(h, h', i, now) && Supports(h, u, cand, log, v, hi)
    requires UsesSlotsUpTo(h, i, now)
    ensures Supports(h', u, cand, log, v, hi)
  {
    ReflectsStable(initial, h, h', i, now, h.ballots[Slot(u, v)].log, v, u, hi);
  }

  lemma ElectionStable(initial: set<NodeId>, h: History, h': History, i: NodeId, now: nat, t: nat)
    requires HistoryOK(initial, h) && Extends(h, h', i, now) && UsesSlotsUpTo(h, i, now) && t in h.elected
    ensures ElectionOK(initial, h', t)
  {
    assert ElectionOK(initial, h, t);
    var e := h.elected[t];
    GenuineStable(h, h', i, now, e.base, t - 1);
    forall v | v in e.quorum ensures Supports(h', t, e.leader, e.base, v, t - 1) {
      assert Supports(h, t, e.leader, e.base, v, t - 1);
      SupportsStable(initial, h, h', i, now, t, e.leader, e.base, v, t - 1);
    }
    var log, log' := h.leaderLog[t], h'.leaderLog[t];
    forall j | |e.base| <= j < |log'| ensures log'[j].term == t {
      if j < |log| { assert log'[j] == log[j]; }
    }
  }

  lemma CommitStable(initial: set<NodeId>, h: History, h': History, i: NodeId, now: nat, c: Commit)
    requires HistoryOK(initial, h) && Extends(h, h', i, now) && c in h.commits
    ensures CommitOK(initial, h', c)
  {
    assert CommitOK(initial, h, c);
    WrittenStable(h, h', i, now, c.term, c.length);
    forall v | v in c.quorum ensures Acked(h', c.term, v, c.index) {
      assert Acked(h, c.term, v, c.index);
    }
  }

  lemma ClearsStable(h: History, h': History, i: NodeId, now: nat, t: nat, j: nat, c: Commit)
    requires Extends(h, h', i, now) && Clears(h, t, j, c) && j <= |h.leaderLog[t]|
    ensures Clears(h', t, j, c)
  {
    forall x | |h'.elected[t].base| <= x < j && ConfigAt(h'.leaderLog[t], x) ensures x < c.index {
      assert h'.leaderLog[t][x] == h.leaderLog[t][x];
      assert ConfigAt(h.leaderLog[t], x);
    }
  }

  lemma ChangeStable(initial: set<NodeId>, h: History, h': History, i: NodeId, now: nat, t: nat, j: nat)
    requires Extends(h, h', i, now) && ChangeOK(initial, h, t, j)
    ensures ChangeOK(initial, h', t, j)
  {
    var c :| Clears(h, t, j, c);
    ClearsStable(h, h', i, now, t, j, c);
    WrittenStable(h, h', i, now, t, j);
    assert h'.leaderLog[t][j] == h.leaderLog[t][j];
  }

  ghost predicate AdditionsOK(initial: set<NodeId>, h: History, h': History, i: NodeId, now: nat) {
    && (now in h'.elected && now !in h.elected ==> ElectionOK(initial, h', now) && h'.leaderLog[now] == h'.elected[now].base)
    && (forall c {:trigger CommitOK(initial, h', c)} | c in h'.commits && c !in h.commits :: CommitOK(initial, h', c))
    && (forall j: nat {:trigger ChangeOK(initial, h', now, j)} |
          now in h.leaderLog && |h.leaderLog[now]| <= j && now in h'.leaderLog && ConfigAt(h'.leaderLog[now], j) :: ChangeOK(initial, h', now, j))
    && (Slot(now, i) in h'.campaigns && Slot(now, i) !in h.campaigns ==> CampaignOK(h', Slot(now, i)))
    && (Slot(now, i) in h'.ballots && Slot(now, i) !in h.ballots ==> BallotOK(h', Slot(now, i)))
    && (Slot(now, i) in h'.acked ==> AckOK(h', Slot(now, i)))
  }

  lemma ChangesPersist(initial: set<NodeId>, h: History, h': History, i: NodeId, now: nat, t: nat, j: nat)
    requires HistoryOK(initial, h) && Extends(h, h', i, now) && AdditionsOK(initial, h, h', i, now)
    requires t in h'.elected && |h'.elected[t].base| <= j && ConfigAt(h'.leaderLog[t], j)
    ensures ChangeOK(initial, h', t, j)
  {
    if t in h.elected && j < |h.leaderLog[t]| {
      assert h'.leaderLog[t][j] == h.leaderLog[t][j];
      assert ChangeOK(initial, h, t, j);
      ChangeStable(initial, h, h', i, now, t, j);
    } else if t in h.elected {
      assert h'.leaderLog[t] != h.leaderLog[t];
    }
  }

  lemma CampaignsPersist(initial: set<NodeId>, h: History, h': History, i: NodeId, now: nat, k: Slot)
    requires HistoryOK(initial, h) && Extends(h, h', i, now) && AdditionsOK(initial, h, h', i, now)
    requires k in h'.campaigns
    ensures CampaignOK(h', k)
  {
    if k in h.campaigns {
      assert CampaignOK(h, k);
      GenuineStable(h, h', i, now, h.campaigns[k], k.term - 1);
    }
  }

  lemma BallotsPersist(initial: set<NodeId>, h: History, h': History, i: NodeId, now: nat, k: Slot)
    requires HistoryOK(initial, h) && Extends(h, h', i, now) && UsesSlotsUpTo(h, i, now) && AdditionsOK(initial, h, h', i, now)
    requires k in h'.ballots
    ensures BallotOK(h', k)
  {
    if k in h.ballots {
      assert BallotOK(h, k);
      GenuineStable(h, h', i, now, h.ballots[k].log, k.term);
      ReflectsStable(initial, h, h', i, now, h.ballots[k].log, k.node, k.term, k.term);
    }
  }

  /** Everything recorded before a step stays in order; what remains is what the step adds. */
  lemma HistoryPersists(initial: set<NodeId>, h: History, h': History, i: NodeId, now: nat)
    requires HistoryOK(initial, h) && Extends(h, h', i, now) && UsesSlotsUpTo(h, i, now)
    requires AdditionsOK(initial, h, h', i, now)
    ensures HistoryOK(initial, h')
  {
    forall t | t in h'.elected ensures ElectionOK(initial, h', t) {
      if t in h.elected { ElectionStable(initial, h, h', i, now, t); }
    }
    forall c | c in h'.commits ensures CommitOK(initial, h', c) {
      if c in h.commits { CommitStable(initial, h, h', i, now, c); }
    }
    forall t: nat, j: nat | t in h'.elected && |h'.elected[t].base| <= j && ConfigAt(h'.leaderLog[t], j)
      ensures ChangeOK(initial, h', t, j)
    {
      ChangesPersist(initial, h, h', i, now, t, j);
    }
    forall k | k in h'.campaigns ensures CampaignOK(h', k) { CampaignsPersist(initial, h, h', i, now, k); }
    forall k | k in h'.ballots ensures BallotOK(h', k) { BallotsPersist(initial, h, h', i, now, k); }
    forall k | k in h'.acked ensures AckOK(h', k) {
      if k != Slot(now, i) { assert AckOK(h, k); }
    }
  }

  lemma CoveredInLonger(h: History, log: Log, log': Log, n: nat, top: nat)
    requires Covered(h, log, n, top) && log <= log'
    ensures Covered(h, log', n, top)
  {
    if n > 0 {
      var c :| CoveredBy(h, log, n, top, c);
      assert CoveredBy(h, log', n, top, c);
    }
  }

  lemma PacketStable(initial: set<NodeId>, h: History, h': History, i: NodeId, now: nat, pk: Packet)
    requires HistoryOK(initial, h) && Extends(h, h', i, now) && PacketOK(h, pk)
    ensures PacketOK(h', pk)
  {
    hide HistoryOK;
    match pk.msg
    case AppendEntries(_, _, _, _, _, _) => SliceStable(initial, h, h', i, now, pk);
    case _ =>
  }

  lemma SliceStable(initial: set<NodeId>, h: History, h': History, i: NodeId, now: nat, pk: Packet)
    requires HistoryOK(initial, h) && Extends(h, h', i, now) && PacketOK(h, pk) && pk.msg.AppendEntries?
    ensures PacketOK(h', pk)
  {
    hide HistoryOK, Extends, Covered;
    var t, lc, prev, es := pk.msg.term, pk.msg.leaderCommit, pk.msg.prevIndex, pk.msg.entries;
    LeaderLogGrows(h, h', i, now, t);
    assert h'.leaderLog[t][prev..prev + |es|] == h.leaderLog[t][prev..prev + |es|];
    assert h'.leaderLog[t][..prev] == h.leaderLog[t][..prev];
    CoveredStable(initial, h, h', i, now, h.leaderLog[t], lc, t);
    CoveredInLonger(h', h.leaderLog[t], h'.leaderLog[t], lc, t);
  }

  lemma LeaderLogGrows(h: History, h': History, i: NodeId, now: nat, t: nat)
    requires Extends(h, h', i, now) && t in h.leaderLog
    ensures t in h'.leaderLog && h.leaderLog[t] <= h'.leaderLog[t]
  {}

  lemma OtherNodeStable(initial: set<NodeId>, h: History, h': History, i: NodeId, now: nat, j: NodeId, n: Core)
    requires HistoryOK(initial, h) && Extends(h, h', i, now) && NodeOK(h, j, n) && j != i
    ensures NodeOK(h', j, n)
  {
    GenuineStable(h, h', i, now, n.log, n.term);
    CoveredStable(initial, h, h', i, now, n.log, n.commit, n.term);
    ReflectsStable(initial, h, h', i, now, n.log, j, n.term + 1, n.term);
  }

  /** A step of server i: its new state, the messages it adds and what it records. */
  function Step(s: State, i: NodeId, n: Core, added: set<Packet>, h: History): State
  {
    s.(nodes := s.nodes[i := n], net := s.net + added, h := h)
  }

  /** Nothing recorded is ever revised. */
  ghost predicate Grows(h: History, h': History) {
    && (forall u | u in h.elected :: u in h'.elected && h'.elected[u] == h.elected[u])
    && (forall u | u in h.leaderLog :: u in h'.leaderLog && h.leaderLog[u] <= h'.leaderLog[u])
    && h.commits <= h'.commits
  }

  /** Only server i acknowledged anything new. */
  ghost predicate AcksBy(h: History, h': History, i: NodeId) {
    forall k | k in h'.acked :: k in h.acked || k.node == i
  }

  /** One or more steps of server i, all of which keep the invariant. */
  ghost predicate Advances(s: State, s': State, i: NodeId) {
    && Inv(s') && Grows(s.h, s'.h) && AcksBy(s.h, s'.h, i)
    && s'.initial == s.initial && s.net <= s'.net
    && i in s'.nodes && s'.nodes == s.nodes[i := s'.nodes[i]]
  }

  lemma GrowsTransitive(h1: History, h2: History, h3: History)
    requires Grows(h1, h2) && Grows(h2, h3)
    ensures Grows(h1, h3)
  {
    forall u | u in h1.leaderLog ensures u in h3.leaderLog && h1.leaderLog[u] <= h3.leaderLog[u] {
      assert u in h2.leaderLog && h1.leaderLog[u] <= h2.leaderLog[u] <= h3.leaderLog[u];
    }
  }

  lemma AdvancesTransitive(s1: State, s2: State, s3: State, i: NodeId)
    requires Advances(s1, s2, i) && Advances(s2, s3, i)
    ensures Advances(s1, s3, i)
  {
    GrowsTransitive(s1.h, s2.h, s3.h);
  }

  lemma AdvancesReflexive(s: State, i: NodeId)
    requires Inv(s) && i in s.nodes
    ensures Advances(s, s, i)
  {}

  lemma StepKeepsInv(s: State, i: NodeId, n: Core, added: set<Packet>, h': History, now: nat)
    requires Inv(s) && i in s.nodes
    requires Extends(s.h, h', i, now) && HistoryOK(s.initial, h')
    requires NodeOK(h', i, n)
    requires forall pk {:trigger PacketOK(h', pk)} | pk in added :: PacketOK(h', pk)
    ensures Advances(s, Step(s, i, n, added, h'), i)
  {
    var s' := Step(s, i, n, added, h');
    forall j | j in s'.nodes ensures NodeOK(h', j, s'.nodes[j]) {
      if j != i {
        assert NodeOK(s.h, j, s.nodes[j]);
        OtherNodeStable(s.initial, s.h, h', i, now, j, s.nodes[j]);
      }
    }
    forall pk | pk in s'.net ensures PacketOK(h', pk) {
      if pk in s.net {
        assert PacketOK(s.h, pk);
        PacketStable(s.initial, s.h, h', i, now, pk);
      }
    }
  }

  /** A step that records nothing new. */
  lemma QuietStepKeepsInv(s: State, i: NodeId, n: Core, added: set<Packet>)
    requires Inv(s) && i in s.nodes
    requires NodeOK(s.h, i, n)
    requires forall pk {:trigger PacketOK(s.h, pk)} | pk in added :: PacketOK(s.h, pk)
    ensures Advances(s, Step(s, i, n, added, s.h), i)
  {
    assert NodeOK(s.h, i, s.nodes[i]);
    StepKeepsInv(s, i, n, added, s.h, s.nodes[i].term);
  }
}
