/** The safety properties of Raft, for every run of a cluster: crashes, restarts, message loss,
    duplication and reordering, and single-server membership changes in flight
    (raftverified/invariants.py states them per step; node.py is meant to keep them). */
module ClusterSafety {
  import opened Types
  import opened Logs
  import opened Replicas
  import opened NodeSpec
  import opened Protocol
  import opened Safety
  import opened ProtocolSteps
  import opened NodeRefinement
  import opened Cluster
  import opened ClusterRefinement

  // ---- shadowing whole runs ----

  const NO_HISTORY := History(map[], map[], map[], map[], map[], {})

  function StartState(c: Cluster): State {
    State(c.initial, map i | i in c.nodes :: CoreOf(c.nodes[i]), {}, NO_HISTORY)
  }

  lemma StartNode(c: Cluster, i: NodeId)
    requires Starts(c) && i in c.nodes
    ensures NodeOK(NO_HISTORY, i, CoreOf(c.nodes[i])) && Shadow(StartState(c), i, c.nodes[i])
  {}

  lemma StartShadowed(c: Cluster)
    requires Starts(c)
    ensures Shadows(StartState(c), c)
  {
    hide NodeOK, Shadow;
    var s := StartState(c);
    forall i | i in s.nodes ensures NodeOK(s.h, i, s.nodes[i]) { StartNode(c, i); }
    forall i | i in c.nodes ensures Shadow(s, i, c.nodes[i]) { StartNode(c, i); }
  }

  /** The protocol states behind a run. */
  ghost predicate ShadowRun(r: Execution, ss: seq<State>) {
    && |ss| == |r.states|
    && (forall k {:trigger Shadows(ss[k], r.states[k])} | 0 <= k < |ss| :: Shadows(ss[k], r.states[k]))
    && (forall j, k {:trigger Later(ss[j], ss[k])} | 0 <= j <= k < |ss| :: Later(ss[j], ss[k]))
  }

  ghost predicate Later(s: State, s': State) {
    Grows(s.h, s'.h) && s.net <= s'.net && s.nodes.Keys == s'.nodes.Keys && s'.initial == s.initial
  }

  lemma LaterTransitive(s1: State, s2: State, s3: State)
    requires Later(s1, s2) && Later(s2, s3)
    ensures Later(s1, s3)
  {
    hide Grows;
    GrowsTransitive(s1.h, s2.h, s3.h);
  }

  lemma {:induction false} RunShadowed(r: Execution) returns (ss: seq<State>)
    requires IsRun(r)
    ensures ShadowRun(r, ss)
    decreases |r.events|
  {
    hide Starts, StepBy, Shadows, Later;
    if |r.events| == 0 {
      ss := [StartState(r.states[0])];
      StartShadowed(r.states[0]);
      LaterReflexive(ss[0]);
    } else {
      var n := |r.events|;
      var front := RunShadowed(Before(r));
      assert Shadows(front[n - 1], r.states[n - 1]) by { assert Shadows(front[n - 1], Before(r).states[n - 1]); }
      var s' := StepRefines(front[n - 1], r.states[n - 1], r.events[n - 1], r.states[n]);
      ss := front + [s'];
      ShadowExtended(r, front, s');
    }
  }

  lemma LaterReflexive(s: State)
    ensures Later(s, s)
  {}

  lemma AdvanceIsLater(s: State, s': State, i: NodeId)
    requires Advances(s, s', i) && i in s.nodes
    ensures Later(s, s')
  {
    hide Inv, Grows;
  }

  lemma ActorLives(s: State, c: Cluster, e: Event)
    requires Shadows(s, c) && Enabled(c, e)
    ensures Actor(e) in s.nodes
  {}

  lemma ShadowExtended(r: Execution, front: seq<State>, s': State)
    requires IsRun(r) && |r.events| > 0 && ShadowRun(Before(r), front)
    requires Shadows(s', r.states[|r.events|]) && Advances(front[|front| - 1], s', Actor(r.events[|r.events| - 1]))
    ensures ShadowRun(r, front + [s'])
  {
    hide Starts, StepBy, Shadows, Later, Advances;
    var n := |r.events|;
    var ss := front + [s'];
    assert Shadows(front[n - 1], Before(r).states[n - 1]);
    assert Enabled(r.states[n - 1], r.events[n - 1]) by { StepEnabled(r, n - 1); }
    ActorLives(front[n - 1], r.states[n - 1], r.events[n - 1]);
    AdvanceIsLater(front[n - 1], s', Actor(r.events[n - 1]));
    forall k | 0 <= k < |ss| ensures Shadows(ss[k], r.states[k]) {
      if k < n { assert Shadows(front[k], Before(r).states[k]); }
    }
    forall j, k | 0 <= j <= k < |ss| ensures Later(ss[j], ss[k]) {
      if k < n { assert Later(front[j], front[k]); }
      else if j < n { assert Later(front[j], front[n - 1]); LaterTransitive(front[j], front[n - 1], s'); }
      else { LaterReflexive(s'); }
    }
  }

  lemma StepEnabled(r: Execution, k: nat)
    requires IsRun(r) && k < |r.events|
    ensures StepBy(r.states[k], r.events[k], r.states[k + 1]) && Enabled(r.states[k], r.events[k])
  {}

  // ---- what a server's state says in terms of the ledger, now and later ----

  predicate At(r: Execution, k: nat, i: NodeId) {
    IsRun(r) && k < |r.states| && i in r.states[k].nodes
  }

  function NodeAt(r: Execution, k: nat, i: NodeId): NodeState
    requires At(r, k, i)
  {
    r.states[k].nodes[i]
  }

  function LogAt(r: Execution, k: nat, i: NodeId): Log
    requires At(r, k, i)
  {
    NodeAt(r, k, i).replica.log
  }

  /** The entries server i knows to be committed. */
  function CommittedAt(r: Execution, k: nat, i: NodeId): Log
    requires At(r, k, i)
  {
    var n := NodeAt(r, k, i);
    if n.replica.commit <= |n.replica.log| then n.replica.log[..n.replica.commit] else []
  }

  predicate LeadsAt(r: Execution, k: nat, i: NodeId, term: nat) {
    At(r, k, i) && NodeAt(r, k, i).role.Leader? && NodeAt(r, k, i).term == term
  }

  lemma AtRun(r: Execution, k: nat, i: NodeId, term: nat)
    requires LeadsAt(r, k, i, term)
    ensures At(r, k, i) && IsRun(r) && k < |r.states|
  {}

  lemma RunLength(r: Execution, ss: seq<State>)
    requires ShadowRun(r, ss)
    ensures |ss| == |r.states|
  {}

  lemma HistoryHolds(r: Execution, ss: seq<State>, z: nat)
    requires ShadowRun(r, ss) && z < |r.states|
    ensures |ss| == |r.states| && HistoryOK(ss[z].initial, ss[z].h)
  {
    hide HistoryOK, Shadow, NodeOK, PacketOK;
    assert Shadows(ss[z], r.states[z]);
  }

  lemma NodeFacts(r: Execution, ss: seq<State>, k: nat, i: NodeId)
    requires At(r, k, i) && ShadowRun(r, ss)
    ensures HistoryOK(ss[k].initial, ss[k].h) && NodeOK(ss[k].h, i, CoreOf(NodeAt(r, k, i)))
    ensures Uncompacted(NodeAt(r, k, i), ss[k].initial)
  {
    hide HistoryOK, NodeOK, Uncompacted, StepBy, Starts, Later, PacketOK;
    assert Shadows(ss[k], r.states[k]);
    assert Shadow(ss[k], i, r.states[k].nodes[i]);
    assert NodeOK(ss[k].h, i, ss[k].nodes[i]);
  }

  lemma Growing(r: Execution, ss: seq<State>, j: nat, k: nat)
    requires ShadowRun(r, ss) && j <= k < |ss|
    ensures Grows(ss[j].h, ss[k].h) && ss[k].initial == ss[j].initial && ss[j].nodes.Keys == ss[k].nodes.Keys
  {
    hide Grows, Shadows;
    assert Later(ss[j], ss[k]);
  }

  lemma GenuineLater(h: History, h': History, log: Log, top: int)
    requires Genuine(h, log, top) && Grows(h, h')
    ensures Genuine(h', log, top)
  {
    forall x | 0 <= x < |log|
      ensures log[x].term <= top && log[x].term in h'.leaderLog && log[..x + 1] <= h'.leaderLog[log[x].term]
    {
      assert h.leaderLog[log[x].term] <= h'.leaderLog[log[x].term];
    }
  }

  /** A prefix of what some leader committed. */
  ghost predicate Agreed(h: History, log: Log, top: nat) {
    log == [] || exists c :: AgreedBy(h, log, top, c)
  }

  ghost predicate AgreedBy(h: History, log: Log, top: nat, c: Commit) {
    c in h.commits && c.term <= top && |log| <= c.index && log == Written(h, c.term, |log|)
  }

  lemma AgreedLater(initial: set<NodeId>, h: History, h': History, log: Log, top: nat)
    requires HistoryOK(initial, h) && Grows(h, h') && Agreed(h, log, top)
    ensures Agreed(h', log, top)
  {
    if log != [] {
      var c :| AgreedBy(h, log, top, c);
      assert CommitOK(initial, h, c);
      assert h.leaderLog[c.term] <= h'.leaderLog[c.term];
      assert AgreedBy(h', log, top, c);
    }
  }

  lemma AgreedComparable(initial: set<NodeId>, h: History, a: Log, b: Log, top: nat, top': nat)
    requires HistoryOK(initial, h) && Agreed(h, a, top) && Agreed(h, b, top') && |a| <= |b|
    ensures a <= b
  {
    if a != [] {
      var c :| AgreedBy(h, a, top, c);
      var d :| AgreedBy(h, b, top', d);
      CommitsAgree(initial, h, c, d, |a|);
      assert CommitOK(initial, h, d);
      assert Written(h, d.term, |a|) <= Written(h, d.term, |b|);
    }
  }

  lemma CommittedAgreed(r: Execution, ss: seq<State>, k: nat, i: NodeId)
    requires At(r, k, i) && ShadowRun(r, ss)
    ensures NodeAt(r, k, i).replica.commit == |CommittedAt(r, k, i)|
    ensures Agreed(ss[k].h, CommittedAt(r, k, i), NodeAt(r, k, i).term)
  {
    hide HistoryOK, Genuine, UsesSlotsUpTo, LeaderOK, CandidateOK, Reflects, IsRun, ShadowRun, Written, Uncompacted;
    NodeFacts(r, ss, k, i);
    RunLength(r, ss);
    var n := NodeAt(r, k, i);
    if n.replica.commit > 0 {
      var c :| CoveredBy(ss[k].h, n.replica.log, n.replica.commit, n.term, c);
      assert AgreedBy(ss[k].h, CommittedAt(r, k, i), n.term, c);
    }
  }

  lemma CommittedAgreedLater(r: Execution, ss: seq<State>, j: nat, k: nat, i: NodeId)
    requires At(r, j, i) && ShadowRun(r, ss) && j <= k < |ss|
    ensures Agreed(ss[k].h, CommittedAt(r, j, i), NodeAt(r, j, i).term)
  {
    hide Agreed, HistoryOK, NodeOK, Grows, IsRun, ShadowRun, Uncompacted;
    CommittedAgreed(r, ss, j, i);
    NodeFacts(r, ss, j, i);
    Growing(r, ss, j, k);
    AgreedLater(ss[j].initial, ss[j].h, ss[k].h, CommittedAt(r, j, i), NodeAt(r, j, i).term);
  }

  lemma LeaderFacts(r: Execution, ss: seq<State>, k: nat, i: NodeId, t: nat)
    requires LeadsAt(r, k, i, t) && ShadowRun(r, ss)
    ensures t in ss[k].h.elected && ss[k].h.elected[t].leader == i
    ensures t in ss[k].h.leaderLog && ss[k].h.leaderLog[t] == LogAt(r, k, i)
    ensures HistoryOK(ss[k].initial, ss[k].h)
  {
    hide HistoryOK, Genuine, UsesSlotsUpTo, CandidateOK, Reflects, Covered, IsRun, ShadowRun, Uncompacted;
    NodeFacts(r, ss, k, i);
  }

  // ---- the theorems ----

  /** Election Safety (section 5.2): over a whole run, each term has at most one leader. */
  lemma ElectionSafety(r: Execution, j: nat, k: nat, a: NodeId, b: NodeId, term: nat)
    requires LeadsAt(r, j, a, term) && LeadsAt(r, k, b, term)
    ensures a == b
  {
    hide LeadsAt, IsRun, HistoryOK, ShadowRun;
    AtRun(r, j, a, term);
    AtRun(r, k, b, term);
    var ss := RunShadowed(r);
    LeaderFacts(r, ss, j, a, term);
    LeaderFacts(r, ss, k, b, term);
    assert |ss| == |r.states| by { RunLength(r, ss); }
    if j <= k { Growing(r, ss, j, k); } else { Growing(r, ss, k, j); }
  }

  /** Leader Append-Only (section 5.3): a leader's log only grows while it leads a term, even if
      other servers' states are looked at in between. */
  lemma LeaderAppendOnly(r: Execution, j: nat, k: nat, i: NodeId, term: nat)
    requires LeadsAt(r, j, i, term) && LeadsAt(r, k, i, term) && j <= k
    ensures LogAt(r, j, i) <= LogAt(r, k, i)
  {
    hide IsRun, HistoryOK, ShadowRun;
    var ss := RunShadowed(r);
    RunLength(r, ss);
    LeaderFacts(r, ss, j, i, term);
    LeaderFacts(r, ss, k, i, term);
    Growing(r, ss, j, k);
  }

  /** Log Matching (section 5.3): if two logs, at any two moments of a run, hold entries of the same
      term at an index, they are identical up to it. */
  lemma LogsMatch(r: Execution, j: nat, k: nat, a: NodeId, b: NodeId, x: nat)
    requires At(r, j, a) && At(r, k, b) && j <= k
    requires x < |LogAt(r, j, a)| && x < |LogAt(r, k, b)| && LogAt(r, j, a)[x].term == LogAt(r, k, b)[x].term
    ensures LogAt(r, j, a)[..x + 1] == LogAt(r, k, b)[..x + 1]
  {
    hide IsRun, HistoryOK, ShadowRun, Grows, Genuine, UsesSlotsUpTo, LeaderOK, CandidateOK, Reflects, Covered, Uncompacted;
    var ss := RunShadowed(r);
    RunLength(r, ss);
    NodeFacts(r, ss, j, a);
    NodeFacts(r, ss, k, b);
    Growing(r, ss, j, k);
    GenuineLater(ss[j].h, ss[k].h, LogAt(r, j, a), NodeAt(r, j, a).term);
    LogMatching(ss[k].h, LogAt(r, j, a), LogAt(r, k, b), NodeAt(r, j, a).term, NodeAt(r, k, b).term, x);
  }

  /** Committed entries never differ: what any two servers ever held committed agrees. */
  lemma CommittedPrefixesAgree(r: Execution, j: nat, k: nat, a: NodeId, b: NodeId)
    requires At(r, j, a) && At(r, k, b)
    ensures CommittedAt(r, j, a) <= CommittedAt(r, k, b) || CommittedAt(r, k, b) <= CommittedAt(r, j, a)
  {
    hide IsRun, HistoryOK, ShadowRun, Agreed, NodeOK, Uncompacted;
    var ss := RunShadowed(r);
    RunLength(r, ss);
    var x, y := CommittedAt(r, j, a), CommittedAt(r, k, b);
    var z := if j <= k then k else j;
    CommittedAgreedLater(r, ss, j, z, a);
    CommittedAgreedLater(r, ss, k, z, b);
    NodeFacts(r, ss, z, if j <= k then b else a);
    if |x| <= |y| { AgreedComparable(ss[z].initial, ss[z].h, x, y, NodeAt(r, j, a).term, NodeAt(r, k, b).term); }
    else { AgreedComparable(ss[z].initial, ss[z].h, y, x, NodeAt(r, k, b).term, NodeAt(r, j, a).term); }
  }

  /** Leader Completeness (section 5.4): what server i held committed while in term t is in the log of
      every leader of a later term, whenever that leader is looked at, and in the log of every
      leader of term t itself from then on. */
  lemma LeaderCompletenessOverRuns(r: Execution, j: nat, k: nat, i: NodeId, l: NodeId, u: nat)
    requires At(r, j, i) && LeadsAt(r, k, l, u)
    requires u > NodeAt(r, j, i).term || (u == NodeAt(r, j, i).term && j <= k)
    ensures CommittedAt(r, j, i) <= LogAt(r, k, l)
  {
    hide IsRun, HistoryOK, ShadowRun, Agreed, Grows, Written;
    var ss := RunShadowed(r);
    RunLength(r, ss);
    LeaderFacts(r, ss, k, l, u);
    var z := if j <= k then k else j;
    Growing(r, ss, k, z);
    CommittedAgreedLater(r, ss, j, z, i);
    assert HistoryOK(ss[z].initial, ss[z].h) by {
      hide NodeOK, Uncompacted;
      if j > k { NodeFacts(r, ss, z, i); }
    }
    AgreedInLeader(ss[k].h, ss[z].initial, ss[z].h, CommittedAt(r, j, i), NodeAt(r, j, i).term, u, z == k);
  }

  lemma AgreedInLeader(h: History, initial: set<NodeId>, h': History, log: Log, top: nat, u: nat, same: bool)
    requires HistoryOK(initial, h') && Grows(h, h') && Agreed(h', log, top) && (same ==> h == h')
    requires u in h.elected && u in h.leaderLog && (u > top || (u == top && same))
    requires HistoryOK(initial, h)
    ensures log <= h.leaderLog[u]
  {
    if log != [] {
      var c :| AgreedBy(h', log, top, c);
      assert CommitOK(initial, h', c);
      assert ElectionOK(initial, h, u);
      if c.term < u {
        LeaderCompleteness(initial, h', c, u);
        assert Written(h', c.term, |log|) <= Written(h', c.term, c.index);
        assert log <= h.elected[u].base <= h.leaderLog[u];
      }
    }
  }

  // ---- membership and message handling in reachable states ----

  lemma InitialFixed(r: Execution, ss: seq<State>, k: nat)
    requires IsRun(r) && ShadowRun(r, ss) && k < |r.states|
    ensures ss[k].initial == r.states[0].initial == r.states[k].initial
  {
    hide IsRun, Inv, Shadow, Starts, StepBy;
    assert Shadows(ss[0], r.states[0]) && Shadows(ss[k], r.states[k]);
    RunLength(r, ss);
    Growing(r, ss, 0, k);
  }

  /** Without compaction a reachable server's log is its whole history, and its configuration is the
      latest one in that log: membership is derived state. */
  lemma MembershipIsDerived(r: Execution, k: nat, i: NodeId)
    requires At(r, k, i)
    ensures Uncompacted(NodeAt(r, k, i), r.states[0].initial)
    ensures NodeAt(r, k, i).replica.voters == ConfigOf(r.states[0].initial, LogAt(r, k, i))
    ensures NodeAt(r, k, i).replica.configIndex == LatestConfig(LogAt(r, k, i))
  {
    hide IsRun, ShadowRun, HistoryOK, NodeOK, Uncompacted, ConfigOf, LatestConfig;
    var ss := RunShadowed(r);
    NodeFacts(r, ss, k, i);
    InitialFixed(r, ss, k);
    UncompactedFacts(NodeAt(r, k, i), r.states[0].initial);
  }

  /** No delivered message reaches below its receiver's compaction point, and no snapshot is ever sent. */
  lemma AlwaysAboveBase(r: Execution, k: nat)
    requires IsRun(r) && k < |r.events| && r.events[k].Deliver?
    ensures At(r, k, Actor(r.events[k])) && AboveBase(NodeAt(r, k, Actor(r.events[k])), r.events[k].packet.msg)
    ensures !r.events[k].packet.msg.InstallSnapshot?
  {
    hide Starts, StepBy, Shadows, Later, AboveBase, Inv;
    var ss := RunShadowed(r);
    StepEnabled(r, k);
    assert Shadows(ss[k], r.states[k]);
    var s' := StepRefines(ss[k], r.states[k], r.events[k], r.states[k + 1]);
    SentIsOnNetwork(ss[k], r.states[k], r.events[k].packet);
    ShadowsInv(ss[k], r.states[k]);
    NoSnapshotSent(ss[k], r.events[k].packet);
  }

  lemma ShadowsInv(s: State, c: Cluster)
    requires Shadows(s, c)
    ensures Inv(s)
  {}
}
