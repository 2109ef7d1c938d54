/** Nothing committed is skipped: a server reports every index up to its commit index. */
module ApplyProgress {
  import opened Types
  import opened Logs
  import opened Kv
  import opened Replicas
  import opened NodeSpec
  import opened Recovery
  import opened Reports
  import opened Protocol
  import opened NodeRefinement
  import opened Cluster
  import opened ClusterRefinement
  import opened ClusterSafety
  import opened CommitRule
  import opened ReadIndex

  predicate HasApplied(reports: seq<Report>, index: nat) {
    exists x :: 0 <= x < |reports| && reports[x].Applied? && reports[x].index == index
  }

  /** Every index a step newly commits is reported in it. */
  ghost predicate ReportsRise(r: Replica, r': Replica) {
    forall index: nat | r.commit < index <= r'.commit :: HasApplied(r'.reports, index)
  }

  lemma {:induction false} ReportsInOrder(kv: KvState, base: nat, es: Log)
    ensures |ApplyReports(kv, base, es)| == |es|
    ensures forall x | 0 <= x < |es| :: ApplyReports(kv, base, es)[x].Applied? && ApplyReports(kv, base, es)[x].index == base + x + 1
  {
    if es != [] { ReportsInOrder(kv, base, es[..|es| - 1]); }
  }

  lemma CommitReportsAll(r: Replica, hist: Log, index: nat)
    requires Represents(r, hist) && index <= |hist|
    ensures ReportsRise(r, SetCommit(r, index))
  {
    hide ConfigFits, SnapshotFits, ConfigOf, LatestConfig, Run, Commands;
    HistoryLength(r, hist);
    if index > r.commit {
      var es := NewlyCommitted(r, index);
      ReportsInOrder(r.kv, r.commit, es);
      var r' := SetCommit(r, index);
      assert r'.reports == r.reports + ApplyReports(r.kv, r.commit, es) && r'.commit == index;
      forall k: nat | r.commit < k <= index ensures HasApplied(r'.reports, k) {
        assert r'.reports[|r.reports| + (k - r.commit - 1)].index == k;
      }
    }
  }

  lemma AbsorbReportsAll(r: Replica, hist: Log, m: Message)
    requires Represents(r, hist) && m.AppendEntries? && r.base <= m.prevIndex <= LastIndex(r)
    requires SparesCommitted(r.commit, hist, m.prevIndex, m.entries)
    ensures ReportsRise(r, Absorb(r, m))
  {
    hide Represents, Merge, Agreement, LatestConfig, SetCommit, SparesCommitted, HasApplied;
    HistoryLength(r, hist);
    var hist' := Merge(hist, m.prevIndex, m.entries);
    AppendRecovers(r, hist, m.prevIndex, m.entries);
    var r1 := AppendLoop(r, m.prevIndex, m.entries);
    AppendKeepsReports(r, m.prevIndex, m.entries);
    HistoryLength(r1, hist');
    if m.leaderCommit > r1.commit {
      CommitReportsAll(r1, hist', Largest(r1.commit, Least(m.leaderCommit, m.prevIndex + |m.entries|)));
    }
  }

  lemma HandleReportsAll(n: NodeState, hist: Log, m: Message)
    requires Represents(n.replica, hist) && AboveBase(n, m) && !m.InstallSnapshot? && Trustworthy(n, hist, m, [])
    ensures ReportsRise(n.replica, Handle(n, m).replica)
  {
    hide Represents, SparesCommitted, Absorb, MaybeWin, TryServeRead, NoteMatch, BackOff, HasApplied, SetCommit, CommitPoint, LogInconsistent, Recognise;
    match m
    case AppendEntries(_, _, _, _, _, _) => AppendReportsAll(n, hist, m);
    case AppendReply(_, _, _, _) => ReplyReportsAll(n, hist, m);
    case _ => OthersKeepCommit(n, m);
  }

  lemma AppendReportsAll(n: NodeState, hist: Log, m: Message)
    requires Represents(n.replica, hist) && m.AppendEntries? && m.prevIndex >= n.replica.base
    requires m.term >= n.term && !LogInconsistent(Recognise(n, m.term, m.leader), m) ==>
               SparesCommitted(n.replica.commit, hist, m.prevIndex, m.entries)
    ensures ReportsRise(n.replica, OnAppendEntries(n, m).replica)
  {
    hide Represents, SparesCommitted, Absorb, HasApplied;
    if m.term >= n.term && !LogInconsistent(Recognise(n, m.term, m.leader), m) { AbsorbReportsAll(n.replica, hist, m); }
  }

  lemma ReplyReportsAll(n: NodeState, hist: Log, m: Message)
    requires Represents(n.replica, hist) && m.AppendReply?
    ensures ReportsRise(n.replica, OnAppendReply(n, m).replica)
  {
    hide Represents, SetCommit, CommitPoint, HasApplied, Outgoing;
    HistoryLength(n.replica, hist);
    var n1 := NoteMatch(n, m.follower, m.matchIndex);
    CommitPointBounds(n1, Last(n1));
    CommitReportsAll(n.replica, hist, CommitPoint(n1, Last(n1)));
  }

  lemma HasAppliedLonger(a: seq<Report>, b: seq<Report>, index: nat)
    requires HasApplied(a, index) && a <= b
    ensures HasApplied(b, index)
  {
    var x :| 0 <= x < |a| && a[x].Applied? && a[x].index == index;
    assert b[x] == a[x];
  }

  lemma StepReportsAll(r: Execution, k: nat)
    requires IsRun(r) && k < |r.events|
    ensures var i := Actor(r.events[k]);
            i in r.states[k].nodes && i in r.states[k + 1].nodes
            && ReportsRise(r.states[k].nodes[i].replica, r.states[k + 1].nodes[i].replica)
  {
    hide Starts, Shadows, Later, Inv, Handle, Represents, ReportsRise, Trustworthy, AboveBase, Mirrors, ClientCommand, ChangeConfig, RequestRead, Pause, ElectionTimeout, HeartbeatTick;
    StepEnabled(r, k);
    var i, e := Actor(r.events[k]), r.events[k];
    var n := r.states[k].nodes[i];
    MembershipIsDerived(r, k, i);
    if e.Deliver? {
      AlwaysAboveBase(r, k);
      DeliveredTrustworthy(r, k);
      HandleReportsAll(n, n.replica.log, e.packet.msg);
    } else {
      UncompactedFacts(n, r.states[0].initial);
      LocalKeepsCommit(n, e);
      NoRise(n.replica, Act(n, e).replica);
    }
  }

  lemma NoRise(r: Replica, r': Replica)
    requires r'.commit <= r.commit
    ensures ReportsRise(r, r')
  {}

  lemma DeliveredTrustworthy(r: Execution, k: nat)
    requires IsRun(r) && k < |r.events| && r.events[k].Deliver?
    ensures Actor(r.events[k]) in r.states[k].nodes
    ensures var n := r.states[k].nodes[Actor(r.events[k])];
            Trustworthy(n, n.replica.log, r.events[k].packet.msg, [])
  {
    hide Starts, StepBy, Shadows, Later, Trustworthy, Inv, Shadow;
    var ss := RunShadowed(r);
    StepEnabled(r, k);
    assert Shadows(ss[k], r.states[k]);
    SentIsOnNetwork(ss[k], r.states[k], r.events[k].packet);
    ShadowsInv(ss[k], r.states[k]);
    ShadowOf(ss[k], r.states[k], Actor(r.events[k]));
    var s' := HandleRefines(ss[k], Actor(r.events[k]), r.states[k].nodes[Actor(r.events[k])], r.events[k].packet);
  }

  lemma ShadowOf(s: State, c: Cluster, i: NodeId)
    requires Shadows(s, c) && i in c.nodes
    ensures Shadow(s, i, c.nodes[i])
  {}

  /** In every reachable state, every index up to a server's commit index has been reported by it. */
  lemma {:induction false} AllApplied(r: Execution, k: nat, i: NodeId, index: nat)
    requires At(r, k, i) && 0 < index <= NodeAt(r, k, i).replica.commit
    ensures HasApplied(NodeAt(r, k, i).replica.reports, index)
    decreases k
  {
    hide Starts, StepBy, HasApplied;
    if k == 0 {
      StartCommit(r.states[0], i);
      assert false;
    } else {
      StepChanges(r, k - 1);
      Monotone(r, k - 1, k, i);
      if index <= NodeAt(r, k - 1, i).replica.commit {
        AllApplied(r, k - 1, i, index);
        HasAppliedLonger(NodeAt(r, k - 1, i).replica.reports, NodeAt(r, k, i).replica.reports, index);
      } else {
        StepReportsAll(r, k - 1);
      }
    }
  }

  lemma StartCommit(c: Cluster, i: NodeId)
    requires Starts(c) && i in c.nodes
    ensures c.nodes[i].replica.commit == 0
  {}
}
