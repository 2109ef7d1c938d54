/** State Machine Safety for whole runs, through the apply callback: there is one growing history of
    commands, and everything any server ever reports is what executing that history gives. */
module StateMachineSafety {
  import opened Types
  import opened Quorums
  import opened Logs
  import opened Kv
  import opened Replicas
  import opened NodeSpec
  import opened Recovery
  import opened Reports
  import opened Protocol
  import opened ProtocolSteps
  import opened NodeRefinement
  import opened Cluster
  import opened ClusterRefinement
  import opened ClusterSafety

  // ---- one step ----

  lemma LocalReports(n: NodeState, e: Event)
    requires Represents(n.replica, n.replica.log) && !e.Deliver? && (e.Client? ==> !e.command.Config?)
    ensures Adds(n.replica.reports, Act(n, e).replica.reports, Settled(Act(n, e).replica, Act(n, e).replica.log))
  {
    hide Represents, Adds, RequestRead, Settled;
    if e.Read? {
      RequestReports(n, n.replica.log, e.command);
      assert SameLog(RequestRead(n, e.command).0.replica, n.replica) by { ReadKeepsLog(n, e.command); }
      assert Settled(Act(n, e).replica, Act(n, e).replica.log) == Settled(n.replica, n.replica.log) by { SettledSame(Act(n, e).replica, n.replica); }
    } else {
      LocalReportsNothing(n, e);
      AddsNothing(n.replica.reports, Settled(Act(n, e).replica, Act(n, e).replica.log));
    }
  }

  predicate SameLog(a: Replica, b: Replica) { a.log == b.log && a.commit == b.commit }

  lemma SettledSame(a: Replica, b: Replica)
    requires SameLog(a, b)
    ensures Settled(a, a.log) == Settled(b, b.log)
  {}

  lemma ReadKeepsLog(n: NodeState, cmd: Command)
    ensures SameLog(RequestRead(n, cmd).0.replica, n.replica)
  {
    hide ReadConfirmed, ApplyRead, HeartbeatPackets;
  }

  lemma LocalReportsNothing(n: NodeState, e: Event)
    requires !e.Deliver? && !e.Read? && (e.Client? ==> !e.command.Config?)
    ensures Act(n, e).replica.reports == n.replica.reports
  {
    hide ConfigOf, LatestConfig, BroadcastPackets, ClientIndex, Majority, OneApart;
  }

  lemma DeliverReports(s: State, i: NodeId, n: NodeState, pk: Packet)
    requires Inv(s) && Shadow(s, i, n) && pk in s.net && pk.dst == i
    ensures Adds(n.replica.reports, Act(n, Deliver(pk)).replica.reports,
                 Settled(Act(n, Deliver(pk)).replica, Act(n, Deliver(pk)).replica.log))
  {
    hide Inv, Handle, Trustworthy, Adds, HistoryAfter, Mirrors, Represents, Settled;
    var s' := HandleRefines(s, i, n, pk);
    HandleReports(n, n.replica.log, pk.msg, []);
    HandleRecovers(n, n.replica.log, pk.msg, []);
    HandleSetup(n, pk.msg);
    HistoryIsLog(Handle(n, pk.msg).replica, HistoryAfter(n, n.replica.log, pk.msg, []));
  }

  lemma HistoryIsLog(r: Replica, hist: Log)
    requires Represents(r, hist) && r.base == 0
    ensures r.log == hist
  {
    hide StateFits, ConfigFits, SnapshotFits;
  }

  lemma StepReports(s: State, c: Cluster, e: Event, c': Cluster)
    requires Shadows(s, c) && StepBy(c, e, c')
    ensures var n, n' := c.nodes[Actor(e)], c'.nodes[Actor(e)];
            Adds(n.replica.reports, n'.replica.reports, Settled(n'.replica, n'.replica.log))
  {
    hide Inv, Act, Adds, Mirrors, Represents, Sent, Settled;
    var i := Actor(e);
    assert Shadow(s, i, c.nodes[i]);
    if e.Deliver? {
      SentIsOnNetwork(s, c, e.packet);
      DeliverReports(s, i, c.nodes[i], e.packet);
    } else {
      LocalReports(c.nodes[i], e);
    }
  }

  // ---- the agreed history ----

  /** The longest committed history so far. */
  lemma {:induction false} LongestAgreed(initial: set<NodeId>, h: History, cs: set<Commit>) returns (g: Log, top: nat)
    requires HistoryOK(initial, h) && cs <= h.commits
    ensures Agreed(h, g, top)
    ensures forall c | c in cs :: c.index <= |g|
    decreases cs
  {
    if cs == {} {
      g, top := [], 0;
    } else {
      var c :| c in cs;
      assert CommitOK(initial, h, c);
      g, top := LongestAgreed(initial, h, cs - {c});
      if c.index > |g| {
        g, top := Written(h, c.term, c.index), c.term;
        assert AgreedBy(h, g, top, c);
      }
    }
  }

  /** A history that holds everything committed. */
  ghost predicate Chosen(initial: set<NodeId>, h: History, g: Log) {
    && (exists top :: Agreed(h, g, top))
    && forall c | c in h.commits :: c.index <= |g|
  }

  lemma ChooseHistory(initial: set<NodeId>, h: History) returns (g: Log)
    requires HistoryOK(initial, h)
    ensures Chosen(initial, h, g)
  {
    hide HistoryOK, Agreed;
    var top;
    g, top := LongestAgreed(initial, h, h.commits);
  }

  lemma ChosenCovers(initial: set<NodeId>, h: History, g: Log, log: Log, top: nat)
    requires HistoryOK(initial, h) && Chosen(initial, h, g) && Agreed(h, log, top)
    ensures log <= g
  {
    var gt :| Agreed(h, g, gt);
    if log != [] {
      var c :| AgreedBy(h, log, top, c);
      assert CommitOK(initial, h, c);
      AgreedComparable(initial, h, log, g, top, gt);
    }
  }

  lemma ChosenGrows(initial: set<NodeId>, h: History, g: Log, h': History, g': Log)
    requires HistoryOK(initial, h) && HistoryOK(initial, h') && Grows(h, h')
    requires Chosen(initial, h, g) && Chosen(initial, h', g')
    ensures g <= g'
  {
    hide HistoryOK, Grows;
    var top :| Agreed(h, g, top);
    AgreedLater(initial, h, h', g, top);
    ChosenCovers(initial, h', g', g, top);
  }

  /** All servers' committed entries and all reports, of all incarnations, fit `g`. */
  predicate Explains(g: Log, c: Cluster) {
    && (forall i | i in c.nodes :: Settled(c.nodes[i].replica, c.nodes[i].replica.log) <= g)
    && (forall i | i in c.nodes :: ReportsFit(g, c.nodes[i].replica.reports))
  }

  predicate ReportsFit(g: Log, reports: seq<Report>) {
    forall x | 0 <= x < |reports| :: Fits(g, reports[x])
  }

  ghost predicate AgreedHistory(r: Execution, gs: seq<Log>) {
    && |gs| == |r.states|
    && (forall j, k | 0 <= j <= k < |gs| :: gs[j] <= gs[k])
    && (forall k | 0 <= k < |gs| :: Explains(gs[k], r.states[k]))
  }

  lemma SettledBelow(s: State, c: Cluster, i: NodeId, g: Log)
    requires Shadows(s, c) && i in c.nodes && Chosen(s.initial, s.h, g)
    ensures Settled(c.nodes[i].replica, c.nodes[i].replica.log) <= g
  {
    hide HistoryOK, Genuine, UsesSlotsUpTo, LeaderOK, CandidateOK, Reflects, PacketOK, Chosen, Uncompacted;
    var n := c.nodes[i];
    assert Shadow(s, i, n);
    assert NodeOK(s.h, i, s.nodes[i]);
    CoveredSettled(s.h, n.replica.log, n.replica.commit, n.term);
    ChosenCovers(s.initial, s.h, g, n.replica.log[..n.replica.commit], n.term);
  }

  lemma CoveredSettled(h: History, log: Log, commit: nat, term: nat)
    requires Covered(h, log, commit, term) && commit <= |log|
    ensures Agreed(h, log[..commit], term)
  {
    if commit > 0 {
      var c :| CoveredBy(h, log, commit, term, c);
      assert AgreedBy(h, log[..commit], term, c);
    }
  }

  lemma ReportsStillFit(g: Log, g': Log, old': seq<Report>, new': seq<Report>, hist: Log)
    requires ReportsFit(g, old') && g <= g' && Adds(old', new', hist) && hist <= g'
    ensures ReportsFit(g', new')
  {
    hide Fits;
    forall x | 0 <= x < |new'| ensures Fits(g', new'[x]) {
      if x < |old'| {
        assert new'[x] == old'[x] && Fits(g, old'[x]);
        FitsLonger(g, g', new'[x]);
      } else {
        FitsLonger(hist, g', new'[x]);
      }
    }
  }

  lemma StepExplained(s: State, c: Cluster, e: Event, s': State, c': Cluster, g: Log, g': Log)
    requires Shadows(s, c) && StepBy(c, e, c') && Shadows(s', c') && g <= g'
    requires Explains(g, c) && Chosen(s'.initial, s'.h, g')
    ensures Explains(g', c')
  {
    hide Inv, Act, Shadow, Sent, Chosen, Settled, ReportsFit, Adds;
    forall i | i in c'.nodes
      ensures Settled(c'.nodes[i].replica, c'.nodes[i].replica.log) <= g' && ReportsFit(g', c'.nodes[i].replica.reports)
    {
      SettledBelow(s', c', i, g');
      if i == Actor(e) {
        StepReports(s, c, e, c');
        ReportsStillFit(g, g', c.nodes[i].replica.reports, c'.nodes[i].replica.reports,
                        Settled(c'.nodes[i].replica, c'.nodes[i].replica.log));
      } else {
        var reports := c.nodes[i].replica.reports;
        AddsNothing(reports, []);
        ReportsStillFit(g, g', reports, reports, []);
      }
    }
  }

  lemma StartExplained(c: Cluster, g: Log)
    requires Starts(c)
    ensures Explains(g, c)
  {}

  lemma ShadowsHistory(s: State, c: Cluster)
    requires Shadows(s, c)
    ensures HistoryOK(s.initial, s.h)
  {}

  lemma ShadowPrefix(r: Execution, ss: seq<State>)
    requires IsRun(r) && |r.events| > 0 && ShadowRun(r, ss)
    ensures IsRun(Before(r)) && ShadowRun(Before(r), ss[..|r.events|])
  {
    hide Starts, StepBy, Shadows, Later;
    var n, front := |r.events|, ss[..|r.events|];
    forall k | 0 <= k < n ensures Shadows(front[k], Before(r).states[k]) { assert Shadows(ss[k], r.states[k]); }
    forall j, k | 0 <= j <= k < n ensures Later(front[j], front[k]) { assert Later(ss[j], ss[k]); }
  }

  lemma LastExplained(r: Execution, ss: seq<State>, front: seq<Log>, g: Log)
    requires IsRun(r) && |r.events| > 0 && ShadowRun(r, ss) && AgreedHistory(Before(r), front)
    requires Chosen(ss[|r.events| - 1].initial, ss[|r.events| - 1].h, front[|front| - 1])
    requires Chosen(ss[|r.events|].initial, ss[|r.events|].h, g)
    ensures AgreedHistory(r, front + [g])
  {
    hide Starts, StepBy, Shadows, Grows, Explains, Chosen, HistoryOK, Later;
    var n := |r.events|;
    assert Shadows(ss[n - 1], r.states[n - 1]) && Shadows(ss[n], r.states[n]);
    ShadowsHistory(ss[n - 1], r.states[n - 1]);
    ShadowsHistory(ss[n], r.states[n]);
    Growing(r, ss, n - 1, n);
    ChosenGrows(ss[n].initial, ss[n - 1].h, front[n - 1], ss[n].h, g);
    assert Explains(front[n - 1], Before(r).states[n - 1]);
    assert StepBy(r.states[n - 1], r.events[n - 1], r.states[n]);
    StepExplained(ss[n - 1], r.states[n - 1], r.events[n - 1], ss[n], r.states[n], front[n - 1], g);
    var gs := front + [g];
    forall k | 0 <= k < |gs| ensures Explains(gs[k], r.states[k]) {
      if k < n { assert Explains(front[k], Before(r).states[k]); }
    }
    forall j, k | 0 <= j <= k < |gs| ensures gs[j] <= gs[k] {
      if j < n { assert gs[j] <= front[n - 1]; }
    }
  }

  lemma {:induction false} RunExplained(r: Execution, ss: seq<State>) returns (gs: seq<Log>)
    requires IsRun(r) && ShadowRun(r, ss)
    ensures AgreedHistory(r, gs)
    ensures forall k {:trigger Chosen(ss[k].initial, ss[k].h, gs[k])} | 0 <= k < |gs| :: Chosen(ss[k].initial, ss[k].h, gs[k])
    decreases |r.events|
  {
    hide Starts, StepBy, Shadows, Grows, Explains, Chosen, HistoryOK, Inv;
    var n := |r.events|;
    RunLength(r, ss);
    assert Shadows(ss[n], r.states[n]);
    ShadowsHistory(ss[n], r.states[n]);
    var g := ChooseHistory(ss[n].initial, ss[n].h);
    if n == 0 {
      StartExplained(r.states[0], g);
      gs := [g];
    } else {
      ShadowPrefix(r, ss);
      var front := RunExplained(Before(r), ss[..n]);
      gs := front + [g];
      LastExplained(r, ss, front, g);
      forall k | 0 <= k < |gs| ensures Chosen(ss[k].initial, ss[k].h, gs[k]) {
        if k < n { assert Chosen(ss[..n][k].initial, ss[..n][k].h, front[k]); }
      }
    }
  }

  // ---- the theorems ----

  /** Every run has one growing history that explains all servers' committed entries and every
      result ever reported, across crashes and restarts. */
  lemma OneHistory(r: Execution) returns (gs: seq<Log>)
    requires IsRun(r)
    ensures AgreedHistory(r, gs)
  {
    hide Starts, StepBy, Shadows, Explains, Chosen, Later;
    var ss := RunShadowed(r);
    gs := RunExplained(r, ss);
  }

  predicate Reported(r: Execution, k: nat, i: NodeId, rep: Report) {
    At(r, k, i) && rep in NodeAt(r, k, i).replica.reports
  }

  /** State Machine Safety (section 5.4.3): whatever two servers apply at the same index, in any of their
      incarnations and at any two moments, is the same command with the same result. */
  lemma AppliesAgree(r: Execution, j: nat, k: nat, a: NodeId, b: NodeId, x: Report, y: Report)
    requires Reported(r, j, a, x) && Reported(r, k, b, y) && x.Applied? && y.Applied? && x.index == y.index
    ensures x == y
  {
    hide IsRun, Fits;
    var gs := OneHistory(r);
    var z := if j <= k then k else j;
    ReportFits(r, gs, j, z, a, x);
    ReportFits(r, gs, k, z, b, y);
    SameIndexSameReport(gs[z], x, y);
  }

  lemma ReportFits(r: Execution, gs: seq<Log>, j: nat, k: nat, i: NodeId, rep: Report)
    requires Reported(r, j, i, rep) && AgreedHistory(r, gs) && j <= k < |r.states|
    ensures Fits(gs[k], rep)
  {
    hide IsRun, Fits;
    assert Explains(gs[j], r.states[j]);
    assert ReportsFit(gs[j], r.states[j].nodes[i].replica.reports);
    FitsLonger(gs[j], gs[k], rep);
  }

  lemma SameIndexSameReport(g: Log, x: Report, y: Report)
    requires Fits(g, x) && Fits(g, y) && x.Applied? && y.Applied? && x.index == y.index
    ensures x == y
  {}
}
