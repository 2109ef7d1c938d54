/** The invariant checker on runs of the protocol: looking at the cluster after every event, it never raises.
    All the properties it samples hold in every run (raftverified/invariants.py; raftverified/cluster.py). */
module CheckerRuns {
  import opened Types
  import opened Quorums
  import opened Logs
  import opened Replicas
  import opened NodeSpec
  import opened Recovery
  import opened NodeRefinement
  import opened Cluster
  import opened ClusterSafety
  import opened CommitRule
  import opened LogVersions
  import opened Membership
  import CS = CheckerSpec
  import CheckerCommits
  import CheckerCaches
  import InvariantChecker
  import Recordings

  /** What the checker sees of a server. */
  function ViewOf(n: NodeState): CS.NodeView {
    CS.NodeView(n.id, n.role.Leader?, n.term, n.replica.log, n.replica.commit, n.replica.applied, n.replica.version, n.incarnation,
                n.replica.base, n.replica.voters)
  }

  /** Above the compaction point that is the server's history and what it has applied of it, under the configuration
      that history names. */
  lemma ViewIsExact(n: NodeState, hist: Log)
    requires Represents(n.replica, hist)
    ensures var v := ViewOf(n);
            && v.id == n.id && (v.leader <==> n.role.Leader?) && v.term == n.term && v.incarnation == n.incarnation
            && v.base <= v.commit == n.replica.commit <= |hist| && v.voters == ConfigOf(n.replica.initialVoters, hist)
            && v.log == hist[v.base..]
            && v.base + |v.applied| == v.commit && (forall k | 0 <= k < |v.applied| :: v.applied[k] == hist[v.base + k].command)
  {
    hide ConfigOf, LatestConfig, Commands, StateAfter, SnapshotFits;
    CommandsAt(hist[n.replica.base..n.replica.commit]);
    HistoryLength(n.replica, hist);
  }

  function ViewsOf(c: Cluster): CS.Views {
    map i | i in c.nodes :: ViewOf(c.nodes[i])
  }

  /** Its last observation of the servers before the k-th state, and the state itself. */
  function LastViews(r: Execution, k: nat): CS.Views
    requires k < |r.states|
  {
    if k == 0 then map[] else ViewsOf(r.states[k - 1])
  }

  predicate Ascends(ids: seq<NodeId>, c: Cluster) {
    && (forall a, b | 0 <= a < b < |ids| :: ids[a] < ids[b])
    && (forall i | i in ids :: i in c.nodes) && forall i | i in c.nodes :: i in ids
  }

  // ---- observations are well formed ----

  lemma RunSize(r: Execution)
    requires IsRun(r)
    ensures |r.states| == |r.events| + 1
  {}

  lemma SameServers(r: Execution, k: nat)
    requires IsRun(r) && k < |r.states|
    ensures r.states[k].nodes.Keys == r.states[0].nodes.Keys
  {
    hide Act, Sent, Starts;
    if k > 0 {
      StepChanges(r, k - 1);
      SameServers(r, k - 1);
    }
  }

  /** A server's view, in terms of its log: nothing is compacted, and the applied commands are the committed ones. */
  lemma ViewFacts(r: Execution, k: nat, i: NodeId)
    requires At(r, k, i)
    ensures var v, log := ViewOf(NodeAt(r, k, i)), LogAt(r, k, i);
            && v.id == i && v.base == 0 && v.log == log && v.commit <= |log|
            && CS.Top(v) == |log| && CS.AppliedTop(v) == v.commit == |v.applied|
            && CommittedAt(r, k, i) == log[..v.commit]
            && v.applied == Commands(CommittedAt(r, k, i))
  {
    hide IsRun, ConfigOf, LatestConfig, ConfigFits, SnapshotFits;
    MembershipIsDerived(r, k, i);
    LeadersAreMembers(r, k, i);
    var n := NodeAt(r, k, i);
    assert n.replica.applied == Commands(n.replica.log[0..n.replica.commit]);
    assert n.replica.log[0..n.replica.commit] == n.replica.log[..n.replica.commit];
    CommandsAt(n.replica.log[..n.replica.commit]);
  }

  lemma ObservationListed(r: Execution, ids: seq<NodeId>, k: nat)
    requires IsRun(r) && k < |r.states| && Ascends(ids, r.states[0])
    ensures CS.Listed(ids, ViewsOf(r.states[k]))
    ensures forall i :: i in ViewsOf(r.states[k]) <==> At(r, k, i)
    ensures forall i | At(r, k, i) :: i in ViewsOf(r.states[k]) && ViewsOf(r.states[k])[i] == ViewOf(NodeAt(r, k, i))
  {
    hide IsRun, ViewOf;
    SameServers(r, k);
    var nodes := ViewsOf(r.states[k]);
    forall i | i in nodes ensures nodes[i].id == i && nodes[i].commit <= CS.Top(nodes[i]) {
      assert At(r, k, i);
      ViewFacts(r, k, i);
    }
  }

  lemma ViewFollows(r: Execution, k: nat, i: NodeId)
    requires At(r, k, i) && At(r, k + 1, i)
    ensures CS.Follows(ViewOf(NodeAt(r, k, i)), ViewOf(NodeAt(r, k + 1, i)))
  {
    hide IsRun, Act, Sent;
    RunSize(r);
    StepEnabled(r, k);
    StepChanges(r, k);
    if i == Actor(r.events[k]) { VersionGrows(NodeAt(r, k, i), r.events[k]); }
  }

  /** From one observation to the next, the versions tell whether a log changed. */
  lemma ObservationsFollow(r: Execution, ids: seq<NodeId>, k: nat)
    requires IsRun(r) && k < |r.states| && Ascends(ids, r.states[0])
    ensures CS.VersionsTell(LastViews(r, k), ViewsOf(r.states[k]))
  {
    hide IsRun, ViewOf, ViewsOf, CS.Follows;
    ObservationListed(r, ids, k);
    if k > 0 {
      ObservationListed(r, ids, k - 1);
      forall i | i in ViewsOf(r.states[k]) && i in ViewsOf(r.states[k - 1])
        ensures CS.Follows(ViewsOf(r.states[k - 1])[i], ViewsOf(r.states[k])[i])
      {
        ViewFollows(r, k - 1, i);
      }
    }
  }

  // ---- the book ----

  predicate ListedUpTo(r: Execution, ids: seq<NodeId>, k: nat) {
    k < |r.states| && forall j | 0 <= j <= k :: CS.Listed(ids, ViewsOf(r.states[j]))
  }

  /** The checker's bookkeeping before it looks at the k-th state. */
  function BookAt(r: Execution, ids: seq<NodeId>, k: nat): CS.Book
    requires ListedUpTo(r, ids, k)
  {
    if k == 0 then CS.BLANK else CS.Noted(BookAt(r, ids, k - 1), ViewsOf(r.states[k - 1]), ids)
  }

  lemma RunsAreListed(r: Execution, ids: seq<NodeId>, k: nat)
    requires IsRun(r) && k < |r.states| && Ascends(ids, r.states[0])
    ensures ListedUpTo(r, ids, k)
  {
    hide IsRun, ViewsOf, CS.Listed;
    forall j | 0 <= j <= k ensures CS.Listed(ids, ViewsOf(r.states[j])) { ObservationListed(r, ids, j); }
  }

  /** Server i showed this entry committed, in this term, at moment j. */
  predicate ShowedAt(r: Execution, k: nat, index: nat, w: CS.Witnessed, j: nat, i: NodeId) {
    && j < k && At(r, j, i) && 0 < index <= |CommittedAt(r, j, i)|
    && w == CS.Witnessed(CommittedAt(r, j, i)[index - 1], NodeAt(r, j, i).term)
  }

  predicate AppliedBefore(r: Execution, k: nat, index: nat, cmd: Command, j: nat, i: NodeId) {
    j < k && At(r, j, i) && 0 < index <= |CommittedAt(r, j, i)| && cmd == CommittedAt(r, j, i)[index - 1].command
  }

  ghost predicate Shown(r: Execution, k: nat, index: nat, w: CS.Witnessed) {
    exists j, i :: ShowedAt(r, k, index, w, j, i)
  }

  ghost predicate Applied(r: Execution, k: nat, index: nat, cmd: Command) {
    exists j, i :: AppliedBefore(r, k, index, cmd, j, i)
  }

  predicate LedBefore(r: Execution, k: nat, t: nat, l: NodeId, j: nat) { j < k && LeadsAt(r, j, l, t) }

  ghost predicate Led(r: Execution, k: nat, t: nat, l: NodeId) {
    exists j :: LedBefore(r, k, t, l, j)
  }

  ghost predicate AllLed(r: Execution, k: nat, leaders: map<nat, NodeId>) {
    forall t | t in leaders :: Led(r, k, t, leaders[t])
  }

  ghost predicate AllShown(r: Execution, k: nat, committed: map<nat, CS.Witnessed>) {
    forall index | index in committed :: Shown(r, k, index, committed[index])
  }

  ghost predicate AllApplied(r: Execution, k: nat, appliedAt: map<nat, Command>) {
    forall index | index in appliedAt :: Applied(r, k, index, appliedAt[index])
  }

  predicate Remembers(r: Execution, k: nat, b: CS.Book, i: NodeId)
    requires k > 0
  {
    && At(r, k - 1, i)
    && i in b.incarnation && b.incarnation[i] == NodeAt(r, k - 1, i).incarnation
    && i in b.prevCommit && b.prevCommit[i] == NodeAt(r, k - 1, i).replica.commit
  }

  /** Everything in the book was seen at an earlier moment of the run. */
  ghost predicate BookOK(r: Execution, k: nat, b: CS.Book) {
    && AllLed(r, k, b.leaders) && AllShown(r, k, b.committed) && AllApplied(r, k, b.appliedAt)
    && (forall j: nat, i: NodeId | j < k && At(r, j, i) :: NodeAt(r, j, i).replica.commit <= b.maxCommit)
    && (k > 0 ==> forall i | At(r, k, i) :: Remembers(r, k, b, i))
    && (k == 0 ==> b == CS.BLANK)
  }

  // ---- each of the seven checks passes ----

  lemma EntryOf(r: Execution, k: nat, i: NodeId, index: nat)
    requires At(r, k, i) && 0 < index <= |LogAt(r, k, i)|
    ensures var v := ViewOf(NodeAt(r, k, i)); CS.Live(v, index) && CS.EntryAt(v, index) == LogAt(r, k, i)[index - 1]
    ensures index <= NodeAt(r, k, i).replica.commit ==>
              index <= |CommittedAt(r, k, i)| && CommittedAt(r, k, i)[index - 1] == LogAt(r, k, i)[index - 1]
  {
    hide IsRun;
    ViewFacts(r, k, i);
  }

  lemma SameEntry(r: Execution, j: nat, k: nat, a: NodeId, b: NodeId, index: nat)
    requires At(r, j, a) && At(r, k, b) && 0 < index <= |CommittedAt(r, j, a)| && index <= |CommittedAt(r, k, b)|
    ensures CommittedAt(r, j, a)[index - 1] == CommittedAt(r, k, b)[index - 1]
  {
    hide IsRun, CommittedAt;
    CommittedPrefixesAgree(r, j, k, a, b);
  }

  lemma LeadersPass(r: Execution, ids: seq<NodeId>, k: nat, b: CS.Book)
    requires IsRun(r) && k < |r.states| && Ascends(ids, r.states[0]) && BookOK(r, k, b)
    ensures CS.OneLeaderPerTerm(b.leaders, ViewsOf(r.states[k]))
  {
    hide IsRun, ViewOf, Remembers, ViewsOf;
    ObservationListed(r, ids, k);
    var nodes := ViewsOf(r.states[k]);
    forall i | i in nodes && nodes[i].leader ensures nodes[i].id == i && LeadsAt(r, k, i, nodes[i].term) { LeaderView(r, k, i); }
    forall i | i in nodes && nodes[i].leader && nodes[i].term in b.leaders ensures b.leaders[nodes[i].term] == nodes[i].id {
      var t := nodes[i].term;
      assert Led(r, k, t, b.leaders[t]);
      var j :| LedBefore(r, k, t, b.leaders[t], j);
      ElectionSafety(r, j, k, b.leaders[t], i, t);
    }
    forall i, j | i in nodes && j in nodes && nodes[i].leader && nodes[j].leader && nodes[i].term == nodes[j].term ensures nodes[i].id == nodes[j].id {
      ElectionSafety(r, k, k, i, j, nodes[i].term);
    }
  }

  lemma LeaderView(r: Execution, k: nat, i: NodeId)
    requires At(r, k, i)
    ensures var v := ViewOf(NodeAt(r, k, i)); v.id == i && (v.leader <==> LeadsAt(r, k, i, v.term))
  {
    hide IsRun;
    ViewFacts(r, k, i);
  }

  lemma AppendOnlyPasses(r: Execution, ids: seq<NodeId>, k: nat)
    requires IsRun(r) && k < |r.states| && Ascends(ids, r.states[0])
    ensures CS.AppendOnly(LastViews(r, k), ViewsOf(r.states[k]))
  {
    hide IsRun, ViewOf, ViewsOf, CS.KeepsLog;
    ObservationListed(r, ids, k);
    var nodes := ViewsOf(r.states[k]);
    forall i | i in nodes ensures CS.KeepsLog(LastViews(r, k), nodes[i]) {
      LeaderView(r, k, i);
      if k > 0 {
        ObservationListed(r, ids, k - 1);
        LeaderKeepsLog(r, k, i);
      } else {
        NothingBefore(nodes[i]);
      }
    }
  }

  lemma NothingBefore(v: CS.NodeView)
    ensures CS.KeepsLog(map[], v)
  {}

  lemma LeaderKeepsLog(r: Execution, k: nat, i: NodeId)
    requires k > 0 && At(r, k, i)
    ensures k - 1 < |r.states| && CS.KeepsLog(ViewsOf(r.states[k - 1]), ViewOf(NodeAt(r, k, i)))
  {
    hide IsRun, ViewOf;
    SameServers(r, k);
    SameServers(r, k - 1);
    LeaderView(r, k, i);
    LeaderView(r, k - 1, i);
    ViewFacts(r, k, i);
    ViewFacts(r, k - 1, i);
    var before, now := ViewOf(NodeAt(r, k - 1, i)), ViewOf(NodeAt(r, k, i));
    if before.leader && now.leader && before.term == now.term {
      LeaderAppendOnly(r, k - 1, k, i, now.term);
    }
  }

  lemma MatchingPasses(r: Execution, ids: seq<NodeId>, k: nat)
    requires IsRun(r) && k < |r.states| && Ascends(ids, r.states[0])
    ensures CS.AllMatching(ViewsOf(r.states[k]))
  {
    hide IsRun, ViewOf, ViewsOf, CS.Matching;
    ObservationListed(r, ids, k);
    var nodes := ViewsOf(r.states[k]);
    forall i, j | i in nodes && j in nodes && i < j ensures CS.Matching(nodes[i], nodes[j]) { PairMatches(r, k, i, j); }
  }

  lemma PairMatches(r: Execution, k: nat, i: NodeId, j: NodeId)
    requires At(r, k, i) && At(r, k, j)
    ensures CS.Matching(ViewOf(NodeAt(r, k, i)), ViewOf(NodeAt(r, k, j)))
  {
    hide IsRun, ViewOf;
    ViewFacts(r, k, i);
    ViewFacts(r, k, j);
    var a, b := ViewOf(NodeAt(r, k, i)), ViewOf(NodeAt(r, k, j));
    forall index: nat, below: nat
      | CS.Shared(a, b, index) && CS.Shared(a, b, below) && below <= index && CS.EntryAt(a, index).term == CS.EntryAt(b, index).term
      ensures CS.EntryAt(a, below) == CS.EntryAt(b, below)
    {
      LogsMatch(r, k, k, i, j, index - 1);
      assert LogAt(r, k, i)[..index][below - 1] == LogAt(r, k, j)[..index][below - 1];
    }
  }

  lemma MonotonePasses(r: Execution, ids: seq<NodeId>, k: nat, b: CS.Book)
    requires IsRun(r) && k < |r.states| && Ascends(ids, r.states[0]) && BookOK(r, k, b)
    ensures CS.Monotone(b, ViewsOf(r.states[k]))
  {
    hide IsRun, ViewsOf;
    ObservationListed(r, ids, k);
    var nodes := ViewsOf(r.states[k]);
    forall i | i in nodes ensures CS.PrevCommit(b, nodes[i]) <= nodes[i].commit {
      ViewFacts(r, k, i);
      if k > 0 {
        assert Remembers(r, k, b, i);
        CommitsOnlyCrash(r, k - 1, i);
      }
    }
  }

  lemma CommitsOnlyCrash(r: Execution, k: nat, i: NodeId)
    requires At(r, k, i) && At(r, k + 1, i)
    ensures NodeAt(r, k + 1, i).incarnation == NodeAt(r, k, i).incarnation ==> NodeAt(r, k, i).replica.commit <= NodeAt(r, k + 1, i).replica.commit
  {
    hide IsRun, Uncompacted, Handle, AboveBase, Sent, ClientCommand, ChangeConfig, RequestRead, ElectionTimeout, HeartbeatTick, ConfigOf, LatestConfig;
    RunSize(r);
    StepEnabled(r, k);
    StepChanges(r, k);
    var n, e := NodeAt(r, k, i), r.events[k];
    if i == Actor(e) {
      MembershipIsDerived(r, k, i);
      UncompactedFacts(n, r.states[0].initial);
      if e.Deliver? {
        AlwaysAboveBase(r, k);
        HandleKeepsCommit(n, e.packet.msg);
      } else if !e.Crash? {
        LocalNeverLowers(n, e);
      }
    }
  }

  lemma CommitsPass(r: Execution, ids: seq<NodeId>, k: nat, b: CS.Book)
    requires IsRun(r) && k < |r.states| && Ascends(ids, r.states[0]) && BookOK(r, k, b)
    ensures CS.Listed(ids, ViewsOf(r.states[k])) && CS.CommitsAgree(b, ViewsOf(r.states[k]))
  {
    hide IsRun, ViewsOf, ViewOf, CommittedAt, CS.PrevCommit, CS.EntryAt, Remembers;
    ObservationListed(r, ids, k);
    var nodes := ViewsOf(r.states[k]);
    forall i, index: nat | i in nodes && CS.NewIn(b, nodes, i, index)
      ensures 0 < index <= |CommittedAt(r, k, i)| && CS.Live(nodes[i], index) && CS.EntryAt(nodes[i], index) == CommittedAt(r, k, i)[index - 1]
    {
      ViewFacts(r, k, i);
      EntryOf(r, k, i, index);
    }
    forall i, index: nat | i in nodes && CS.NewIn(b, nodes, i, index) && index in b.committed
      ensures b.committed[index].entry == CS.EntryAt(nodes[i], index)
    {
      assert Shown(r, k, index, b.committed[index]);
      var j, l :| ShowedAt(r, k, index, b.committed[index], j, l);
      SameEntry(r, j, k, l, i, index);
    }
    forall i, j, index: nat | i in nodes && j in nodes && CS.NewIn(b, nodes, i, index) && CS.NewIn(b, nodes, j, index)
      ensures CS.EntryAt(nodes[i], index) == CS.EntryAt(nodes[j], index)
    {
      SameEntry(r, k, k, i, j, index);
    }
  }

  lemma NothingCommittedAtStart(r: Execution, i: NodeId)
    requires At(r, 0, i)
    ensures NodeAt(r, 0, i).replica.commit == 0
  {}

  lemma NotSeen(r: Execution, k: nat, b: CS.Book, index: nat)
    requires k > 0 && BookOK(r, k, b) && b.maxCommit < index
    ensures !SeenBy(r, k - 1, index)
  {
    hide AllLed, AllShown, AllApplied, Remembers;
  }

  lemma FirstHeld(r: Execution, ids: seq<NodeId>, k: nat, b: CS.Book, i: NodeId, index: nat)
    requires IsRun(r) && k < |r.states| && Ascends(ids, r.states[0]) && BookOK(r, k, b)
    requires At(r, k, i) && b.maxCommit < index && 0 < index <= NodeAt(r, k, i).replica.commit
    ensures index <= |LogAt(r, k, i)| && CS.HeldByMajority(ViewsOf(r.states[k]), ViewOf(NodeAt(r, k, i)), index, LogAt(r, k, i)[index - 1])
  {
    hide IsRun, ViewsOf, BookOK, CS.HeldByMajority, HoldsAt;
    RunSize(r);
    ViewFacts(r, k, i);
    if k == 0 { NothingCommittedAtStart(r, i); }
    assert k > 0;
    SameServers(r, k);
    SameServers(r, k - 1);
    NotSeen(r, k, b, index);
    CommitQuorum(r, k - 1, i, index);
    HoldersCount(r, ids, k, i, index);
  }

  lemma HolderView(r: Execution, k: nat, v: NodeId, held: Log, index: nat)
    requires HoldsAt(r, k, v, held) && 0 < index <= |held|
    ensures k < |r.states| && v in ViewsOf(r.states[k]) && CS.Holds(ViewsOf(r.states[k])[v], index, held[index - 1])
  {
    hide IsRun;
    ViewFacts(r, k, v);
    assert LogAt(r, k, v)[index - 1] == held[index - 1];
  }

  lemma VotersOf(n: NodeState)
    ensures ViewOf(n).voters == n.replica.voters
  {}

  lemma MoreHolders(nodes: CS.Views, view: CS.NodeView, index: nat, entry: Entry, holding: set<NodeId>)
    requires holding <= view.voters && |holding| * 2 > |view.voters|
    requires forall v | v in holding :: v in nodes && CS.Holds(nodes[v], index, entry)
    ensures CS.HeldByMajority(nodes, view, index, entry)
  {
    hide CS.Holds;
    assert forall v | v in holding :: v in CS.Holders(nodes, view.voters, index, entry);
    SubsetSize(holding, CS.Holders(nodes, view.voters, index, entry));
  }

  lemma HoldersCount(r: Execution, ids: seq<NodeId>, k: nat, i: NodeId, index: nat)
    requires IsRun(r) && k < |r.states| && Ascends(ids, r.states[0]) && At(r, k, i) && 0 < index <= |CommittedAt(r, k, i)|
    requires var n, held := NodeAt(r, k, i), CommittedAt(r, k, i);
             |set v | v in n.replica.voters && HoldsAt(r, k, v, held)| * 2 > |n.replica.voters|
    ensures CS.HeldByMajority(ViewsOf(r.states[k]), ViewOf(NodeAt(r, k, i)), index, CommittedAt(r, k, i)[index - 1])
  {
    hide IsRun, CommittedAt, ViewsOf, ViewOf, HoldsAt, CS.Holds;
    VotersOf(NodeAt(r, k, i));
    var held, voters, nodes := CommittedAt(r, k, i), NodeAt(r, k, i).replica.voters, ViewsOf(r.states[k]);
    var holding := set v | v in voters && HoldsAt(r, k, v, held);
    forall v | v in holding ensures v in nodes && CS.Holds(nodes[v], index, held[index - 1]) { HolderView(r, k, v, held, index); }
    MoreHolders(nodes, ViewOf(NodeAt(r, k, i)), index, held[index - 1], holding);
  }

  lemma QuorumsPass(r: Execution, ids: seq<NodeId>, k: nat, b: CS.Book)
    requires IsRun(r) && k < |r.states| && Ascends(ids, r.states[0]) && BookOK(r, k, b)
    ensures CS.Listed(ids, ViewsOf(r.states[k])) && CS.Quorums(b, ViewsOf(r.states[k]))
  {
    hide IsRun, ViewsOf, ViewOf, CS.HeldByMajority, BookOK, CS.PrevCommit, CS.EntryAt;
    ObservationListed(r, ids, k);
    var nodes := ViewsOf(r.states[k]);
    forall i, index: nat | i in nodes && CS.FirstToCommit(b, nodes, i, index)
      ensures CS.Live(nodes[i], index) && CS.HeldByMajority(nodes, nodes[i], index, CS.EntryAt(nodes[i], index))
    {
      ViewFacts(r, k, i);
      FirstHeld(r, ids, k, b, i, index);
      EntryOf(r, k, i, index);
    }
  }

  /** Whatever is known to be committed after the observation was shown by some server by then. */
  lemma CommittedShown(r: Execution, ids: seq<NodeId>, k: nat, b: CS.Book)
    requires IsRun(r) && k < |r.states| && Ascends(ids, r.states[0]) && BookOK(r, k, b)
    ensures CS.Listed(ids, ViewsOf(r.states[k]))
    ensures AllShown(r, k + 1, CS.Committed(b, ViewsOf(r.states[k]), ids))
  {
    hide IsRun, ViewsOf, ViewOf, CommittedAt, CS.Committed, CS.PrevCommit, CS.EntryAt, Remembers;
    ObservationListed(r, ids, k);
    var nodes := ViewsOf(r.states[k]);
    CheckerCommits.CommittedFrom(b, nodes, ids);
    var all := CS.Committed(b, nodes, ids);
    forall index | index in all ensures Shown(r, k + 1, index, all[index]) {
      if index in b.committed {
        assert Shown(r, k, index, b.committed[index]);
        var j, i :| ShowedAt(r, k, index, b.committed[index], j, i);
        assert ShowedAt(r, k + 1, index, all[index], j, i);
      } else {
        var i :| CheckerCommits.ShownBy(b, nodes, ids, index, all[index], i);
        ViewFacts(r, k, i);
        EntryOf(r, k, i, index);
        TermOf(NodeAt(r, k, i));
        assert ShowedAt(r, k + 1, index, all[index], k, i);
      }
    }
  }

  lemma TermOf(n: NodeState)
    ensures ViewOf(n).term == n.term
  {}

  lemma CompletePasses(r: Execution, ids: seq<NodeId>, k: nat, b: CS.Book)
    requires IsRun(r) && k < |r.states| && Ascends(ids, r.states[0]) && BookOK(r, k, b)
    ensures CS.Listed(ids, ViewsOf(r.states[k])) && CS.LeadersComplete(CS.Committed(b, ViewsOf(r.states[k]), ids), ViewsOf(r.states[k]))
  {
    hide IsRun, ViewsOf, ViewOf, CommittedAt, CS.Committed, BookOK;
    ObservationListed(r, ids, k);
    CommittedShown(r, ids, k, b);
    var nodes := ViewsOf(r.states[k]);
    var all := CS.Committed(b, nodes, ids);
    forall l, index | l in nodes && nodes[l].leader && index in all && all[index].term <= nodes[l].term
      ensures CS.Holds(nodes[l], index, all[index].entry)
    {
      assert Shown(r, k + 1, index, all[index]);
      var j, i :| ShowedAt(r, k + 1, index, all[index], j, i);
      LeaderView(r, k, l);
      LeaderCompletenessOverRuns(r, j, k, i, l, nodes[l].term);
      ViewFacts(r, k, l);
      EntryOf(r, k, l, index);
      assert LogAt(r, k, l)[index - 1] == CommittedAt(r, j, i)[index - 1];
    }
  }

  lemma AppliedCommandOf(r: Execution, k: nat, i: NodeId, index: nat)
    requires At(r, k, i)
    ensures var v := ViewOf(NodeAt(r, k, i));
            v.base < index <= CS.AppliedTop(v) ==>
              0 < index <= |CommittedAt(r, k, i)| && CS.AppliedCommand(v, index) == CommittedAt(r, k, i)[index - 1].command
  {
    hide IsRun;
    ViewFacts(r, k, i);
    CommandsAt(CommittedAt(r, k, i));
  }

  lemma AppliedShown(r: Execution, ids: seq<NodeId>, k: nat, b: CS.Book)
    requires IsRun(r) && k < |r.states| && Ascends(ids, r.states[0]) && BookOK(r, k, b)
    ensures CS.Listed(ids, ViewsOf(r.states[k]))
    ensures AllApplied(r, k + 1, CS.AppliedAt(b, ViewsOf(r.states[k]), ids))
  {
    hide IsRun, ViewsOf, ViewOf, CommittedAt, CS.AppliedAt, CS.AppliedSeen, CS.AppliedCommand, Remembers;
    ObservationListed(r, ids, k);
    var nodes := ViewsOf(r.states[k]);
    CheckerCommits.AppliedFrom(b, nodes, ids);
    var all := CS.AppliedAt(b, nodes, ids);
    forall index | index in all ensures Applied(r, k + 1, index, all[index]) {
      if index in b.appliedAt {
        assert Applied(r, k, index, b.appliedAt[index]);
        var j, i :| AppliedBefore(r, k, index, b.appliedAt[index], j, i);
        assert AppliedBefore(r, k + 1, index, all[index], j, i);
      } else {
        var i :| CheckerCommits.AppliedBy(b, nodes, ids, index, all[index], i);
        AppliedCommandOf(r, k, i, index);
        assert AppliedBefore(r, k + 1, index, all[index], k, i);
      }
    }
  }

  lemma AppliesPass(r: Execution, ids: seq<NodeId>, k: nat, b: CS.Book)
    requires IsRun(r) && k < |r.states| && Ascends(ids, r.states[0]) && BookOK(r, k, b)
    ensures CS.AppliesAgree(b, ViewsOf(r.states[k]))
  {
    hide IsRun, ViewsOf, ViewOf, CommittedAt, CS.AppliedSeen, CS.AppliedCommand, Remembers;
    ObservationListed(r, ids, k);
    var nodes := ViewsOf(r.states[k]);
    forall i, index: nat | i in nodes && CS.ApplyIn(b, nodes, i, index) && index in b.appliedAt
      ensures b.appliedAt[index] == CS.AppliedCommand(nodes[i], index)
    {
      AppliedCommandOf(r, k, i, index);
      assert Applied(r, k, index, b.appliedAt[index]);
      var j, l :| AppliedBefore(r, k, index, b.appliedAt[index], j, l);
      SameEntry(r, j, k, l, i, index);
    }
    forall i, j, index: nat | i in nodes && j in nodes && CS.ApplyIn(b, nodes, i, index) && CS.ApplyIn(b, nodes, j, index)
      ensures CS.AppliedCommand(nodes[i], index) == CS.AppliedCommand(nodes[j], index)
    {
      AppliedCommandOf(r, k, i, index);
      AppliedCommandOf(r, k, j, index);
      SameEntry(r, k, k, i, j, index);
    }
  }

  // ---- the book stays right ----

  lemma LeadersRemembered(r: Execution, ids: seq<NodeId>, k: nat, b: CS.Book)
    requires IsRun(r) && k < |r.states| && Ascends(ids, r.states[0]) && BookOK(r, k, b)
    ensures CS.Listed(ids, ViewsOf(r.states[k]))
    ensures AllLed(r, k + 1, CS.Leaders(b.leaders, ViewsOf(r.states[k]), ids))
  {
    hide IsRun, ViewsOf, ViewOf, CS.Leaders, AllShown, AllApplied, Remembers;
    ObservationListed(r, ids, k);
    var nodes := ViewsOf(r.states[k]);
    CheckerCaches.LeadersFrom(b.leaders, nodes, ids);
    var all := CS.Leaders(b.leaders, nodes, ids);
    forall t | t in all ensures Led(r, k + 1, t, all[t]) {
      if t in b.leaders {
        assert Led(r, k, t, b.leaders[t]);
        var j :| LedBefore(r, k, t, b.leaders[t], j);
        assert LedBefore(r, k + 1, t, all[t], j);
      } else {
        var i :| CheckerCaches.LeaderIn(nodes, ids, i, t, all[t]);
        LeaderView(r, k, i);
        assert LedBefore(r, k + 1, t, all[t], k);
      }
    }
  }

  lemma CommitsBounded(r: Execution, ids: seq<NodeId>, k: nat, b: CS.Book)
    requires IsRun(r) && k < |r.states| && Ascends(ids, r.states[0]) && BookOK(r, k, b)
    ensures CS.Listed(ids, ViewsOf(r.states[k]))
    ensures forall j: nat, i: NodeId | j < k + 1 && At(r, j, i) :: NodeAt(r, j, i).replica.commit <= CS.MaxCommit(b, ViewsOf(r.states[k]), ids)
  {
    hide IsRun, ViewsOf, ViewOf, CS.MaxCommit, AllLed, AllShown, AllApplied, Remembers;
    ObservationListed(r, ids, k);
    var nodes := ViewsOf(r.states[k]);
    var max := CS.MaxCommit(b, nodes, ids);
    CheckerCommits.MaxCommitFrom(b, nodes, ids, max + 1);
    forall i: NodeId | At(r, k, i) ensures NodeAt(r, k, i).replica.commit <= max { ViewFacts(r, k, i); CommitOf(NodeAt(r, k, i)); }
  }

  lemma CommitOf(n: NodeState)
    ensures ViewOf(n).commit == n.replica.commit && ViewOf(n).incarnation == n.incarnation
  {}

  lemma RemembersNow(r: Execution, ids: seq<NodeId>, k: nat, b: CS.Book, i: NodeId)
    requires IsRun(r) && k < |r.states| && Ascends(ids, r.states[0]) && CS.Listed(ids, ViewsOf(r.states[k])) && At(r, k + 1, i)
    ensures Remembers(r, k + 1, CS.Noted(b, ViewsOf(r.states[k]), ids), i)
  {
    hide IsRun, ViewsOf, ViewOf, CS.MaxCommit, CS.Leaders, CS.Committed, CS.AppliedAt, CS.ProgressOf, CS.Listed;
    ObservationListed(r, ids, k);
    SameServers(r, k);
    SameServers(r, k + 1);
    CommitOf(NodeAt(r, k, i));
  }

  lemma BookStep(r: Execution, ids: seq<NodeId>, k: nat, b: CS.Book)
    requires IsRun(r) && k < |r.states| && Ascends(ids, r.states[0]) && BookOK(r, k, b)
    ensures CS.Listed(ids, ViewsOf(r.states[k])) && BookOK(r, k + 1, CS.Noted(b, ViewsOf(r.states[k]), ids))
  {
    hide IsRun, ViewsOf, ViewOf, CS.MaxCommit, CS.Leaders, CS.Committed, CS.AppliedAt, CS.ProgressOf, AllLed, AllShown, AllApplied;
    ObservationListed(r, ids, k);
    LeadersRemembered(r, ids, k, b);
    CommittedShown(r, ids, k, b);
    AppliedShown(r, ids, k, b);
    CommitsBounded(r, ids, k, b);
    var b' := CS.Noted(b, ViewsOf(r.states[k]), ids);
    var k' := k + 1;
    forall i | At(r, k', i) ensures Remembers(r, k', b', i) { RemembersNow(r, ids, k, b, i); }
  }

  lemma {:induction false} BooksOK(r: Execution, ids: seq<NodeId>, k: nat)
    requires IsRun(r) && k < |r.states| && Ascends(ids, r.states[0]) && ListedUpTo(r, ids, k)
    ensures BookOK(r, k, BookAt(r, ids, k))
    decreases k
  {
    hide IsRun, BookOK, CS.Noted, ViewsOf, CS.Listed;
    if k == 0 {
      BlankOK(r);
    } else {
      BooksOK(r, ids, k - 1);
      BookStep(r, ids, k - 1, BookAt(r, ids, k - 1));
    }
  }

  lemma BlankOK(r: Execution)
    ensures BookOK(r, 0, CS.BLANK)
  {}

  /** The checker never raises: in every run of the protocol, looking at the cluster in every state it goes
      through, each of the seven checks passes. */
  lemma CheckerNeverRaises(r: Execution, ids: seq<NodeId>, k: nat)
    requires IsRun(r) && k < |r.states| && Ascends(ids, r.states[0])
    ensures ListedUpTo(r, ids, k) && CS.Listed(ids, ViewsOf(r.states[k]))
    ensures CS.Accepts(BookAt(r, ids, k), LastViews(r, k), ViewsOf(r.states[k]), ids)
  {
    hide IsRun, BookOK, ViewsOf, LastViews, CS.Listed, CS.OneLeaderPerTerm, CS.AppendOnly, CS.AllMatching, CS.Monotone, CS.CommitsAgree, CS.Quorums,
         CS.LeadersComplete, CS.AppliesAgree, CS.Committed;
    RunsAreListed(r, ids, k);
    BooksOK(r, ids, k);
    var b := BookAt(r, ids, k);
    LeadersPass(r, ids, k, b);
    AppendOnlyPasses(r, ids, k);
    MatchingPasses(r, ids, k);
    MonotonePasses(r, ids, k, b);
    CommitsPass(r, ids, k, b);
    QuorumsPass(r, ids, k, b);
    CompletePasses(r, ids, k, b);
    AppliesPass(r, ids, k, b);
  }

  /** The checker object, shown every state of a run in turn, passes them all. */
  method Watch(r: Execution, ids: seq<NodeId>) returns (passed: bool)
    requires IsRun(r) && Ascends(ids, r.states[0])
    ensures passed
  {
    hide IsRun, ViewsOf, ListedUpTo, CS.Listed, InvariantChecker.InvariantChecker.View, InvariantChecker.InvariantChecker.Valid;
    RunSize(r);
    var checker := new InvariantChecker.InvariantChecker();
    RunsAreListed(r, ids, 0);
    passed := true;
    var k := 0;
    while k < |r.states|
      invariant k <= |r.states| && passed && fresh(checker) && checker.Valid()
      invariant k < |r.states| ==> Watched(r, ids, k, checker.View(), checker.last)
    {
      passed := WatchOne(checker, r, ids, k);
      k := k + 1;
    }
  }

  predicate Watched(r: Execution, ids: seq<NodeId>, k: nat, b: CS.Book, last: CS.Views) {
    ListedUpTo(r, ids, k) && b == BookAt(r, ids, k) && last == LastViews(r, k)
  }

  method WatchOne(checker: InvariantChecker.InvariantChecker, r: Execution, ids: seq<NodeId>, k: nat) returns (passed: bool)
    requires IsRun(r) && Ascends(ids, r.states[0]) && k < |r.states|
    requires checker.Valid() && Watched(r, ids, k, checker.View(), checker.last)
    modifies checker
    ensures passed && checker.Valid()
    ensures k + 1 < |r.states| ==> Watched(r, ids, k + 1, checker.View(), checker.last)
  {
    hide IsRun, ViewsOf, ListedUpTo, CS.Listed, CS.Accepts, CS.Noted, CS.VersionsTell, LastViews, BookAt,
         InvariantChecker.InvariantChecker.View, InvariantChecker.InvariantChecker.Valid;
    CheckerNeverRaises(r, ids, k);
    ObservationsFollow(r, ids, k);
    NextBook(r, ids, k);
    passed := checker.Check(ViewsOf(r.states[k]), ids);
  }

  lemma NextBook(r: Execution, ids: seq<NodeId>, k: nat)
    requires IsRun(r) && Ascends(ids, r.states[0]) && k < |r.states|
    ensures CS.Listed(ids, ViewsOf(r.states[k])) && ListedUpTo(r, ids, k)
    ensures k + 1 < |r.states| ==>
              && ListedUpTo(r, ids, k + 1)
              && BookAt(r, ids, k + 1) == CS.Noted(BookAt(r, ids, k), ViewsOf(r.states[k]), ids)
              && LastViews(r, k + 1) == LastViews(r, k) + ViewsOf(r.states[k])
  {
    hide IsRun, CS.Listed, CS.Noted, ViewOf;
    RunsAreListed(r, ids, k);
    if k + 1 < |r.states| { RunsAreListed(r, ids, k + 1); }
    SameServers(r, k);
    if k > 0 { SameServers(r, k - 1); }
    var all := LastViews(r, k) + ViewsOf(r.states[k]);
    assert all == ViewsOf(r.states[k]);
  }

  // ---- the same without the book ----

  function RecordingOf(r: Execution): (obs: Recordings.Recording)
    ensures |obs| == |r.states|
  {
    seq(|r.states|, k requires 0 <= k < |r.states| => ViewsOf(r.states[k]))
  }

  lemma RunsAreRecorded(r: Execution, ids: seq<NodeId>)
    requires IsRun(r) && Ascends(ids, r.states[0])
    ensures Recordings.Recorded(RecordingOf(r), ids)
  {
    hide IsRun, ViewsOf, CS.Listed;
    forall k | 0 <= k < |r.states| ensures CS.Listed(ids, RecordingOf(r)[k]) { ObservationListed(r, ids, k); }
  }

  lemma {:induction false} SameBook(r: Execution, ids: seq<NodeId>, k: nat)
    requires IsRun(r) && Ascends(ids, r.states[0]) && k < |r.states|
    ensures ListedUpTo(r, ids, k) && Recordings.Recorded(RecordingOf(r), ids)
    ensures Recordings.BookAfter(RecordingOf(r), ids, k) == BookAt(r, ids, k) && Recordings.LastSeen(RecordingOf(r), k) == LastViews(r, k)
    decreases k
  {
    hide IsRun, ViewsOf, CS.Listed, CS.Noted, Ascends, Recordings.Recorded;
    RunsAreListed(r, ids, k);
    RunsAreRecorded(r, ids);
    if k > 0 { SameBook(r, ids, k - 1); }
  }

  /** Every observation of every run is sound: told by what was observed alone, one leader a term, leaders that keep
      their logs, logs that match, commit indices that do not regress, commits that agree, have their quorum and stay
      with later leaders, and one command applied at an index. */
  lemma {:induction false} RunsAreSound(r: Execution, ids: seq<NodeId>, k: nat)
    requires IsRun(r) && Ascends(ids, r.states[0]) && k < |r.states|
    ensures forall j: nat | j <= k :: Recordings.Sound(RecordingOf(r), j)
    decreases k
  {
    hide IsRun, ViewsOf, CS.Listed, CS.Accepts, Ascends, Recordings.Recorded, Recordings.Sound, Recordings.BookAfter, BookAt, LastViews, Recordings.LastSeen;
    if k > 0 { RunsAreSound(r, ids, k - 1); }
    SameBook(r, ids, k);
    CheckerNeverRaises(r, ids, k);
    Recordings.PassesExactly(RecordingOf(r), ids, k);
  }
}
