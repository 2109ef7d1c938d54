/** `log_version` is a sound cache key: in every step of a server, compaction and snapshots included, the
    version never goes back, and it grows whenever the log or its compaction point changes
    (raftverified/node.py). The commit index never goes back within an incarnation either. */
module LogVersions {
  import opened Types
  import opened Quorums
  import opened Logs
  import opened Kv
  import opened Replicas
  import opened NodeSpec
  import opened AppendSteps
  import opened Cluster
  import opened CommitRule

  predicate VersionTells(r: Replica, r': Replica) {
    r.version <= r'.version && (r.version == r'.version ==> r'.log == r.log && r'.base == r.base)
  }

  lemma AppendTells(r: Replica, prev: nat, es: Log)
    ensures VersionTells(r, AppendLoop(r, prev, es))
  {
    hide AppendLoop;
    LoopFrame(r, prev, es);
  }

  lemma CommitTells(r: Replica, index: nat)
    ensures VersionTells(r, SetCommit(r, index))
  {
    hide ConfigOf, LatestConfig, Run, Commands, ApplyReports, VotersUpTo;
  }

  lemma AbsorbTells(r: Replica, m: Message)
    requires m.AppendEntries?
    ensures VersionTells(r, Absorb(r, m))
  {
    hide AppendLoop, SetCommit;
    AppendTells(r, m.prevIndex, m.entries);
    var r1 := AppendLoop(r, m.prevIndex, m.entries);
    CommitTells(r1, Largest(r1.commit, Least(m.leaderCommit, m.prevIndex + |m.entries|)));
  }

  lemma InstallTells(r: Replica, s: Snapshot)
    requires s.lastIndex > r.base
    ensures VersionTells(r, Install(r, s))
  {
    hide ConfigOf, LatestConfig, TermAt;
  }

  lemma HandleTells(n: NodeState, m: Message)
    ensures VersionTells(n.replica, Handle(n, m).replica) && Handle(n, m).incarnation == n.incarnation
  {
    hide Absorb, Install, SetCommit, CommitPoint, MaybeWin, TermAt, LogInconsistent, ReadConfirmed, ApplyRead, Outgoing;
    match m
    case AppendEntries(_, _, _, _, _, _) =>
      if m.term >= n.term && !LogInconsistent(Recognise(n, m.term, m.leader), m) { AbsorbTells(n.replica, m); }
    case InstallSnapshot(_, _, _, _, _, _, _) => if m.lastIndex > n.replica.base { InstallTells(n.replica, ImageOf(m)); }
    case AppendReply(_, _, _, _) =>
      var n1 := NoteMatch(n, m.follower, m.matchIndex);
      CommitTells(n.replica, CommitPoint(n1, Last(n1)));
    case VoteReply(_, v, _) => WinKeeps(n.(votes := n.votes + {v}));
    case _ =>
  }

  lemma WinKeeps(n: NodeState)
    ensures MaybeWin(n).replica == n.replica && MaybeWin(n).incarnation == n.incarnation
  {
    hide ClientIndex, BroadcastPackets, Majority;
  }

  lemma LocalTells(n: NodeState, e: Event)
    requires !e.Deliver? && (e.Client? ==> !e.command.Config?)
    ensures VersionTells(n.replica, Act(n, e).replica)
    ensures e.Crash? || Act(n, e).incarnation == n.incarnation
  {
    hide ConfigOf, LatestConfig, BroadcastPackets, MaybeWin, OneApart, ReadConfirmed, AlreadyAppended, SolicitPackets, ApplyRead;
    if e.Timeout? && n.id in n.replica.voters {
      var c := Campaign(n);
      WinKeeps(c.(sent := c.sent + SolicitPackets(c, OtherVoters(c))));
    }
  }

  /** Every event: timers, messages, clients, configuration changes, reads, crashes and restarts. */
  lemma VersionGrows(n: NodeState, e: Event)
    requires e.Client? ==> !e.command.Config?
    ensures VersionTells(n.replica, Act(n, e).replica)
  {
    hide VersionTells;
    SameTells(n.replica);
    if e.Deliver? {
      HandleTells(n, e.packet.msg);
    } else {
      LocalTells(n, e);
    }
  }

  lemma SameTells(r: Replica)
    ensures VersionTells(r, r)
  {}

  // ---- commits only go back in a crash ----

  lemma CommitRises(r: Replica, index: nat)
    ensures SetCommit(r, index).commit == Largest(r.commit, index)
  {
    hide ConfigOf, LatestConfig, Run, Commands, ApplyReports, VotersUpTo;
  }

  /** Whatever the message and with compaction on, only a snapshot can lower the commit index. */
  lemma HandleKeepsCommit(n: NodeState, m: Message)
    requires !m.InstallSnapshot?
    ensures n.replica.commit <= Handle(n, m).replica.commit
  {
    hide AppendLoop, SetCommit, CommitPoint, MaybeWin, TermAt, LogInconsistent, ReadConfirmed, ApplyRead, Outgoing;
    match m
    case AppendEntries(_, _, _, _, _, _) =>
      if m.term >= n.term && !LogInconsistent(Recognise(n, m.term, m.leader), m) { AbsorbKeepsCommit(n.replica, m); }
    case AppendReply(_, _, _, _) =>
      var n1 := NoteMatch(n, m.follower, m.matchIndex);
      CommitRises(n.replica, CommitPoint(n1, Last(n1)));
    case VoteReply(_, v, _) => WinKeeps(n.(votes := n.votes + {v}));
    case _ =>
  }

  lemma AbsorbKeepsCommit(r: Replica, m: Message)
    requires m.AppendEntries?
    ensures r.commit <= Absorb(r, m).commit
  {
    hide AppendLoop, SetCommit;
    AppendLoopCommit(r, m.prevIndex, m.entries);
    var r1 := AppendLoop(r, m.prevIndex, m.entries);
    CommitRises(r1, Largest(r1.commit, Least(m.leaderCommit, m.prevIndex + |m.entries|)));
  }

  lemma LocalNeverLowers(n: NodeState, e: Event)
    requires !e.Deliver? && !e.Crash? && (e.Client? ==> !e.command.Config?)
    ensures Act(n, e).replica.commit == n.replica.commit
  {
    hide ConfigOf, LatestConfig, BroadcastPackets, MaybeWin, OneApart, ReadConfirmed, AlreadyAppended, SolicitPackets, ApplyRead;
    if e.Timeout? && n.id in n.replica.voters {
      var c := Campaign(n);
      WinKeeps(c.(sent := c.sent + SolicitPackets(c, OtherVoters(c))));
    }
  }
}
