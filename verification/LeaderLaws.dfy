/** Standing for election, winning, committing and answering reads: when each happens, counted out over the server's
    own configuration, and what it leaves behind (raftverified/node.py). */
module LeaderLaws {
  import opened Types
  import opened Logs
  import opened Kv
  import opened Replicas
  import opened NodeSpec
  import opened Recovery
  import opened HandlerLaws
  import opened CommitRule

  // ---- elections ----

  /** What a server becomes that wins the term it is in: nothing is known of its peers' logs but that they may lack
      everything, they are to be offered what follows its last entry, and each voter among them is told so. */
  ghost predicate Wins(n: NodeState, hist: Log, n': NodeState) {
    && n'.role.Leader? && n'.leaderId == Some(n.id) && n'.term == n.term && n'.votedFor == n.votedFor
    && n'.replica == n.replica && !n'.committedThisTerm && n.sent <= n'.sent
    && n'.progress.nextIndex.Keys == n.peers && n'.progress.matchIndex.Keys == n.peers + {n.id}
    && (forall p | p in n.peers :: n'.progress.nextIndex[p] == |hist| + 1)
    && (forall p | p in n.peers + {n.id} :: n'.progress.matchIndex[p] == if p == n.id then |hist| else 0)
    && (forall p | p in n.replica.voters && p != n.id && p in n.peers ::
          Packet(n.id, p, AppendEntries(n.term, n.id, |hist|, LastTerm(hist), [], n.replica.commit)) in n'.sent)
  }

  lemma LeadWins(n: NodeState, hist: Log)
    requires Represents(n.replica, hist)
    ensures Wins(n, hist, BecomeLeader(n))
  {
    HistoryLength(n.replica, hist);
    LastTermOf(n.replica, hist);
    hide Represents, ClientIndex, TermAt, Outgoing, LastTerm;
    var l := Lead(n);
    forall p | p in n.replica.voters && p != n.id && p in n.peers
      ensures Packet(n.id, p, AppendEntries(n.term, n.id, |hist|, LastTerm(hist), [], n.replica.commit)) in Broadcast(l).sent
    {
      OffersNothing(n, hist, p);
      assert p in OtherVoters(l);
    }
  }

  /** A new leader's first message to a peer builds on its last entry. */
  lemma OffersNothing(n: NodeState, hist: Log, p: NodeId)
    requires Represents(n.replica, hist) && p in n.peers
    ensures Packet(n.id, p, AppendEntries(n.term, n.id, |hist|, LastTerm(hist), [], n.replica.commit)) in Outgoing(Lead(n), p)
  {
    HistoryLength(n.replica, hist);
    hide Represents, Outgoing, Updates;
    var l := Lead(n);
    LeadProgress(n, p);
    SendsTail(l, hist, p, |hist|);
    var pk :| IsUpdate(l, hist, p, pk) && Outgoing(l, p) == {pk};
    OffersTail(l, hist, |hist|, pk.msg);
  }

  lemma LeadProgress(n: NodeState, p: NodeId)
    requires p in n.peers
    ensures var l := Lead(n); p in l.progress.nextIndex && l.progress.nextIndex[p] == Last(n) + 1
    ensures var l := Lead(n); l.id == n.id && l.term == n.term && l.replica == n.replica
  {
    hide ClientIndex;
  }

  lemma OffersTail(l: NodeState, hist: Log, prev: nat, msg: Message)
    requires Updates(l, hist, prev, msg) && prev == |hist| >= l.replica.base
    ensures msg == AppendEntries(l.term, l.id, |hist|, LastTerm(hist), [], l.replica.commit)
  {
    assert hist[..|hist|] == hist && hist[|hist|..] == [];
  }

  /** A vote counts exactly if it was granted for the term the server is still standing in, and the server wins exactly
      if those it then has are more than half of its own configuration. */
  lemma VotesAreCounted(n: NodeState, hist: Log, m: Message)
    requires n.alive && Represents(n.replica, hist) && m.VoteReply? && m.term <= n.term
    ensures var n' := Handle(n, m);
            var counts := n.role.Candidate? && m.granted && m.term == n.term;
            var backers := set v | v in n.replica.voters && (v in n.votes || v == m.voter);
            && (!counts ==> n' == n)
            && (counts && |backers| * 2 <= |n.replica.voters| ==> n' == n.(votes := n.votes + {m.voter}))
            && (counts && |backers| * 2 > |n.replica.voters| ==> Wins(n, hist, n'))
  {
    hide Represents, Wins, BecomeLeader;
    var n1 := n.(votes := n.votes + {m.voter});
    assert (set v | v in n.replica.voters && (v in n.votes || v == m.voter)) == n1.votes * n1.replica.voters;
    LeadWins(n1, hist);
    WinsIgnoresVotes(n, n1, hist, BecomeLeader(n1));
  }

  lemma WinsIgnoresVotes(n: NodeState, n1: NodeState, hist: Log, n': NodeState)
    requires n1 == n.(votes := n1.votes)
    ensures Wins(n1, hist, n') <==> Wins(n, hist, n')
  {}

  /** A timeout makes a live server that does not lead, and is a voter itself, ask every other voter for its vote in the
      next term; it wins at once exactly if there is no other. It does nothing to anyone else. */
  lemma CampaignIsExact(n: NodeState, hist: Log)
    requires Represents(n.replica, hist)
    ensures var n', stands := ElectionTimeout(n), n.alive && !n.role.Leader? && n.id in n.replica.voters;
            && (!stands ==> n' == n)
            && (stands ==>
                  && n'.term == n.term + 1 && n'.votedFor == Some(n.id) && n'.replica == n.replica
                  && (forall p | p in n.replica.voters && p != n.id :: Packet(n.id, p, RequestVote(n.term + 1, n.id, |hist|, LastTerm(hist))) in n'.sent)
                  && (n.replica.voters == {n.id} ==> n'.role.Leader?)
                  && (n.replica.voters != {n.id} ==> n'.role.Candidate? && n'.votes == {n.id} && n'.leaderId == None))
  {
    hide Represents, MaybeWin, SolicitPackets;
    var stands := n.alive && !n.role.Leader? && n.id in n.replica.voters;
    if stands {
      Solicits(n, hist);
      var c := Campaign(n);
      WinsAlone(c.(sent := c.sent + SolicitPackets(c, OtherVoters(c))));
    }
  }

  lemma Solicits(n: NodeState, hist: Log)
    requires Represents(n.replica, hist)
    ensures var c := Campaign(n);
            forall p | p in n.replica.voters && p != n.id ::
              Packet(n.id, p, RequestVote(n.term + 1, n.id, |hist|, LastTerm(hist))) in SolicitPackets(c, OtherVoters(c))
  {
    LastTermOf(n.replica, hist);
    hide Represents, TermAt, LastTerm;
    var c := Campaign(n);
    forall p | p in n.replica.voters && p != n.id
      ensures Packet(n.id, p, RequestVote(n.term + 1, n.id, |hist|, LastTerm(hist))) in SolicitPackets(c, OtherVoters(c))
    {
      assert p in OtherVoters(c);
    }
  }

  /** A candidate with its own vote only has a majority exactly if there is no other voter. */
  lemma WinsAlone(c: NodeState)
    requires c.role.Candidate? && c.votes == {c.id} && c.id in c.replica.voters
    ensures if c.replica.voters == {c.id} then MaybeWin(c) == BecomeLeader(c) else MaybeWin(c) == c
    ensures var n := BecomeLeader(c); n.role.Leader? && n.term == c.term && n.votedFor == c.votedFor && n.replica == c.replica && c.sent <= n.sent
  {
    hide ClientIndex, BroadcastPackets;
    assert {c.id} * c.replica.voters == {c.id};
    assert c.replica.voters == {c.id} + (c.replica.voters - {c.id});
  }

  // ---- commands ----

  /** A command that is taken and new is the next entry of the leader's history, and every other voter is sent its
      update. */
  lemma CommandIsSent(n: NodeState, hist: Log, cmd: Command)
    requires Represents(n.replica, hist) && !cmd.Config? && n.alive && n.role.Leader? && !AlreadyAppended(n, cmd)
    requires CanUpdateAll(Extend(n, cmd))
    ensures var n', hist' := ClientCommand(n, cmd).0, hist + [Entry(n.term, cmd)];
            && Represents(n'.replica, hist')
            && n.id in n'.progress.matchIndex && n'.progress.matchIndex[n.id] == |hist'|
            && (forall p | p in n.replica.voters && p != n.id :: exists pk :: pk in n'.sent && IsUpdate(n', hist', p, pk))
  {
    EntryIsSent(n, hist, cmd);
  }

  lemma EntryIsSent(n: NodeState, hist: Log, cmd: Command)
    requires Represents(n.replica, hist) && CanUpdateAll(Extend(n, cmd))
    ensures var n', hist' := Broadcast(Extend(n, cmd)), hist + [Entry(n.term, cmd)];
            && Represents(n'.replica, hist')
            && n.id in n'.progress.matchIndex && n'.progress.matchIndex[n.id] == |hist'|
            && (forall p | p in n'.replica.voters && p != n.id :: exists pk :: pk in n'.sent && IsUpdate(n', hist', p, pk))
            && (!cmd.Config? ==> n'.replica.voters == n.replica.voters)
  {
    HistoryLength(n.replica, hist);
    AppendOwnRecovers(n.replica, hist, Entry(n.term, cmd));
    hide Represents, Outgoing, IsUpdate;
    var n1, hist' := Extend(n, cmd), hist + [Entry(n.term, cmd)];
    BroadcastIsExact(n1, hist');
    forall p | p in n1.replica.voters && p != n.id ensures exists pk :: pk in Broadcast(n1).sent && IsUpdate(Broadcast(n1), hist', p, pk) {
      assert p in OtherVoters(n1);
      var pk :| pk in Broadcast(n1).sent && IsUpdate(n1, hist', p, pk);
      UpdateIgnoresSent(n1, Broadcast(n1), hist', p, pk);
    }
  }

  // ---- commit ----

  /** More than half of the leader's configuration is known to hold the first k entries, the last of which is of the
      leader's own term and not yet committed. */
  predicate Countable(n: NodeState, progress: Progress, hist: Log, k: nat) {
    var holders := set v | v in n.replica.voters && v in progress.matchIndex && progress.matchIndex[v] >= k;
    n.replica.commit < k <= |hist| && hist[k - 1].term == n.term && |holders| * 2 > |n.replica.voters|
  }

  predicate TermsRiseTo(hist: Log, term: nat) {
    && (forall j, k | 0 <= j <= k < |hist| :: hist[j].term <= hist[k].term)
    && forall k | 0 <= k < |hist| :: hist[k].term <= term
  }

  /** After a success the leader's commit index is the greatest one it can count to, or where it was; then, and only
      then, it has committed an entry of its own term. Its history does not change. */
  lemma CommitIsCounted(n: NodeState, hist: Log, m: Message)
    requires n.alive && n.role.Leader? && Represents(n.replica, hist) && TermsRiseTo(hist, n.term)
    requires m.AppendReply? && m.term == n.term && m.success
    ensures var n' := Handle(n, m); var k := n'.replica.commit;
            && (k == n.replica.commit || Countable(n, n'.progress, hist, k))
            && (forall x: nat | Countable(n, n'.progress, hist, x) :: x <= k)
            && (n'.committedThisTerm <==> n.committedThisTerm || k != n.replica.commit)
            && Represents(n'.replica, hist) && n'.replica.voters == n.replica.voters
  {
    hide Represents, Countable, TermsRiseTo, AdvanceCommit;
    var n1 := NoteMatch(n, m.follower, m.matchIndex);
    AdvanceIsCounted(n1, hist);
    CountIgnoresProgress(n, n1, hist);
  }

  lemma CountIgnoresProgress(n: NodeState, n1: NodeState, hist: Log)
    requires n1 == n.(progress := n1.progress)
    ensures forall k: nat :: Countable(n, n1.progress, hist, k) <==> Countable(n1, n1.progress, hist, k)
  {}

  lemma AdvanceIsCounted(n: NodeState, hist: Log)
    requires Represents(n.replica, hist) && TermsRiseTo(hist, n.term)
    ensures var n' := AdvanceCommit(n); var k := n'.replica.commit;
            && n'.progress == n.progress && n'.replica.voters == n.replica.voters && Represents(n'.replica, hist)
            && (k == n.replica.commit || Countable(n, n.progress, hist, k))
            && (forall x: nat | Countable(n, n.progress, hist, x) :: x <= k)
            && (n'.committedThisTerm <==> n.committedThisTerm || k != n.replica.commit)
  {
    HistoryLength(n.replica, hist);
    TermsAreSorted(n, hist);
    CountIsQuorum(n, hist);
    ScanIsExact(n, Last(n));
    hide Represents, SetCommit, CommitPoint, Countable, QuorumHolds, TermAt;
    CommitRecovers(n.replica, hist, CommitPoint(n, Last(n)));
  }

  lemma TermsAreSorted(n: NodeState, hist: Log)
    requires Represents(n.replica, hist) && TermsRiseTo(hist, n.term)
    ensures SortedTerms(n)
  {
    HistoryLength(n.replica, hist);
    LiveTail(n.replica, hist);
    hide Represents;
  }

  lemma CountIsQuorum(n: NodeState, hist: Log)
    requires Represents(n.replica, hist)
    ensures forall k: nat :: Countable(n, n.progress, hist, k) <==> MayCommitAt(n, k)
  {
    HistoryLength(n.replica, hist);
    LiveTail(n.replica, hist);
    hide Represents;
    forall k: nat | n.replica.commit < k <= |hist| ensures Countable(n, n.progress, hist, k) <==> MayCommitAt(n, k) {
      assert (set v | v in n.replica.voters && v in n.progress.matchIndex && n.progress.matchIndex[v] >= k)
          == (set v | v in n.replica.voters && MatchOf(n, v) >= k);
    }
  }

  // ---- reads ----

  /** An acknowledgement counts exactly if it is of the term the server leads and of a read still waiting; the read is
      then answered, from the state machine as it stands and once only, exactly if those who acknowledged it are more
      than half of the configuration and its index has been applied. */
  lemma AcksAreCounted(n: NodeState, m: Message)
    requires n.alive && m.ReadAck? && m.term <= n.term
    ensures var n' := Handle(n, m);
            var counts := n.role.Leader? && m.term == n.term && m.readId in n.readTable.pending;
            && (!counts ==> n' == n)
            && (counts ==>
                  var read := n.readTable.pending[m.readId];
                  var backers := set v | v in n.replica.voters && (v in read.acks || v == m.follower);
                  && n' == n.(readTable := n'.readTable, replica := n.replica.(reports := n'.replica.reports))
                  && n'.readTable.nextId == n.readTable.nextId
                  && if |backers| * 2 > |n.replica.voters| && read.index <= n.replica.lastApplied then
                       && n'.readTable.pending == n.readTable.pending - {m.readId}
                       && n'.replica.reports == n.replica.reports + [ReadServed(m.readId, n.replica.lastApplied, read.command, ApplyRead(n.replica.kv, read.command))]
                     else
                       && n'.readTable.pending == n.readTable.pending[m.readId := read.(acks := read.acks + {m.follower})]
                       && n'.replica.reports == n.replica.reports)
  {
    hide ApplyRead;
    if m.readId in n.readTable.pending {
      var read := n.readTable.pending[m.readId];
      assert (set v | v in n.replica.voters && (v in read.acks || v == m.follower)) == (read.acks + {m.follower}) * n.replica.voters;
      assert n.readTable.pending[m.readId := read.(acks := read.acks + {m.follower})] - {m.readId} == n.readTable.pending - {m.readId};
    }
  }
}
