/** The replicated-log protocol with its history: what every server's Raft state, the messages
    ever sent, and a ledger of past campaigns, ballots, elections, acknowledgements and commits
    satisfy in every reachable state. Steps are in ProtocolSteps. */
module Protocol {
  import opened Types
  import opened Quorums
  import opened Logs

  /** The part of one server's state that consensus depends on. */
  datatype Core = Core(
    term: nat, votedFor: Option<NodeId>, log: Log, role: Role, commit: nat,
    matched: map<NodeId, nat>, votes: set<NodeId>, committedThisTerm: bool)

  datatype Slot = Slot(term: nat, node: NodeId)
  datatype Ballot = Ballot(candidate: NodeId, log: Log)
  datatype Election = Election(leader: NodeId, base: Log, quorum: set<NodeId>)

  /** The leader of `term` counted `quorum` as holding its first `index` entries when its log
      had `length` entries, under the configuration named by those `length` entries. */
  datatype Commit = Commit(term: nat, index: nat, length: nat, quorum: set<NodeId>)

  datatype History = History(
    campaigns: map<Slot, Log>,      // the log a candidate campaigned with
    ballots: map<Slot, Ballot>,     // who a server voted for in a term, and its own log then
    elected: map<nat, Election>,    // the leader of each term, its log when elected, its voters
    leaderLog: map<nat, Log>,       // everything the leader of a term has held so far
    acked: map<Slot, nat>,          // longest prefix of that log a server held during the term
    commits: set<Commit>)

  datatype State = State(initial: set<NodeId>, nodes: map<NodeId, Core>, net: set<Packet>, h: History)

  // ---- reading the ledger ----

  function Written(h: History, t: nat, m: nat): Log {
    if t in h.leaderLog && m <= |h.leaderLog[t]| then h.leaderLog[t][..m] else []
  }

  predicate Acked(h: History, t: nat, v: NodeId, m: nat) {
    Slot(t, v) in h.acked && m <= h.acked[Slot(t, v)]
  }

  /** Some leader of a term in (t, hi] was elected without the first m entries of leader t. */
  ghost predicate Lost(h: History, t: nat, m: nat, hi: int) {
    exists w :: t < w <= hi && w in h.elected && !(Written(h, t, m) <= h.elected[w].base)
  }

  /** Every entry of `log` was written by the leader of its term, on top of the same prefix. */
  ghost predicate Genuine(h: History, log: Log, top: int) {
    forall i | 0 <= i < |log| ::
      log[i].term <= top && log[i].term in h.leaderLog && log[..i + 1] <= h.leaderLog[log[i].term]
  }

  /** Whatever v acknowledged in a term below u is in `log`, unless a later leader lost it. */
  ghost predicate Reflects(h: History, log: Log, v: NodeId, u: nat, hi: int) {
    forall t: nat, m: nat | t < u && Acked(h, t, v, m) :: Written(h, t, m) <= log || Lost(h, t, m, hi)
  }

  // ---- what holds of the ledger ----

  /** Ballots of term u that elect `candidate`, whose log is `log`. */
  ghost predicate Won(initial: set<NodeId>, h: History, u: nat, candidate: NodeId, log: Log, q: set<NodeId>, hi: int) {
    && Majority(q, ConfigOf(initial, log))
    && forall v {:trigger Supports(h, u, candidate, log, v, hi)} | v in q :: Supports(h, u, candidate, log, v, hi)
  }

  ghost predicate Supports(h: History, u: nat, candidate: NodeId, log: Log, v: NodeId, hi: int) {
    && Slot(u, v) in h.ballots
    && h.ballots[Slot(u, v)].candidate == candidate
    && AtLeastAsFresh(LastTerm(log), |log|, h.ballots[Slot(u, v)].log)
    && Reflects(h, h.ballots[Slot(u, v)].log, v, u, hi)
  }

  ghost predicate ElectionOK(initial: set<NodeId>, h: History, t: nat) {
    && t in h.elected && t in h.leaderLog && t >= 1
    && var e, log := h.elected[t], h.leaderLog[t];
    && e.base <= log
    && (forall i | |e.base| <= i < |log| :: log[i].term == t)
    && Genuine(h, e.base, t - 1)
    && Slot(t, e.leader) in h.campaigns && h.campaigns[Slot(t, e.leader)] == e.base
    && Won(initial, h, t, e.leader, e.base, e.quorum, t - 1)
  }

  ghost predicate CommitOK(initial: set<NodeId>, h: History, c: Commit) {
    && c.term in h.elected && c.term in h.leaderLog
    && |h.elected[c.term].base| < c.index <= c.length <= |h.leaderLog[c.term]|
    && Majority(c.quorum, ConfigOf(initial, Written(h, c.term, c.length)))
    && forall v {:trigger Acked(h, c.term, v, c.index)} | v in c.quorum :: Acked(h, c.term, v, c.index)
  }

  /** The commit c of leader t came before position j was written and covers every earlier
      configuration entry of that leader. */
  ghost predicate Clears(h: History, t: nat, j: nat, c: Commit) {
    && t in h.elected && t in h.leaderLog
    && c in h.commits && c.term == t && c.length <= j
    && forall i | |h.elected[t].base| <= i < j && ConfigAt(h.leaderLog[t], i) :: i < c.index
  }

  /** A leader's own configuration entry changes one server, after a commit that clears it. */
  ghost predicate ChangeOK(initial: set<NodeId>, h: History, t: nat, j: nat) {
    && t in h.leaderLog && ConfigAt(h.leaderLog[t], j)
    && OneApart(h.leaderLog[t][j].command.voters, ConfigOf(initial, Written(h, t, j)))
    && exists c :: Clears(h, t, j, c)
  }

  ghost predicate CampaignOK(h: History, k: Slot) {
    k in h.campaigns && k.term >= 1 && Genuine(h, h.campaigns[k], k.term - 1)
  }

  ghost predicate BallotOK(h: History, k: Slot) {
    && k in h.ballots
    && var b := h.ballots[k];
    && Genuine(h, b.log, k.term)
    && Slot(k.term, b.candidate) in h.campaigns
    && AtLeastAsFresh(LastTerm(h.campaigns[Slot(k.term, b.candidate)]), |h.campaigns[Slot(k.term, b.candidate)]|, b.log)
    && Reflects(h, b.log, k.node, k.term, k.term)
  }

  predicate AckOK(h: History, k: Slot) {
    k in h.acked && k.term in h.leaderLog && h.acked[k] <= |h.leaderLog[k.term]|
  }

  ghost predicate HistoryOK(initial: set<NodeId>, h: History) {
    && h.elected.Keys == h.leaderLog.Keys
    && (forall t {:trigger ElectionOK(initial, h, t)} | t in h.elected :: ElectionOK(initial, h, t))
    && (forall c {:trigger CommitOK(initial, h, c)} | c in h.commits :: CommitOK(initial, h, c))
    && (forall t: nat, j: nat {:trigger ChangeOK(initial, h, t, j)} |
         t in h.elected && |h.elected[t].base| <= j && ConfigAt(h.leaderLog[t], j) :: ChangeOK(initial, h, t, j))
    && (forall k {:trigger CampaignOK(h, k)} | k in h.campaigns :: CampaignOK(h, k))
    && (forall k {:trigger BallotOK(h, k)} | k in h.ballots :: BallotOK(h, k))
    && (forall k {:trigger AckOK(h, k)} | k in h.acked :: AckOK(h, k))
  }

  // ---- what holds of servers and messages ----

  /** The first n entries of `log` are covered by a commit of a term up to `top`. */
  ghost predicate Covered(h: History, log: Log, n: nat, top: nat) {
    n == 0 || exists c :: CoveredBy(h, log, n, top, c)
  }

  ghost predicate CoveredBy(h: History, log: Log, n: nat, top: nat, c: Commit) {
    c in h.commits && c.term <= top && n <= c.index && n <= |log| && log[..n] == Written(h, c.term, n)
  }

  predicate UsesSlotsUpTo(h: History, i: NodeId, term: nat) {
    && (forall k | k in h.campaigns && k.node == i :: k.term <= term)
    && (forall k | k in h.ballots && k.node == i :: k.term <= term)
    && (forall k | k in h.acked && k.node == i :: k.term <= term)
  }

  ghost predicate CandidateOK(h: History, i: NodeId, n: Core) {
    && Slot(n.term, i) in h.campaigns && h.campaigns[Slot(n.term, i)] == n.log
    && (forall v | v in n.votes :: Slot(n.term, v) in h.ballots && h.ballots[Slot(n.term, v)].candidate == i)
    && !(n.term in h.elected && h.elected[n.term].leader == i)
  }

  ghost predicate LeaderOK(h: History, i: NodeId, n: Core) {
    && n.term in h.elected && h.elected[n.term].leader == i
    && n.term in h.leaderLog && h.leaderLog[n.term] == n.log
    && (forall v | v in n.matched :: n.matched[v] == 0 || Acked(h, n.term, v, n.matched[v]))
    && (n.committedThisTerm ==> exists c :: c in h.commits && c.term == n.term && c.index == n.commit)
    && (forall c | c in h.commits && c.term == n.term :: c.index <= n.commit)
  }

  ghost predicate NodeOK(h: History, i: NodeId, n: Core) {
    && Genuine(h, n.log, n.term)
    && UsesSlotsUpTo(h, i, n.term)
    && (n.votedFor.Some? <==> Slot(n.term, i) in h.ballots)
    && (n.votedFor.Some? ==> h.ballots[Slot(n.term, i)].candidate == n.votedFor.value)
    && (n.role.Candidate? ==> CandidateOK(h, i, n))
    && (n.role.Leader? ==> LeaderOK(h, i, n))
    && n.commit <= |n.log|
    && Covered(h, n.log, n.commit, n.term)
    && Reflects(h, n.log, i, n.term + 1, n.term)
  }

  ghost predicate PacketOK(h: History, pk: Packet) {
    match pk.msg
    case RequestVote(t, c, li, lt) =>
      Slot(t, c) in h.campaigns && li == |h.campaigns[Slot(t, c)]| && lt == LastTerm(h.campaigns[Slot(t, c)])
    case VoteReply(t, v, granted) =>
      granted ==> Slot(t, v) in h.ballots && h.ballots[Slot(t, v)].candidate == pk.dst
    case AppendEntries(t, l, prev, pt, es, lc) =>
      && t in h.leaderLog && prev + |es| <= |h.leaderLog[t]|
      && es == h.leaderLog[t][prev..prev + |es|]
      && pt == LastTerm(h.leaderLog[t][..prev])
      && lc <= |h.leaderLog[t]| && Covered(h, h.leaderLog[t], lc, t)
    case AppendReply(t, v, ok, m) => ok ==> Acked(h, t, v, m)
    case InstallSnapshot(_, _, _, _, _, _, _) => false
    case _ => true
  }

  ghost predicate Inv(s: State) {
    && HistoryOK(s.initial, s.h)
    && (forall i {:trigger NodeOK(s.h, i, s.nodes[i])} | i in s.nodes :: NodeOK(s.h, i, s.nodes[i]))
    && (forall pk {:trigger PacketOK(s.h, pk)} | pk in s.net :: PacketOK(s.h, pk))
  }
}
