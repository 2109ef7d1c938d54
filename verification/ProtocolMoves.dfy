/** The elementary moves themselves. Each is a function on protocol states, with a lemma that it
    keeps the invariant. */
module ProtocolMoves {
  import opened Types
  import opened Quorums
  import opened Logs
  import opened Protocol
  import opened Safety
  import opened ProtocolSteps

  lemma LostMonotone(h: History, t: nat, m: nat, hi: int, hi': int)
    requires Lost(h, t, m, hi) && hi <= hi'
    ensures Lost(h, t, m, hi')
  {
    var w :| t < w <= hi && w in h.elected && !(Written(h, t, m) <= h.elected[w].base);
    assert t < w <= hi';
  }

  lemma ReflectsLonger(h: History, log: Log, v: NodeId, u: nat, hi: int, u': nat, hi': int)
    requires Reflects(h, log, v, u, hi) && hi <= hi'
    requires forall k | k in h.acked && k.node == v && k.term < u' :: k.term < u
    ensures Reflects(h, log, v, u', hi')
  {
    forall t: nat, m: nat | t < u' && Acked(h, t, v, m) ensures Written(h, t, m) <= log || Lost(h, t, m, hi') {
      assert Slot(t, v) in h.acked;
      if Lost(h, t, m, hi) { LostMonotone(h, t, m, hi, hi'); }
    }
  }

  lemma CoveredLater(h: History, log: Log, n: nat, top: nat, top': nat)
    requires Covered(h, log, n, top) && top <= top'
    ensures Covered(h, log, n, top')
  {
    if n > 0 {
      var c :| CoveredBy(h, log, n, top, c);
      assert CoveredBy(h, log, n, top', c);
    }
  }

  lemma InvParts(s: State, i: NodeId, pk: Packet)
    requires Inv(s) && i in s.nodes && pk in s.net
    ensures HistoryOK(s.initial, s.h) && NodeOK(s.h, i, s.nodes[i]) && PacketOK(s.h, pk)
  {}

  // ---- terms and roles ----

  function Bumped(n: Core, t: nat): Core { n.(term := t, votedFor := None, role := Follower) }

  lemma BumpKeepsInv(s: State, i: NodeId, t: nat)
    requires Inv(s) && i in s.nodes && t > s.nodes[i].term
    ensures Advances(s, Step(s, i, Bumped(s.nodes[i], t), {}, s.h), i)
  {
    var n := s.nodes[i];
    assert NodeOK(s.h, i, n);
    CoveredLater(s.h, n.log, n.commit, n.term, t);
    ReflectsLonger(s.h, n.log, i, n.term + 1, n.term, t + 1, t);
    QuietStepKeepsInv(s, i, Bumped(n, t), {});
  }

  lemma StepDownKeepsInv(s: State, i: NodeId)
    requires Inv(s) && i in s.nodes
    ensures Advances(s, Step(s, i, s.nodes[i].(role := Follower), {}, s.h), i)
  {
    assert NodeOK(s.h, i, s.nodes[i]);
    QuietStepKeepsInv(s, i, s.nodes[i].(role := Follower), {});
  }

  /** A crash keeps term, vote and log, and forgets the rest. */
  function Crashed(n: Core): Core {
    n.(role := Follower, commit := 0, matched := map[], votes := {}, committedThisTerm := false)
  }

  lemma CrashKeepsInv(s: State, i: NodeId)
    requires Inv(s) && i in s.nodes
    ensures Advances(s, Step(s, i, Crashed(s.nodes[i]), {}, s.h), i)
  {
    assert NodeOK(s.h, i, s.nodes[i]);
    QuietStepKeepsInv(s, i, Crashed(s.nodes[i]), {});
  }

  // ---- elections ----

  function Campaigning(i: NodeId, n: Core): Core {
    n.(term := n.term + 1, role := Candidate, votedFor := Some(i), votes := {i})
  }

  function CampaignHistory(i: NodeId, n: Core, h: History): History {
    h.(campaigns := h.campaigns[Slot(n.term + 1, i) := n.log], ballots := h.ballots[Slot(n.term + 1, i) := Ballot(i, n.log)])
  }

  predicate Solicits(i: NodeId, n: Core, pk: Packet) {
    pk.msg == RequestVote(n.term + 1, i, |n.log|, LastTerm(n.log))
  }

  lemma CampaignExtends(initial: set<NodeId>, h: History, i: NodeId, n: Core)
    requires HistoryOK(initial, h) && NodeOK(h, i, n)
    ensures Extends(h, CampaignHistory(i, n, h), i, n.term + 1)
  {}

  lemma CampaignAdditions(initial: set<NodeId>, h: History, i: NodeId, n: Core)
    requires HistoryOK(initial, h) && NodeOK(h, i, n) && Extends(h, CampaignHistory(i, n, h), i, n.term + 1)
    ensures Reflects(CampaignHistory(i, n, h), n.log, i, n.term + 2, n.term + 1)
    ensures AdditionsOK(initial, h, CampaignHistory(i, n, h), i, n.term + 1)
  {
    var now, h' := n.term + 1, CampaignHistory(i, n, h);
    assert Slot(now, i) !in h.acked;
    hide HistoryOK, Extends;
    GenuineStable(h, h', i, now, n.log, n.term);
    ReflectsStable(initial, h, h', i, now, n.log, i, now, n.term);
    ReflectsLonger(h', n.log, i, now, n.term, now, now);
    ReflectsLonger(h', n.log, i, now, n.term, now + 1, now);
  }

  lemma CampaignHistoryOK(initial: set<NodeId>, h: History, i: NodeId, n: Core)
    requires HistoryOK(initial, h) && NodeOK(h, i, n)
    ensures Extends(h, CampaignHistory(i, n, h), i, n.term + 1) && HistoryOK(initial, CampaignHistory(i, n, h))
    ensures Reflects(CampaignHistory(i, n, h), n.log, i, n.term + 2, n.term + 1)
  {
    assert UsesSlotsUpTo(h, i, n.term + 1);
    hide *;
    CampaignExtends(initial, h, i, n);
    CampaignAdditions(initial, h, i, n);
    HistoryPersists(initial, h, CampaignHistory(i, n, h), i, n.term + 1);
  }

  lemma CampaignNode(initial: set<NodeId>, h: History, i: NodeId, n: Core)
    requires HistoryOK(initial, h) && NodeOK(h, i, n)
    requires Extends(h, CampaignHistory(i, n, h), i, n.term + 1)
    requires Reflects(CampaignHistory(i, n, h), n.log, i, n.term + 2, n.term + 1)
    ensures NodeOK(CampaignHistory(i, n, h), i, Campaigning(i, n))
  {
    hide HistoryOK, Extends, Covered, Reflects;
    var now, h' := n.term + 1, CampaignHistory(i, n, h);
    LeadersCampaigned(initial, h);
    GenuineStable(h, h', i, now, n.log, n.term);
    CoveredStable(initial, h, h', i, now, n.log, n.commit, n.term);
    CoveredLater(h', n.log, n.commit, n.term, now);
  }

  lemma LeadersCampaigned(initial: set<NodeId>, h: History)
    requires HistoryOK(initial, h)
    ensures forall t | t in h.elected :: Slot(t, h.elected[t].leader) in h.campaigns
  {
    forall t | t in h.elected ensures Slot(t, h.elected[t].leader) in h.campaigns { assert ElectionOK(initial, h, t); }
  }

  lemma CampaignKeepsInv(s: State, i: NodeId, added: set<Packet>)
    requires Inv(s) && i in s.nodes
    requires forall pk | pk in added :: Solicits(i, s.nodes[i], pk)
    ensures Advances(s, Step(s, i, Campaigning(i, s.nodes[i]), added, CampaignHistory(i, s.nodes[i], s.h)), i)
  {
    var n, h := s.nodes[i], s.h;
    assert NodeOK(h, i, n);
    hide NodeOK, HistoryOK, Extends;
    CampaignHistoryOK(s.initial, h, i, n);
    CampaignNode(s.initial, h, i, n);
    forall pk | pk in added ensures PacketOK(CampaignHistory(i, n, h), pk) { assert Solicits(i, n, pk); }
    StepKeepsInv(s, i, Campaigning(i, n), added, CampaignHistory(i, n, h), n.term + 1);
  }

  function GrantHistory(i: NodeId, c: NodeId, n: Core, h: History): History {
    if Slot(n.term, i) in h.ballots then h else h.(ballots := h.ballots[Slot(n.term, i) := Ballot(c, n.log)])
  }

  lemma GrantExtends(h: History, i: NodeId, n: Core, c: NodeId)
    requires h.leaderLog.Keys == h.elected.Keys
    ensures Extends(h, GrantHistory(i, c, n, h), i, n.term)
  {}

  lemma GrantAdditions(initial: set<NodeId>, h: History, i: NodeId, n: Core, pk: Packet)
    requires HistoryOK(initial, h) && NodeOK(h, i, n) && PacketOK(h, pk) && pk.msg.RequestVote?
    requires pk.msg.term == n.term && AtLeastAsFresh(pk.msg.lastTerm, pk.msg.lastIndex, n.log)
    requires Extends(h, GrantHistory(i, pk.msg.candidate, n, h), i, n.term)
    ensures AdditionsOK(initial, h, GrantHistory(i, pk.msg.candidate, n, h), i, n.term)
  {
    var now, h' := n.term, GrantHistory(i, pk.msg.candidate, n, h);
    assert Slot(now, i) in h.acked ==> AckOK(h, Slot(now, i));
    hide HistoryOK, Extends;
    GenuineStable(h, h', i, now, n.log, n.term);
    ReflectsLonger(h, n.log, i, n.term + 1, n.term, now, n.term);
    ReflectsStable(initial, h, h', i, now, n.log, i, now, n.term);
  }

  lemma GrantStep(initial: set<NodeId>, h: History, i: NodeId, n: Core, pk: Packet)
    requires HistoryOK(initial, h) && NodeOK(h, i, n) && PacketOK(h, pk) && pk.msg.RequestVote?
    requires pk.msg.term == n.term && (n.votedFor == None || n.votedFor == Some(pk.msg.candidate))
    requires AtLeastAsFresh(pk.msg.lastTerm, pk.msg.lastIndex, n.log)
    ensures var h' := GrantHistory(i, pk.msg.candidate, n, h);
            && Extends(h, h', i, n.term) && HistoryOK(initial, h')
            && Slot(n.term, i) in h'.ballots && h'.ballots[Slot(n.term, i)].candidate == pk.msg.candidate
  {
    GrantExtends(h, i, n, pk.msg.candidate);
    assert UsesSlotsUpTo(h, i, n.term);
    hide HistoryOK, NodeOK, PacketOK, Extends, AdditionsOK, UsesSlotsUpTo;
    GrantAdditions(initial, h, i, n, pk);
    HistoryPersists(initial, h, GrantHistory(i, pk.msg.candidate, n, h), i, n.term);
  }

  lemma GrantNode(initial: set<NodeId>, h: History, i: NodeId, n: Core, c: NodeId)
    requires HistoryOK(initial, h) && NodeOK(h, i, n) && Extends(h, GrantHistory(i, c, n, h), i, n.term)
    requires n.votedFor == None || n.votedFor == Some(c)
    ensures NodeOK(GrantHistory(i, c, n, h), i, n.(votedFor := Some(c)))
  {
    hide HistoryOK, Extends;
    var h' := GrantHistory(i, c, n, h);
    GenuineStable(h, h', i, n.term, n.log, n.term);
    CoveredStable(initial, h, h', i, n.term, n.log, n.commit, n.term);
    SameAcksReflect(h, h', n.log, i, n.term + 1, n.term);
  }

  lemma GrantKeepsInv(s: State, i: NodeId, pk: Packet, added: set<Packet>)
    requires Inv(s) && i in s.nodes && pk in s.net && pk.msg.RequestVote?
    requires pk.msg.term == s.nodes[i].term
    requires s.nodes[i].votedFor == None || s.nodes[i].votedFor == Some(pk.msg.candidate)
    requires AtLeastAsFresh(pk.msg.lastTerm, pk.msg.lastIndex, s.nodes[i].log)
    requires forall p | p in added :: p == Packet(p.src, pk.msg.candidate, VoteReply(s.nodes[i].term, i, true))
    ensures Advances(s, Step(s, i, s.nodes[i].(votedFor := Some(pk.msg.candidate)), added,
                     GrantHistory(i, pk.msg.candidate, s.nodes[i], s.h)), i)
  {
    var n, h, c := s.nodes[i], s.h, pk.msg.candidate;
    assert NodeOK(h, i, n) && PacketOK(h, pk);
    hide NodeOK, HistoryOK, Extends;
    GrantStep(s.initial, h, i, n, pk);
    GrantNode(s.initial, h, i, n, c);
    forall p | p in added ensures PacketOK(GrantHistory(i, c, n, h), p) {}
    StepKeepsInv(s, i, n.(votedFor := Some(c)), added, GrantHistory(i, c, n, h), n.term);
  }

  /** Nothing acknowledged or elected since: the same promises hold. */
  lemma SameAcksReflect(h: History, h': History, log: Log, v: NodeId, u: nat, hi: int)
    requires Reflects(h, log, v, u, hi) && h'.acked == h.acked && h'.elected == h.elected && h'.leaderLog == h.leaderLog
    ensures Reflects(h', log, v, u, hi)
  {
    forall t: nat, m: nat | t < u && Acked(h', t, v, m) ensures Written(h', t, m) <= log || Lost(h', t, m, hi) {
      assert Acked(h, t, v, m) && Written(h', t, m) == Written(h, t, m);
      if Lost(h, t, m, hi) {
        var w :| t < w <= hi && w in h.elected && !(Written(h, t, m) <= h.elected[w].base);
        assert w in h'.elected;
      }
    }
  }

  lemma CollectVoteKeepsInv(s: State, i: NodeId, pk: Packet)
    requires Inv(s) && i in s.nodes && s.nodes[i].role.Candidate?
    requires pk in s.net && pk.dst == i && pk.msg.VoteReply? && pk.msg.granted && pk.msg.term == s.nodes[i].term
    ensures Advances(s, Step(s, i, s.nodes[i].(votes := s.nodes[i].votes + {pk.msg.voter}), {}, s.h), i)
  {
    assert NodeOK(s.h, i, s.nodes[i]) && PacketOK(s.h, pk);
    QuietStepKeepsInv(s, i, s.nodes[i].(votes := s.nodes[i].votes + {pk.msg.voter}), {});
  }

  predicate FreshProgress(i: NodeId, log: Log, matched: map<NodeId, nat>) {
    forall v | v in matched :: matched[v] == 0 || (v == i && matched[v] == |log|)
  }

  function Winning(n: Core, matched: map<NodeId, nat>): Core {
    n.(role := Leader, matched := matched, committedThisTerm := false)
  }

  function WinHistory(i: NodeId, n: Core, h: History): History {
    h.(elected := h.elected[n.term := Election(i, n.log, n.votes)], leaderLog := h.leaderLog[n.term := n.log],
       acked := h.acked[Slot(n.term, i) := |n.log|])
  }

  /** Election Safety at the moment of winning: nobody has led this term before. */
  lemma FirstWinner(s: State, i: NodeId)
    requires Inv(s) && i in s.nodes && s.nodes[i].role.Candidate?
    requires Majority(s.nodes[i].votes, ConfigOf(s.initial, s.nodes[i].log))
    ensures s.nodes[i].term !in s.h.elected
    ensures Won(s.initial, s.h, s.nodes[i].term, i, s.nodes[i].log, s.nodes[i].votes, s.nodes[i].term)
    ensures Genuine(s.h, s.nodes[i].log, s.nodes[i].term - 1)
  {
    var n, h := s.nodes[i], s.h;
    assert NodeOK(h, i, n);
    assert CampaignOK(h, Slot(n.term, i));
    forall v | v in n.votes ensures Supports(h, n.term, i, n.log, v, n.term) {
      assert BallotOK(h, Slot(n.term, v));
    }
    if n.term in h.elected { WinnersMeet(s.initial, h, n.term, i, n.log, n.votes); }
  }

  lemma WinExtends(initial: set<NodeId>, h: History, i: NodeId, n: Core)
    requires HistoryOK(initial, h) && n.term !in h.elected
    ensures Extends(h, WinHistory(i, n, h), i, n.term)
  {
    NothingYet(initial, h, n.term);
  }

  lemma CampaignOf(initial: set<NodeId>, h: History, k: Slot)
    requires HistoryOK(initial, h) && k in h.campaigns
    ensures CampaignOK(h, k)
  {}

  lemma WinAdditions(initial: set<NodeId>, h: History, i: NodeId, n: Core)
    requires HistoryOK(initial, h) && NodeOK(h, i, n) && n.role.Candidate? && n.term !in h.elected
    requires Won(initial, h, n.term, i, n.log, n.votes, n.term) && Genuine(h, n.log, n.term - 1)
    requires Extends(h, WinHistory(i, n, h), i, n.term)
    ensures AdditionsOK(initial, h, WinHistory(i, n, h), i, n.term)
  {
    hide HistoryOK, Extends, Genuine, Reflects, UsesSlotsUpTo, Covered;
    var now, h' := n.term, WinHistory(i, n, h);
    CampaignOf(initial, h, Slot(now, i));
    NothingYet(initial, h, now);
    GenuineStable(h, h', i, now, n.log, n.term - 1);
    forall v | v in n.votes ensures Supports(h', now, i, n.log, v, now - 1) {
      assert Supports(h, now, i, n.log, v, now);
      NotLostYet(initial, h, h', i, now, h.ballots[Slot(now, v)].log, v);
    }
  }

  lemma WinHistoryOK(initial: set<NodeId>, h: History, i: NodeId, n: Core)
    requires HistoryOK(initial, h) && NodeOK(h, i, n) && n.role.Candidate? && n.term !in h.elected
    requires Won(initial, h, n.term, i, n.log, n.votes, n.term) && Genuine(h, n.log, n.term - 1)
    ensures Extends(h, WinHistory(i, n, h), i, n.term) && HistoryOK(initial, WinHistory(i, n, h))
  {
    assert UsesSlotsUpTo(h, i, n.term);
    hide *;
    WinExtends(initial, h, i, n);
    WinAdditions(initial, h, i, n);
    HistoryPersists(initial, h, WinHistory(i, n, h), i, n.term);
  }

  lemma WinNode(initial: set<NodeId>, h: History, i: NodeId, n: Core, matched: map<NodeId, nat>)
    requires HistoryOK(initial, h) && NodeOK(h, i, n) && n.role.Candidate? && n.term !in h.elected
    requires Extends(h, WinHistory(i, n, h), i, n.term) && FreshProgress(i, n.log, matched)
    ensures NodeOK(WinHistory(i, n, h), i, Winning(n, matched))
  {
    hide HistoryOK, Extends, Covered, Reflects, Genuine;
    var h' := WinHistory(i, n, h);
    NothingYet(initial, h, n.term);
    GenuineStable(h, h', i, n.term, n.log, n.term);
    CoveredStable(initial, h, h', i, n.term, n.log, n.commit, n.term);
    OwnAckReflects(initial, h, h', i, n);
  }

  lemma WinKeepsInv(s: State, i: NodeId, matched: map<NodeId, nat>)
    requires Inv(s) && i in s.nodes && s.nodes[i].role.Candidate?
    requires Majority(s.nodes[i].votes, ConfigOf(s.initial, s.nodes[i].log))
    requires FreshProgress(i, s.nodes[i].log, matched)
    ensures Advances(s, Step(s, i, Winning(s.nodes[i], matched), {}, WinHistory(i, s.nodes[i], s.h)), i)
  {
    var n, h := s.nodes[i], s.h;
    FirstWinner(s, i);
    assert NodeOK(h, i, n);
    hide NodeOK, HistoryOK, Extends, Won, Genuine;
    WinHistoryOK(s.initial, h, i, n);
    WinNode(s.initial, h, i, n, matched);
    StepKeepsInv(s, i, Winning(n, matched), {}, WinHistory(i, n, h), n.term);
  }

  lemma NothingYet(initial: set<NodeId>, h: History, now: nat)
    requires HistoryOK(initial, h) && now !in h.elected
    ensures now !in h.leaderLog
    ensures forall c | c in h.commits :: c.term != now
    ensures forall k | k in h.acked :: k.term != now
  {
    forall k | k in h.acked ensures k.term != now { assert AckOK(h, k); }
    forall c | c in h.commits ensures c.term != now { assert CommitOK(initial, h, c); }
  }

  lemma NotLostYet(initial: set<NodeId>, h: History, h': History, i: NodeId, now: nat, log: Log, v: NodeId)
    requires HistoryOK(initial, h) && Extends(h, h', i, now) && now !in h.elected && now >= 1
    requires Reflects(h, log, v, now, now)
    ensures Reflects(h', log, v, now, now - 1)
  {
    forall t: nat, m: nat | t < now && Acked(h, t, v, m) ensures Written(h, t, m) <= log || Lost(h, t, m, now - 1) {
      if Lost(h, t, m, now) {
        var w :| t < w <= now && w in h.elected && !(Written(h, t, m) <= h.elected[w].base);
        assert w <= now - 1;
      }
    }
    ReflectsStable(initial, h, h', i, now, log, v, now, now - 1);
  }

  /** After acknowledging a prefix of what it holds, a server still reflects its promises. */
  lemma OwnAckReflects(initial: set<NodeId>, h: History, h': History, i: NodeId, n: Core)
    requires HistoryOK(initial, h) && NodeOK(h, i, n) && Extends(h, h', i, n.term)
    requires n.term in h'.leaderLog && Slot(n.term, i) in h'.acked && h'.leaderLog[n.term] == n.log
    requires h'.acked[Slot(n.term, i)] <= |n.log|
    ensures Reflects(h', n.log, i, n.term + 1, n.term)
  {
    ReflectsLonger(h, n.log, i, n.term + 1, n.term, n.term, n.term);
    ReflectsStable(initial, h, h', i, n.term, n.log, i, n.term, n.term);
    forall t: nat, m: nat | t < n.term + 1 && Acked(h', t, i, m)
      ensures Written(h', t, m) <= n.log || Lost(h', t, m, n.term) {}
  }

  // ---- replication ----

  /** An AppendEntries (or heartbeat) the leader may send: a tail of its log. */
  predicate FromLeader(i: NodeId, n: Core, pk: Packet) {
    && pk.msg.AppendEntries? && pk.msg.term == n.term && pk.msg.leader == i
    && pk.msg.prevIndex <= |n.log| && pk.msg.prevTerm == LastTerm(n.log[..pk.msg.prevIndex])
    && pk.msg.entries == n.log[pk.msg.prevIndex..] && pk.msg.leaderCommit == n.commit
  }

  lemma SendKeepsInv(s: State, i: NodeId, added: set<Packet>)
    requires Inv(s) && i in s.nodes && s.nodes[i].role.Leader?
    requires forall pk | pk in added :: FromLeader(i, s.nodes[i], pk)
    ensures Advances(s, Step(s, i, s.nodes[i], added, s.h), i)
  {
    var n, h := s.nodes[i], s.h;
    assert NodeOK(h, i, n);
    forall pk | pk in added ensures PacketOK(h, pk) {
      assert FromLeader(i, n, pk);
      assert n.log[pk.msg.prevIndex..pk.msg.prevIndex + |pk.msg.entries|] == n.log[pk.msg.prevIndex..];
    }
    QuietStepKeepsInv(s, i, n, added);
  }

  /** Messages that promise nothing. */
  predicate Harmless(pk: Packet) {
    match pk.msg
    case VoteReply(_, _, granted) => !granted
    case AppendReply(_, _, ok, _) => !ok
    case ReadHeartbeat(_, _, _) => true
    case ReadAck(_, _, _) => true
    case _ => false
  }

  lemma ChatterKeepsInv(s: State, i: NodeId, added: set<Packet>)
    requires Inv(s) && i in s.nodes
    requires forall pk | pk in added :: Harmless(pk)
    ensures Advances(s, Step(s, i, s.nodes[i], added, s.h), i)
  {
    assert NodeOK(s.h, i, s.nodes[i]);
    forall pk | pk in added ensures PacketOK(s.h, pk) { assert Harmless(pk); }
    QuietStepKeepsInv(s, i, s.nodes[i], added);
  }

  predicate Agree(a: Log, b: Log, p: nat) {
    p <= |a| && p <= |b| && a[..p] == b[..p]
  }

  /** What `log` shares with the leader's log is still there in log'. */
  ghost predicate KeepsShared(log: Log, leader: Log, log': Log) {
    forall p: nat {:trigger Agree(log, leader, p)} | Agree(log, leader, p) :: Agree(log, log', p)
  }

  /** The receiver's append loop, seen against the leader's log: either nothing changes, or the
      log becomes exactly the leader's prefix; common prefixes survive either way. */
  lemma MergeFollowsLeader(h: History, log: Log, leader: Log, top: int, prev: nat, es: Log)
    requires Genuine(h, log, top) && Genuine(h, leader, top)
    requires prev + |es| <= |leader| && es == leader[prev..prev + |es|]
    requires prev <= |log| && log[..prev] == leader[..prev]
    ensures Merge(log, prev, es) == log || Merge(log, prev, es) == leader[..prev + |es|]
    ensures leader[..prev + |es|] <= Merge(log, prev, es)
    ensures KeepsShared(log, leader, Merge(log, prev, es))
    ensures Genuine(h, Merge(log, prev, es), top)
  {
    hide Agreement;
    var a := Agreement(log, prev, es);
    var out := Merge(log, prev, es);
    if a > 0 {
      assert log[prev + (a - 1)].term == es[a - 1].term && es[a - 1] == leader[prev + a - 1];
      LogMatching(h, log, leader, top, top, prev + a - 1);
    }
    assert log[..prev + a] == leader[..prev + a];
    if a < |es| {
      assert es[a] == leader[prev + a];
      assert out == leader[..prev + |es|];
      forall p: nat | Agree(log, leader, p) ensures Agree(log, out, p) {
        assert forall k | 0 <= k < p :: log[..p][k] == log[k] && leader[..p][k] == leader[k];
        assert p <= prev + a;
        assert log[..p] == log[..prev + a][..p] && out[..p] == leader[..p];
      }
      forall j | 0 <= j < |out|
        ensures out[j].term <= top && out[j].term in h.leaderLog && out[..j + 1] <= h.leaderLog[out[j].term]
      {
        assert out[j] == leader[j] && out[..j + 1] == leader[..j + 1];
      }
    }
  }

  /** Passing the consistency check means agreeing with the leader up to prevIndex. */
  lemma ConsistencyCheck(h: History, log: Log, leader: Log, top: int, prev: nat)
    requires Genuine(h, log, top) && Genuine(h, leader, top)
    requires prev <= |log| && prev <= |leader| && (prev > 0 ==> log[prev - 1].term == LastTerm(leader[..prev]))
    ensures log[..prev] == leader[..prev]
  {
    if prev > 0 {
      assert leader[..prev][prev - 1] == leader[prev - 1];
      LogMatching(h, log, leader, top, top, prev - 1);
    }
  }

  predicate Consistent(n: Core, m: Message) {
    m.AppendEntries? && m.prevIndex <= |n.log| && (m.prevIndex > 0 ==> n.log[m.prevIndex - 1].term == m.prevTerm)
  }

  function Accepting(n: Core, m: Message): Core
    requires Consistent(n, m)
  {
    n.(log := Merge(n.log, m.prevIndex, m.entries))
  }

  function AckHistory(i: NodeId, t: nat, m: nat, h: History): History {
    h.(acked := h.acked[Slot(t, i) := if Slot(t, i) in h.acked then Largest(h.acked[Slot(t, i)], m) else m])
  }

  lemma AcceptHistory(initial: set<NodeId>, h: History, i: NodeId, n: Core, m: nat)
    requires HistoryOK(initial, h) && NodeOK(h, i, n)
    requires n.term in h.leaderLog && m <= |h.leaderLog[n.term]|
    ensures Extends(h, AckHistory(i, n.term, m, h), i, n.term) && HistoryOK(initial, AckHistory(i, n.term, m, h))
  {
    var h' := AckHistory(i, n.term, m, h);
    assert Slot(n.term, i) in h.acked ==> AckOK(h, Slot(n.term, i));
    assert Extends(h, h', i, n.term);
    hide Extends, HistoryOK;
    HistoryPersists(initial, h, h', i, n.term);
  }

  lemma AcceptMerge(initial: set<NodeId>, h: History, i: NodeId, n: Core, pk: Packet)
    requires HistoryOK(initial, h) && NodeOK(h, i, n) && PacketOK(h, pk)
    requires Consistent(n, pk.msg) && pk.msg.term == n.term
    ensures n.term in h.elected && n.term in h.leaderLog
    ensures var log', leader, m := Merge(n.log, pk.msg.prevIndex, pk.msg.entries), h.leaderLog[n.term], pk.msg.prevIndex + |pk.msg.entries|;
            && m <= |leader| && leader[..m] <= log' && Genuine(h, log', n.term)
            && KeepsShared(n.log, leader, log')
  {
    LeaderLogGenuine(initial, h, n.term);
    ConsistencyCheck(h, n.log, h.leaderLog[n.term], n.term, pk.msg.prevIndex);
    MergeFollowsLeader(h, n.log, h.leaderLog[n.term], n.term, pk.msg.prevIndex, pk.msg.entries);
  }

  lemma AcceptNode(initial: set<NodeId>, h: History, i: NodeId, n: Core, log': Log, m: nat)
    requires HistoryOK(initial, h) && NodeOK(h, i, n) && n.role.Follower? && n.term in h.elected
    requires m <= |h.leaderLog[n.term]| && h.leaderLog[n.term][..m] <= log' && Genuine(h, log', n.term)
    requires KeepsShared(n.log, h.leaderLog[n.term], log')
    requires Extends(h, AckHistory(i, n.term, m, h), i, n.term)
    ensures NodeOK(AckHistory(i, n.term, m, h), i, n.(log := log'))
    ensures Agree(n.log, log', n.commit)
  {
    hide HistoryOK, Extends;
    var h' := AckHistory(i, n.term, m, h);
    GenuineStable(h, h', i, n.term, log', n.term);
    CommittedPrefixKept(initial, h, n, log');
    CoveredStable(initial, h, h', i, n.term, log', n.commit, n.term);
    AcceptReflects(initial, h, h', i, n, log', m);
  }

  function Reach(m: Message): nat
    requires m.AppendEntries?
  {
    m.prevIndex + |m.entries|
  }

  lemma AcceptStep(initial: set<NodeId>, h: History, i: NodeId, n: Core, pk: Packet)
    requires HistoryOK(initial, h) && NodeOK(h, i, n) && n.role.Follower? && PacketOK(h, pk)
    requires Consistent(n, pk.msg) && pk.msg.term == n.term
    ensures Extends(h, AckHistory(i, n.term, Reach(pk.msg), h), i, n.term)
    ensures HistoryOK(initial, AckHistory(i, n.term, Reach(pk.msg), h))
    ensures NodeOK(AckHistory(i, n.term, Reach(pk.msg), h), i, Accepting(n, pk.msg))
  {
    hide NodeOK, HistoryOK, PacketOK, Extends, Genuine, Merge, KeepsShared, AckHistory;
    AcceptMerge(initial, h, i, n, pk);
    AcceptHistory(initial, h, i, n, Reach(pk.msg));
    AcceptNode(initial, h, i, n, Accepting(n, pk.msg).log, Reach(pk.msg));
  }

  lemma AcceptKeepsInv(s: State, i: NodeId, pk: Packet)
    requires Inv(s) && i in s.nodes && s.nodes[i].role.Follower?
    requires pk in s.net && Consistent(s.nodes[i], pk.msg) && pk.msg.AppendEntries? && pk.msg.term == s.nodes[i].term
    ensures Advances(s, Step(s, i, Accepting(s.nodes[i], pk.msg), {}, AckHistory(i, s.nodes[i].term, Reach(pk.msg), s.h)), i)
  {
    hide *;
    InvParts(s, i, pk);
    AcceptStep(s.initial, s.h, i, s.nodes[i], pk);
    StepKeepsInv(s, i, Accepting(s.nodes[i], pk.msg), {}, AckHistory(i, s.nodes[i].term, Reach(pk.msg), s.h), s.nodes[i].term);
  }

  /** A success reply for a prefix the server has recorded as its leader's. */
  predicate Acknowledges(h: History, pk: Packet) {
    pk.msg.AppendReply? && pk.msg.success && Acked(h, pk.msg.term, pk.msg.follower, pk.msg.matchIndex)
  }

  lemma AcknowledgeKeepsInv(s: State, i: NodeId, added: set<Packet>)
    requires Inv(s) && i in s.nodes
    requires forall pk | pk in added :: Acknowledges(s.h, pk)
    ensures Advances(s, Step(s, i, s.nodes[i], added, s.h), i)
  {
    assert NodeOK(s.h, i, s.nodes[i]);
    forall pk | pk in added ensures PacketOK(s.h, pk) { assert Acknowledges(s.h, pk); }
    QuietStepKeepsInv(s, i, s.nodes[i], added);
  }

  /** What the receiver holds afterwards: the leader's prefix, and all it had committed. */
  lemma AcceptHolds(s: State, i: NodeId, pk: Packet)
    requires Inv(s) && i in s.nodes && s.nodes[i].role.Follower?
    requires pk in s.net && Consistent(s.nodes[i], pk.msg) && pk.msg.term == s.nodes[i].term
    ensures var n, n', m := s.nodes[i], Accepting(s.nodes[i], pk.msg), pk.msg.prevIndex + |pk.msg.entries|;
            m <= |n'.log| && Written(s.h, n.term, m) == n'.log[..m] && Agree(n.log, n'.log, n.commit)
  {
    var n, h := s.nodes[i], s.h;
    assert NodeOK(h, i, n) && PacketOK(h, pk);
    AcceptMerge(s.initial, h, i, n, pk);
    CommittedPrefixKept(s.initial, h, n, Merge(n.log, pk.msg.prevIndex, pk.msg.entries));
  }

  /** A follower's committed prefix is in its current leader's log, so the merge keeps it. */
  lemma CommittedPrefixKept(initial: set<NodeId>, h: History, n: Core, log': Log)
    requires HistoryOK(initial, h) && n.term in h.elected
    requires n.commit <= |n.log| && Covered(h, n.log, n.commit, n.term)
    requires KeepsShared(n.log, h.leaderLog[n.term], log')
    ensures n.commit <= |log'| && log'[..n.commit] == n.log[..n.commit]
    ensures Covered(h, log', n.commit, n.term)
  {
    if n.commit > 0 {
      var c :| CoveredBy(h, n.log, n.commit, n.term, c);
      assert CommitOK(initial, h, c);
      if c.term < n.term { LeaderCompleteness(initial, h, c, n.term); }
      assert Written(h, c.term, n.commit) <= Written(h, c.term, c.index) <= h.leaderLog[n.term];
      assert Agree(n.log, h.leaderLog[n.term], n.commit);
      assert CoveredBy(h, log', n.commit, n.term, c);
    }
  }

  lemma AcceptReflects(initial: set<NodeId>, h: History, h': History, i: NodeId, n: Core, log': Log, m: nat)
    requires HistoryOK(initial, h) && NodeOK(h, i, n) && n.term in h.elected
    requires m <= |h.leaderLog[n.term]| && h.leaderLog[n.term][..m] <= log'
    requires h' == AckHistory(i, n.term, m, h) && Extends(h, h', i, n.term)
    requires KeepsShared(n.log, h.leaderLog[n.term], log')
    ensures Reflects(h', log', i, n.term + 1, n.term)
  {
    hide NodeOK, HistoryOK;
    forall t: nat, a: nat | t < n.term + 1 && Acked(h', t, i, a)
      ensures Written(h', t, a) <= log' || Lost(h', t, a, n.term)
    {
      if t == n.term && a <= m {
        assert Written(h', t, a) == h.leaderLog[t][..m][..a];
      } else {
        hide KeepsShared;
        OldPromiseKept(initial, h, h', i, n, log', t, a);
      }
    }
  }

  lemma OldPromiseKept(initial: set<NodeId>, h: History, h': History, i: NodeId, n: Core, log': Log, t: nat, a: nat)
    requires HistoryOK(initial, h) && NodeOK(h, i, n) && n.term in h.elected && Extends(h, h', i, n.term)
    requires t <= n.term && Acked(h, t, i, a)
    requires KeepsShared(n.log, h.leaderLog[n.term], log')
    ensures Written(h', t, a) <= log' || Lost(h', t, a, n.term)
  {
    hide Extends, Lost, KeepsShared;
    assert AckOK(h, Slot(t, i));
    WrittenStable(h, h', i, n.term, t, a);
    if Lost(h, t, a, n.term) {
      LostStable(h, h', i, n.term, t, a, n.term);
    } else {
      FoundInLeader(initial, h, t, a, n.term);
      SharedSurvives(n.log, h.leaderLog[n.term], log', a);
    }
  }

  lemma FoundInLeader(initial: set<NodeId>, h: History, t: nat, a: nat, u: nat)
    requires HistoryOK(initial, h) && u in h.elected && t <= u && !Lost(h, t, a, u) && AckedSlot(h, t, a)
    ensures Written(h, t, a) <= h.leaderLog[u] && a == |Written(h, t, a)|
  {
    assert ElectionOK(initial, h, u);
  }

  predicate AckedSlot(h: History, t: nat, a: nat) { t in h.leaderLog && a <= |h.leaderLog[t]| }

  lemma SharedSurvives(log: Log, leader: Log, log': Log, p: nat)
    requires KeepsShared(log, leader, log')
    ensures p <= |log| && p <= |leader| && log[..p] == leader[..p] ==> log[..p] <= log'
  {
    if p <= |log| && p <= |leader| && log[..p] == leader[..p] { assert Agree(log, leader, p); }
  }

  /** A follower takes over the commit index its leader announced, as far as its log reaches. */
  lemma LearnCommitKeepsInv(s: State, i: NodeId, pk: Packet, m: nat, k: nat)
    requires Inv(s) && i in s.nodes && s.nodes[i].role.Follower?
    requires pk in s.net && pk.msg.AppendEntries? && pk.msg.term == s.nodes[i].term
    requires m <= |s.nodes[i].log| && Written(s.h, s.nodes[i].term, m) == s.nodes[i].log[..m]
    requires k <= m && k <= pk.msg.leaderCommit
    ensures Advances(s, Step(s, i, s.nodes[i].(commit := k), {}, s.h), i)
  {
    var n, h := s.nodes[i], s.h;
    assert NodeOK(h, i, n) && PacketOK(h, pk);
    var leader := h.leaderLog[n.term];
    if k > 0 {
      var c :| CoveredBy(h, leader, pk.msg.leaderCommit, n.term, c);
      assert CommitOK(s.initial, h, c);
      assert n.log[..k] == n.log[..m][..k] == leader[..pk.msg.leaderCommit][..k] == Written(h, c.term, k);
      assert CoveredBy(h, n.log, k, n.term, c);
    }
    QuietStepKeepsInv(s, i, n.(commit := k), {});
  }

  // ---- the leader's own log ----

  /** What `client_command` and `change_config` demand before appending. */
  predicate MayAppend(initial: set<NodeId>, n: Core, cmd: Command) {
    cmd.Config? ==>
      && OneApart(cmd.voters, ConfigOf(initial, n.log))
      && n.committedThisTerm
      && (forall j | n.commit <= j < |n.log| :: !ConfigAt(n.log, j))
  }

  function Appending(i: NodeId, n: Core, cmd: Command): Core {
    n.(log := n.log + [Entry(n.term, cmd)], matched := n.matched[i := |n.log| + 1])
  }

  function AppendHistory(i: NodeId, n: Core, cmd: Command, h: History): History {
    h.(leaderLog := h.leaderLog[n.term := n.log + [Entry(n.term, cmd)]], acked := h.acked[Slot(n.term, i) := |n.log| + 1])
  }

  lemma AppendExtends(initial: set<NodeId>, h: History, i: NodeId, n: Core, cmd: Command)
    requires HistoryOK(initial, h) && NodeOK(h, i, n) && n.role.Leader?
    ensures Extends(h, AppendHistory(i, n, cmd, h), i, n.term)
  {
    assert Slot(n.term, i) in h.acked ==> AckOK(h, Slot(n.term, i));
  }

  lemma AppendAdditions(initial: set<NodeId>, h: History, i: NodeId, n: Core, cmd: Command)
    requires HistoryOK(initial, h) && NodeOK(h, i, n) && n.role.Leader? && MayAppend(initial, n, cmd)
    ensures AdditionsOK(initial, h, AppendHistory(i, n, cmd, h), i, n.term)
  {
    if cmd.Config? { NewChangeOK(initial, h, AppendHistory(i, n, cmd, h), i, n, cmd); }
    hide HistoryOK, ChangeOK;
  }

  lemma AppendHistoryOK(initial: set<NodeId>, h: History, i: NodeId, n: Core, cmd: Command)
    requires HistoryOK(initial, h) && NodeOK(h, i, n) && n.role.Leader? && MayAppend(initial, n, cmd)
    ensures Extends(h, AppendHistory(i, n, cmd, h), i, n.term) && HistoryOK(initial, AppendHistory(i, n, cmd, h))
  {
    assert UsesSlotsUpTo(h, i, n.term);
    hide *;
    AppendExtends(initial, h, i, n, cmd);
    AppendAdditions(initial, h, i, n, cmd);
    HistoryPersists(initial, h, AppendHistory(i, n, cmd, h), i, n.term);
  }

  lemma AppendNode(initial: set<NodeId>, h: History, i: NodeId, n: Core, cmd: Command)
    requires HistoryOK(initial, h) && NodeOK(h, i, n) && n.role.Leader?
    requires Extends(h, AppendHistory(i, n, cmd, h), i, n.term) && HistoryOK(initial, AppendHistory(i, n, cmd, h))
    ensures NodeOK(AppendHistory(i, n, cmd, h), i, Appending(i, n, cmd))
  {
    hide HistoryOK, Extends;
    var h', n' := AppendHistory(i, n, cmd, h), Appending(i, n, cmd);
    LeaderLogGenuine(initial, h', n.term);
    CoveredStable(initial, h, h', i, n.term, n.log, n.commit, n.term);
    CoveredInLonger(h', n.log, n'.log, n.commit, n.term);
    AppendReflects(initial, h, h', i, n, n'.log);
  }

  lemma AppendKeepsInv(s: State, i: NodeId, cmd: Command)
    requires Inv(s) && i in s.nodes && s.nodes[i].role.Leader? && MayAppend(s.initial, s.nodes[i], cmd)
    ensures Advances(s, Step(s, i, Appending(i, s.nodes[i], cmd), {}, AppendHistory(i, s.nodes[i], cmd, s.h)), i)
  {
    var n, h := s.nodes[i], s.h;
    assert NodeOK(h, i, n);
    hide NodeOK, HistoryOK, Extends;
    AppendHistoryOK(s.initial, h, i, n, cmd);
    AppendNode(s.initial, h, i, n, cmd);
    StepKeepsInv(s, i, Appending(i, n, cmd), {}, AppendHistory(i, n, cmd, h), n.term);
  }

  lemma NewChangeOK(initial: set<NodeId>, h: History, h': History, i: NodeId, n: Core, cmd: Command)
    requires HistoryOK(initial, h) && NodeOK(h, i, n) && n.role.Leader?
    requires cmd.Config? && MayAppend(initial, n, cmd) && h' == AppendHistory(i, n, cmd, h)
    ensures ChangeOK(initial, h', n.term, |n.log|)
  {
    var c :| c in h.commits && c.term == n.term && c.index == n.commit;
    assert CommitOK(initial, h, c);
    assert Clears(h', n.term, |n.log|, c) by {
      forall j | |h'.elected[n.term].base| <= j < |n.log| && ConfigAt(h'.leaderLog[n.term], j) ensures j < c.index {
        assert ConfigAt(n.log, j);
      }
    }
    assert Written(h', n.term, |n.log|) == n.log;
  }

  lemma AppendReflects(initial: set<NodeId>, h: History, h': History, i: NodeId, n: Core, log': Log)
    requires HistoryOK(initial, h) && NodeOK(h, i, n) && Extends(h, h', i, n.term)
    requires n.log <= log' && n.term in h'.leaderLog && h'.leaderLog[n.term] == log'
    ensures Reflects(h', log', i, n.term + 1, n.term)
  {
    ReflectsLonger(h, n.log, i, n.term + 1, n.term, n.term, n.term);
    ReflectsStable(initial, h, h', i, n.term, n.log, i, n.term, n.term);
    forall t: nat, a: nat | t < n.term + 1 && Acked(h', t, i, a)
      ensures Written(h', t, a) <= log' || Lost(h', t, a, n.term) {}
  }

  function Matched(n: Core, v: NodeId): nat { if v in n.matched then n.matched[v] else 0 }

  lemma CollectMatchKeepsInv(s: State, i: NodeId, pk: Packet)
    requires Inv(s) && i in s.nodes && s.nodes[i].role.Leader?
    requires pk in s.net && pk.msg.AppendReply? && pk.msg.success && pk.msg.term == s.nodes[i].term
    ensures Advances(s, Step(s, i, s.nodes[i].(matched := s.nodes[i].matched[pk.msg.follower :=
                     Largest(Matched(s.nodes[i], pk.msg.follower), pk.msg.matchIndex)]), {}, s.h), i)
  {
    var n := s.nodes[i];
    assert NodeOK(s.h, i, n) && PacketOK(s.h, pk);
    QuietStepKeepsInv(s, i, n.(matched := n.matched[pk.msg.follower := Largest(Matched(n, pk.msg.follower), pk.msg.matchIndex)]), {});
  }

  /** Servers of the leader's configuration known to hold its first k entries. */
  function Holders(initial: set<NodeId>, n: Core, k: nat): set<NodeId> {
    set v | v in ConfigOf(initial, n.log) && Matched(n, v) >= k
  }

  predicate MayCommit(initial: set<NodeId>, n: Core, k: nat) {
    && n.commit < k <= |n.log| && n.log[k - 1].term == n.term
    && Majority(Holders(initial, n, k), ConfigOf(initial, n.log))
  }

  function CommitHistory(initial: set<NodeId>, n: Core, k: nat, h: History): History {
    h.(commits := h.commits + {Commit(n.term, k, |n.log|, Holders(initial, n, k))})
  }

  lemma CommitHistoryOK(initial: set<NodeId>, h: History, i: NodeId, n: Core, k: nat)
    requires HistoryOK(initial, h) && NodeOK(h, i, n) && n.role.Leader? && MayCommit(initial, n, k)
    ensures Extends(h, CommitHistory(initial, n, k, h), i, n.term) && HistoryOK(initial, CommitHistory(initial, n, k, h))
  {
    var h', c := CommitHistory(initial, n, k, h), Commit(n.term, k, |n.log|, Holders(initial, n, k));
    assert ElectionOK(initial, h, n.term);
    var base := h.elected[n.term].base;
    assert forall j | 0 <= j < |base| :: base[j] == n.log[j];
    assert k > |base|;
    assert Written(h', n.term, |n.log|) == n.log;
    assert CommitOK(initial, h', c);
    assert Slot(n.term, i) in h.acked ==> AckOK(h, Slot(n.term, i));
    assert Extends(h, h', i, n.term);
    hide Extends, HistoryOK;
    HistoryPersists(initial, h, h', i, n.term);
  }

  lemma CommitKeepsInv(s: State, i: NodeId, k: nat)
    requires Inv(s) && i in s.nodes && s.nodes[i].role.Leader? && MayCommit(s.initial, s.nodes[i], k)
    ensures Advances(s, Step(s, i, s.nodes[i].(commit := k, committedThisTerm := true), {}, CommitHistory(s.initial, s.nodes[i], k, s.h)), i)
  {
    var n, h := s.nodes[i], s.h;
    var n', h' := n.(commit := k, committedThisTerm := true), CommitHistory(s.initial, n, k, h);
    assert NodeOK(h, i, n);
    CommitHistoryOK(s.initial, h, i, n, k);
    GenuineStable(h, h', i, n.term, n.log, n.term);
    assert CoveredBy(h', n.log, k, n.term, Commit(n.term, k, |n.log|, Holders(s.initial, n, k)));
    SameAcksReflect(h, h', n.log, i, n.term + 1, n.term);
    StepKeepsInv(s, i, n', {}, h', n.term);
  }
}
