/** What each handler of RaftNode does, as a function on the server's state
    (raftverified/node.py). The class in RaftNode.dfy is proved against these functions, and the
    cluster theorems are proved about them. Timers and trace records are left out. */
module NodeSpec {
  import opened Types
  import opened Quorums
  import opened Logs
  import opened Kv
  import opened Replicas

  datatype PendingRead = PendingRead(command: Command, index: nat, acks: set<NodeId>)

  /** A leader's bookkeeping: replication progress per follower, the highest request id per client
      in its log, and its unconfirmed reads. */
  datatype Progress = Progress(nextIndex: map<NodeId, nat>, matchIndex: map<NodeId, nat>)
  datatype RequestTable = RequestTable(highest: map<int, int>)
  datatype ReadTable = ReadTable(pending: map<nat, PendingRead>, nextId: nat)

  const NO_PROGRESS := Progress(map[], map[])
  const NO_REQUESTS := RequestTable(map[])

  /** `sent` holds every message the server ever handed to the network. */
  datatype NodeState = NodeState(
    id: NodeId, peers: set<NodeId>,
    term: nat, votedFor: Option<NodeId>, replica: Replica,
    role: Role, leaderId: Option<NodeId>, alive: bool, incarnation: nat,
    votes: set<NodeId>, progress: Progress, requests: RequestTable, readTable: ReadTable, committedThisTerm: bool,
    sent: set<Packet>)

  function Initial(id: NodeId, peers: set<NodeId>, initialVoters: set<NodeId>, threshold: int): NodeState {
    NodeState(id, peers, 0, None, Blank(initialVoters, threshold), Follower, None, true, 0,
              {}, NO_PROGRESS, NO_REQUESTS, ReadTable(map[], 0), false, {})
  }

  function Last(n: NodeState): nat { LastIndex(n.replica) }
  function LastLogTerm(n: NodeState): nat { TermAt(n.replica, Last(n)) }

  function Send(n: NodeState, to: NodeId, msg: Message): NodeState {
    n.(sent := n.sent + {Packet(n.id, to, msg)})
  }

  // ---- lifecycle ----

  function NoReads(n: NodeState): ReadTable { ReadTable(map[], n.readTable.nextId) }

  function Pause(n: NodeState): NodeState {
    n.(alive := false, role := Follower, replica := Restart(n.replica), leaderId := None, progress := NO_PROGRESS,
       votes := {}, requests := NO_REQUESTS, readTable := NoReads(n), committedThisTerm := false,
       incarnation := n.incarnation + 1)
  }

  function Resume(n: NodeState): NodeState { n.(alive := true) }

  function BecomeFollower(n: NodeState, term: nat): NodeState {
    n.(term := term, votedFor := if term > n.term then None else n.votedFor, role := Follower, readTable := NoReads(n))
  }

  function StepDownIfNewer(n: NodeState, term: nat): NodeState {
    if term > n.term then BecomeFollower(n, term) else n
  }

  // ---- sending ----

  function TailFor(n: NodeState, prev: nat): Message
    requires n.replica.base <= prev <= Last(n)
  {
    AppendEntries(n.term, n.id, prev, TermAt(n.replica, prev), n.replica.log[prev - n.replica.base..], n.replica.commit)
  }

  /** `_send_append_entries`: a log tail, or the snapshot for a peer behind the compaction point.
      The lookups fail in the source exactly when `CanSend` does not hold. */
  function Outgoing(n: NodeState, p: NodeId): set<Packet> {
    if p !in n.progress.nextIndex then {}
    else
      var prev := (n.progress.nextIndex[p] as int) - 1;
      if prev < n.replica.base then
        match n.replica.snapshot
        case None => {}
        case Some(s) => {Packet(n.id, p, InstallSnapshot(n.term, n.id, s.lastIndex, s.lastTerm, s.kv.store, s.kv.sessions, s.voters))}
      else if prev > Last(n) then {}
      else {Packet(n.id, p, TailFor(n, prev))}
  }

  predicate CanSend(n: NodeState, p: NodeId) {
    p in n.progress.nextIndex && n.progress.nextIndex[p] <= Last(n) + 1
  }

  predicate CanBroadcast(n: NodeState) {
    forall p | p in n.replica.voters - {n.id} :: CanSend(n, p)
  }

  function OtherVoters(n: NodeState): set<NodeId> { n.replica.voters - {n.id} }

  function BroadcastPackets(n: NodeState, to: set<NodeId>): set<Packet> {
    set p, pk | p in to && pk in Outgoing(n, p) :: pk
  }

  function Broadcast(n: NodeState): NodeState {
    n.(sent := n.sent + BroadcastPackets(n, OtherVoters(n)))
  }

  // ---- elections ----

  function Campaign(n: NodeState): NodeState {
    n.(term := n.term + 1, role := Candidate, votedFor := Some(n.id), leaderId := None, votes := {n.id})
  }

  function SolicitPackets(c: NodeState, to: set<NodeId>): set<Packet> {
    set p | p in to :: Packet(c.id, p, RequestVote(c.term, c.id, Last(c), LastLogTerm(c)))
  }

  function StartElection(n: NodeState): NodeState {
    if n.id !in n.replica.voters then n
    else var c := Campaign(n); MaybeWin(c.(sent := c.sent + SolicitPackets(c, OtherVoters(c))))
  }

  function ElectionTimeout(n: NodeState): NodeState {
    if !n.alive || n.role.Leader? then n else StartElection(n)
  }

  function MaybeWin(n: NodeState): NodeState {
    if n.role.Candidate? && Majority(n.votes, n.replica.voters) then BecomeLeader(n) else n
  }

  /** The highest request id per client in the log (only structured requests count). */
  function ClientIndex(log: Log): map<int, int> {
    if log == [] then map[] else NoteRequest(ClientIndex(log[..|log| - 1]), log[|log| - 1].command)
  }

  function NoteRequest(m: map<int, int>, cmd: Command): map<int, int> {
    if cmd.IsStructured() && cmd.req > HighestRequest(m, cmd.client) then m[cmd.client := cmd.req] else m
  }

  function HighestRequest(m: map<int, int>, client: int): int { if client in m then m[client] else -1 }

  function Lead(n: NodeState): NodeState {
    n.(role := Leader, leaderId := Some(n.id),
       progress := Progress(map p | p in n.peers :: Last(n) + 1, (map p | p in n.peers :: 0)[n.id := Last(n)]),
       committedThisTerm := false, requests := RequestTable(ClientIndex(n.replica.log)))
  }

  function BecomeLeader(n: NodeState): NodeState { Broadcast(Lead(n)) }

  function HeartbeatTick(n: NodeState): NodeState {
    if !n.alive || !n.role.Leader? then n else Broadcast(n)
  }

  // ---- client interface ----

  predicate AlreadyAppended(n: NodeState, cmd: Command) {
    cmd.IsStructured() && cmd.req <= HighestRequest(n.requests.highest, cmd.client)
  }

  /** The leader's log grows by one entry, which counts as replicated on itself. */
  function Extend(n: NodeState, cmd: Command): NodeState {
    n.(replica := AppendOwn(n.replica, Entry(n.term, cmd)),
       progress := Progress(n.progress.nextIndex, n.progress.matchIndex[n.id := Last(n) + 1]),
       requests := if cmd.IsStructured() then RequestTable(n.requests.highest[cmd.client := cmd.req]) else n.requests)
  }

  /** `client_command`; configuration strings are not client commands. */
  function ClientCommand(n: NodeState, cmd: Command): (NodeState, bool)
    requires !cmd.Config?
  {
    if !n.role.Leader? || !n.alive then (n, false)
    else if AlreadyAppended(n, cmd) then (n, true)
    else (Broadcast(Extend(n, cmd)), true)
  }

  predicate MayChangeConfig(n: NodeState, voters: set<NodeId>) {
    && n.role.Leader? && n.alive
    && OneApart(voters, n.replica.voters)
    && n.id in voters
    && n.replica.configIndex <= n.replica.commit
    && n.committedThisTerm
  }

  function ChangeConfig(n: NodeState, voters: set<NodeId>): (NodeState, bool) {
    if MayChangeConfig(n, voters) then (Broadcast(Extend(n, Config(voters))), true) else (n, false)
  }

  // ---- RequestVote ----

  predicate GrantsVote(n: NodeState, m: Message)
    requires m.RequestVote?
  {
    && m.term == n.term
    && (n.votedFor == None || n.votedFor == Some(m.candidate))
    && (m.lastTerm > LastLogTerm(n) || (m.lastTerm == LastLogTerm(n) && m.lastIndex >= Last(n)))
  }

  function OnRequestVote(n: NodeState, m: Message): NodeState
    requires m.RequestVote?
  {
    AnswerVote(StepDownIfNewer(n, m.term), m)
  }

  function AnswerVote(n: NodeState, m: Message): NodeState
    requires m.RequestVote?
  {
    var granted := GrantsVote(n, m);
    Send(n.(votedFor := if granted then Some(m.candidate) else n.votedFor), m.candidate, VoteReply(n.term, n.id, granted))
  }

  function OnVoteReply(n: NodeState, m: Message): NodeState
    requires m.VoteReply?
  {
    if m.term > n.term then BecomeFollower(n, m.term)
    else if !n.role.Candidate? || m.term < n.term || !m.granted then n
    else MaybeWin(n.(votes := n.votes + {m.voter}))
  }

  // ---- AppendEntries ----

  predicate LogInconsistent(n: NodeState, m: Message)
    requires m.AppendEntries?
  {
    m.prevIndex > 0 && (Last(n) < m.prevIndex || TermAt(n.replica, m.prevIndex) != m.prevTerm)
  }

  /** The receiver once it takes the sender for the leader of the message's term. */
  function Recognise(n: NodeState, term: nat, leader: NodeId): NodeState {
    (if term > n.term || !n.role.Follower? then BecomeFollower(n, term) else n).(leaderId := Some(leader))
  }

  /** The commit index never moves back: a stale announcement is ignored. */
  function FollowCommit(r: Replica, announced: nat, matched: nat): Replica {
    if announced > r.commit then SetCommit(r, Largest(r.commit, Least(announced, matched))) else r
  }

  function Absorb(r: Replica, m: Message): Replica
    requires m.AppendEntries?
  {
    FollowCommit(AppendLoop(r, m.prevIndex, m.entries), m.leaderCommit, m.prevIndex + |m.entries|)
  }

  /** An AppendEntries builds on an entry at or above the compaction point. */
  predicate AboveBase(n: NodeState, m: Message) {
    m.AppendEntries? ==> m.prevIndex >= n.replica.base
  }

  function OnAppendEntries(n: NodeState, m: Message): NodeState
    requires m.AppendEntries?
  {
    if m.term < n.term then Send(n, m.leader, AppendReply(n.term, n.id, false, 0))
    else
      var n1 := Recognise(n, m.term, m.leader);
      if LogInconsistent(n1, m) then Send(n1, m.leader, AppendReply(n1.term, n1.id, false, 0))
      else Send(n1.(replica := Absorb(n1.replica, m)), m.leader, AppendReply(n1.term, n1.id, true, m.prevIndex + |m.entries|))
  }

  function NextOf(n: NodeState, p: NodeId): nat { if p in n.progress.nextIndex then n.progress.nextIndex[p] else 1 }
  function MatchOf(n: NodeState, v: NodeId): nat { if v in n.progress.matchIndex then n.progress.matchIndex[v] else 0 }

  function NoteMatch(n: NodeState, f: NodeId, index: nat): NodeState {
    n.(progress := Progress(n.progress.nextIndex[f := Largest(NextOf(n, f), index + 1)],
                            n.progress.matchIndex[f := Largest(MatchOf(n, f), index)]))
  }

  function BackOff(n: NodeState, f: NodeId): NodeState {
    n.(progress := Progress(n.progress.nextIndex[f := if NextOf(n, f) <= 1 then 1 else NextOf(n, f) - 1], n.progress.matchIndex))
  }

  function OnAppendReply(n: NodeState, m: Message): NodeState
    requires m.AppendReply?
  {
    if m.term > n.term then BecomeFollower(n, m.term)
    else if !n.role.Leader? || m.term < n.term then n
    else if m.success then AdvanceCommit(NoteMatch(n, m.follower, m.matchIndex))
    else var n1 := BackOff(n, m.follower); n1.(sent := n1.sent + Outgoing(n1, m.follower))
  }

  // ---- commit ----

  /** More than half of the current configuration is known to hold the first k entries. */
  predicate QuorumHolds(n: NodeState, k: nat) {
    |set v | v in n.replica.voters && MatchOf(n, v) >= k| * 2 > |n.replica.voters|
  }

  /** The scan of `_advance_commit` from index k down; the current commit index if nothing new. */
  function CommitPoint(n: NodeState, k: nat): nat {
    if k <= n.replica.commit || TermAt(n.replica, k) != n.term then n.replica.commit
    else if QuorumHolds(n, k) then k
    else CommitPoint(n, k - 1)
  }

  function AdvanceCommit(n: NodeState): NodeState {
    var k := CommitPoint(n, Last(n));
    if k > n.replica.commit then n.(replica := SetCommit(n.replica, k), committedThisTerm := true) else n
  }

  // ---- InstallSnapshot ----

  function ImageOf(m: Message): Snapshot
    requires m.InstallSnapshot?
  {
    Snapshot(m.lastIndex, m.lastTerm, KvState(m.store, m.sessions), m.voters)
  }

  function OnInstallSnapshot(n: NodeState, m: Message): NodeState
    requires m.InstallSnapshot?
  {
    if m.term < n.term then Send(n, m.leader, AppendReply(n.term, n.id, false, 0))
    else
      var n1 := Recognise(n, m.term, m.leader);
      if m.lastIndex <= n1.replica.base then Send(n1, m.leader, AppendReply(n1.term, n1.id, true, Last(n1)))
      else Send(n1.(replica := Install(n1.replica, ImageOf(m))), m.leader, AppendReply(n1.term, n1.id, true, m.lastIndex))
  }

  // ---- ReadIndex ----

  function HeartbeatPackets(n: NodeState, id: nat, to: set<NodeId>): set<Packet> {
    set p | p in to :: Packet(n.id, p, ReadHeartbeat(n.term, n.id, id))
  }

  function RequestRead(n: NodeState, cmd: Command): (NodeState, bool) {
    if !n.role.Leader? || !n.alive || !n.committedThisTerm then (n, false)
    else
      var id := n.readTable.nextId;
      var n1 := n.(readTable := ReadTable(n.readTable.pending[id := PendingRead(cmd, n.replica.commit, {n.id})], id + 1),
                   sent := n.sent + HeartbeatPackets(n, id, OtherVoters(n)));
      (TryServeRead(n1, id), true)
  }

  function OnReadHeartbeat(n: NodeState, m: Message): NodeState
    requires m.ReadHeartbeat?
  {
    var n1 := StepDownIfNewer(n, m.term);
    Send(n1.(leaderId := if m.term >= n1.term then Some(m.leader) else n1.leaderId), m.leader, ReadAck(n1.term, n1.id, m.readId))
  }

  function OnReadAck(n: NodeState, m: Message): NodeState
    requires m.ReadAck?
  {
    if m.term > n.term then BecomeFollower(n, m.term)
    else if m.readId !in n.readTable.pending || m.term != n.term || !n.role.Leader? then n
    else TryServeRead(NoteAck(n, m.readId, m.follower), m.readId)
  }

  function NoteAck(n: NodeState, id: nat, follower: NodeId): NodeState
    requires id in n.readTable.pending
  {
    var p := n.readTable.pending[id];
    n.(readTable := ReadTable(n.readTable.pending[id := p.(acks := p.acks + {follower})], n.readTable.nextId))
  }

  predicate ReadConfirmed(n: NodeState, id: nat) {
    && id in n.readTable.pending
    && Majority(n.readTable.pending[id].acks, n.replica.voters)
    && n.replica.lastApplied >= n.readTable.pending[id].index
  }

  function ServeRead(n: NodeState, id: nat): NodeState
    requires id in n.readTable.pending
  {
    var cmd := n.readTable.pending[id].command;
    n.(readTable := ReadTable(n.readTable.pending - {id}, n.readTable.nextId),
       replica := n.replica.(reports := n.replica.reports + [ReadServed(id, n.replica.lastApplied, cmd, ApplyRead(n.replica.kv, cmd))]))
  }

  function TryServeRead(n: NodeState, id: nat): NodeState {
    if ReadConfirmed(n, id) then ServeRead(n, id) else n
  }

  // ---- dispatch ----

  function Handle(n: NodeState, m: Message): NodeState {
    if !n.alive then n
    else match m
      case RequestVote(_, _, _, _) => OnRequestVote(n, m)
      case VoteReply(_, _, _) => OnVoteReply(n, m)
      case AppendEntries(_, _, _, _, _, _) => OnAppendEntries(n, m)
      case AppendReply(_, _, _, _) => OnAppendReply(n, m)
      case InstallSnapshot(_, _, _, _, _, _, _) => OnInstallSnapshot(n, m)
      case ReadHeartbeat(_, _, _) => OnReadHeartbeat(n, m)
      case ReadAck(_, _, _) => OnReadAck(n, m)
  }
}
