/** Values that travel between servers: commands, log entries and RPC messages
    (raftverified/node.py, raftverified/kv.py). */
module Types {
  type NodeId = nat

  datatype Option<+T> = None | Some(value: T)

  datatype Op = Put | Get | Cas

  /** A log command. `Config` stands for the strings `decode_config` accepts, `Kv` for the
      strings `Command.decode` turns into a put/get/cas, `Opaque` for every other string. */
  datatype Command =
    | Config(voters: set<NodeId>)
    | Kv(client: int, req: int, op: Op, key: string, value: string, expected: string)
    | Opaque(text: string)
  {
    predicate IsStructured() { Kv? && client >= 0 }
  }

  datatype Entry = Entry(term: nat, command: Command)

  datatype Session = Session(req: int, result: string)

  datatype Message =
    | RequestVote(term: nat, candidate: NodeId, lastIndex: nat, lastTerm: nat)
    | VoteReply(term: nat, voter: NodeId, granted: bool)
    | AppendEntries(term: nat, leader: NodeId, prevIndex: nat, prevTerm: nat, entries: seq<Entry>, leaderCommit: nat)
    | AppendReply(term: nat, follower: NodeId, success: bool, matchIndex: nat)
    | InstallSnapshot(term: nat, leader: NodeId, lastIndex: nat, lastTerm: nat,
                      store: map<string, string>, sessions: map<int, Session>, voters: set<NodeId>)
    | ReadHeartbeat(term: nat, leader: NodeId, readId: nat)
    | ReadAck(term: nat, follower: NodeId, readId: nat)

  datatype Packet = Packet(src: NodeId, dst: NodeId, msg: Message)

  datatype Role = Follower | Candidate | Leader

  function Least(a: nat, b: nat): nat { if a < b then a else b }
  function Largest(a: nat, b: nat): nat { if a < b then b else a }
}
