/** The replicated state machine: a string key-value store with per-client sessions
    (raftverified/kv.py, KVStateMachine). */
module Kv {
  import opened Types

  datatype KvState = KvState(store: map<string, string>, sessions: map<int, Session>)

  const EMPTY_KV := KvState(map[], map[])

  function Lookup(store: map<string, string>, key: string): string {
    if key in store then store[key] else ""
  }

  /** The effect of one operation without deduplication. */
  function Execute(store: map<string, string>, cmd: Command): (map<string, string>, string)
    requires cmd.Kv?
  {
    match cmd.op
    case Put => (store[cmd.key := cmd.value], "ok")
    case Get => (store, Lookup(store, cmd.key))
    case Cas => if Lookup(store, cmd.key) == cmd.expected then (store[cmd.key := cmd.value], "ok") else (store, "fail")
  }

  predicate IsDuplicate(kv: KvState, cmd: Command)
    requires cmd.Kv?
  {
    cmd.client in kv.sessions && cmd.req <= kv.sessions[cmd.client].req
  }

  function Apply(kv: KvState, cmd: Command): (KvState, string) {
    if !cmd.IsStructured() then (kv, "")
    else if IsDuplicate(kv, cmd) then (kv, kv.sessions[cmd.client].result)
    else
      var (store, result) := Execute(kv.store, cmd);
      (KvState(store, kv.sessions[cmd.client := Session(cmd.req, result)]), result)
  }

  function ApplyRead(kv: KvState, cmd: Command): string {
    if cmd.Kv? && cmd.op.Get? then Lookup(kv.store, cmd.key) else ""
  }

  /** The state after applying the commands of a log, oldest first. */
  function Run(kv: KvState, log: seq<Entry>): KvState {
    if log == [] then kv else Apply(Run(kv, log[..|log| - 1]), log[|log| - 1].command).0
  }

  lemma {:induction false} RunConcat(kv: KvState, a: seq<Entry>, b: seq<Entry>)
    ensures Run(kv, a + b) == Run(Run(kv, a), b)
  {
    if b == [] {
      assert a + b == a;
    } else {
      var front := b[..|b| - 1];
      assert (a + b)[..|a + b| - 1] == a + front;
      RunConcat(kv, a, front);
    }
  }
}
