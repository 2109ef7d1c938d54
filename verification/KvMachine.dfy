/** The state machine object a server applies commands to (raftverified/kv.py, KVStateMachine). */
module KvMachine {
  import opened Types
  import opened Kv

  class KVStateMachine {
    var store: map<string, string>
    var sessions: map<int, Session>

    ghost function View(): KvState
      reads this
    {
      KvState(store, sessions)
    }

    constructor ()
      ensures View() == EMPTY_KV
    {
      store, sessions := map[], map[];
    }

    /** Whether this request of its client has already been applied. */
    method IsDuplicate(cmd: Command) returns (duplicate: bool)
      requires cmd.Kv?
      ensures duplicate == Kv.IsDuplicate(View(), cmd)
    {
      duplicate := cmd.client in sessions && cmd.req <= sessions[cmd.client].req;
    }

    /** Executes a new request and caches its result; answers a duplicate from the cache. */
    method Apply(cmd: Command) returns (result: string)
      modifies this
      ensures View() == Kv.Apply(old(View()), cmd).0 && result == Kv.Apply(old(View()), cmd).1
    {
      if !cmd.IsStructured() {
        return "";
      }
      var duplicate := IsDuplicate(cmd);
      if duplicate {
        return sessions[cmd.client].result;
      }
      result := Execute(cmd);
      sessions := sessions[cmd.client := Session(cmd.req, result)];
    }

    method Execute(cmd: Command) returns (result: string)
      requires cmd.Kv?
      modifies this`store
      ensures (store, result) == Kv.Execute(old(store), cmd)
    {
      match cmd.op
      case Put =>
        store := store[cmd.key := cmd.value];
        result := "ok";
      case Get =>
        result := Lookup(store, cmd.key);
      case Cas =>
        if Lookup(store, cmd.key) == cmd.expected {
          store := store[cmd.key := cmd.value];
          result := "ok";
        } else {
          result := "fail";
        }
    }

    /** A read served without a log entry and without deduplication. */
    method ApplyRead(cmd: Command) returns (result: string)
      ensures result == Kv.ApplyRead(View(), cmd)
    {
      if cmd.Kv? && cmd.op.Get? {
        result := Lookup(store, cmd.key);
      } else {
        result := "";
      }
    }

    method Capture() returns (image: KvState)
      ensures image == View()
    {
      image := KvState(store, sessions);
    }

    method Restore(image: KvState)
      modifies this
      ensures View() == image
    {
      store, sessions := image.store, image.sessions;
    }
  }
}
