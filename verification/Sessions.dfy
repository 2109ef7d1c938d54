/** Exactly-once semantics of the replicated state machine: whatever commands the log holds, the store is
    the one obtained by executing each client's requests once, without any session table
    (raftverified/kv.py; section 6.3 of Ongaro's dissertation). */
module Sessions {
  import opened Types
  import opened Kv

  function ApplyAll(kv: KvState, cmds: seq<Command>): KvState {
    if cmds == [] then kv else Apply(ApplyAll(kv, cmds[..|cmds| - 1]), cmds[|cmds| - 1]).0
  }

  /** The request is structured and newer than every earlier one of its client. */
  predicate IsNew(cmds: seq<Command>, cmd: Command) {
    cmd.IsStructured() && forall j | 0 <= j < |cmds| && cmds[j].IsStructured() && cmds[j].client == cmd.client :: cmds[j].req < cmd.req
  }

  /** The commands that are the first to carry their request. */
  function Effective(cmds: seq<Command>): seq<Command> {
    if cmds == [] then []
    else
      var front, last := cmds[..|cmds| - 1], cmds[|cmds| - 1];
      Effective(front) + (if IsNew(front, last) then [last] else [])
  }

  /** Executing commands with no session table at all. */
  function Plain(store: map<string, string>, cmds: seq<Command>): map<string, string> {
    if cmds == [] then store
    else
      var before, last := Plain(store, cmds[..|cmds| - 1]), cmds[|cmds| - 1];
      if last.Kv? then Execute(before, last).0 else before
  }

  /** The last request of a client that took effect, and what it answered then. */
  predicate LatestOf(cmds: seq<Command>, client: int, x: nat) {
    && x < |cmds| && cmds[x].IsStructured() && cmds[x].client == client && IsNew(cmds[..x], cmds[x])
    && forall j | 0 <= j < |cmds| && cmds[j].IsStructured() && cmds[j].client == client :: cmds[j].req <= cmds[x].req
  }

  /** A session remembers exactly its client's latest request and the result it had when executed. */
  ghost predicate SessionsExact(cmds: seq<Command>, kv: KvState) {
    forall client: int :: SessionExact(cmds, kv, client)
  }

  ghost predicate SessionExact(cmds: seq<Command>, kv: KvState, client: int) {
    if client in kv.sessions then exists x :: SessionAt(cmds, kv, client, x)
    else forall j | 0 <= j < |cmds| && cmds[j].IsStructured() :: cmds[j].client != client
  }

  predicate SessionAt(cmds: seq<Command>, kv: KvState, client: int, x: nat)
  {
    && LatestOf(cmds, client, x) && client in kv.sessions
    && kv.sessions[client] == Session(cmds[x].req, Execute(ApplyAll(EMPTY_KV, cmds[..x]).store, cmds[x]).1)
  }

  lemma StillNew(front: seq<Command>, cmd: Command, x: nat)
    requires x < |front|
    ensures (front + [cmd])[..x] == front[..x] && (front + [cmd])[x] == front[x]
  {}

  lemma SessionStays(front: seq<Command>, cmd: Command, kv: KvState, kv': KvState, client: int, x: nat)
    requires SessionAt(front, kv, client, x) && client in kv'.sessions && kv'.sessions[client] == kv.sessions[client]
    requires cmd.IsStructured() && cmd.client == client ==> cmd.req <= front[x].req
    ensures SessionAt(front + [cmd], kv', client, x)
  {
    StillNew(front, cmd, x);
    var all := front + [cmd];
    forall j | 0 <= j < |all| && all[j].IsStructured() && all[j].client == client ensures all[j].req <= all[x].req {
      if j < |front| { assert all[j] == front[j]; }
    }
  }

  /** A request already answered is one that is not new. */
  lemma DuplicateIsOld(front: seq<Command>, kv: KvState, cmd: Command)
    requires SessionsExact(front, kv) && cmd.IsStructured()
    ensures IsDuplicate(kv, cmd) <==> !IsNew(front, cmd)
  {
    assert SessionExact(front, kv, cmd.client);
    if cmd.client in kv.sessions {
      var x :| SessionAt(front, kv, cmd.client, x);
    }
  }

  lemma {:induction false} SessionsAreExact(cmds: seq<Command>)
    ensures SessionsExact(cmds, ApplyAll(EMPTY_KV, cmds))
  {
    if cmds != [] {
      var front, cmd := cmds[..|cmds| - 1], cmds[|cmds| - 1];
      assert cmds == front + [cmd];
      SessionsAreExact(front);
      SessionsStep(front, cmd, ApplyAll(EMPTY_KV, front));
    }
  }

  lemma SessionsStep(front: seq<Command>, cmd: Command, kv: KvState)
    requires kv == ApplyAll(EMPTY_KV, front) && SessionsExact(front, kv)
    ensures SessionsExact(front + [cmd], Apply(kv, cmd).0)
  {
    hide SessionExact, Apply, ApplyAll;
    forall client: int ensures SessionExact(front + [cmd], Apply(kv, cmd).0, client) {
      SessionStep(front, cmd, kv, client);
    }
  }

  lemma SessionStep(front: seq<Command>, cmd: Command, kv: KvState, client: int)
    requires kv == ApplyAll(EMPTY_KV, front) && SessionsExact(front, kv)
    ensures SessionExact(front + [cmd], Apply(kv, cmd).0, client)
  {
    hide ApplyAll, Execute, SessionsExact, SessionAt, IsNew;
    var all, kv' := front + [cmd], Apply(kv, cmd).0;
    OneSession(front, kv, client);
    if cmd.IsStructured() { DuplicateIsOld(front, kv, cmd); }
    if client !in kv'.sessions {
      forall j | 0 <= j < |all| && all[j].IsStructured() ensures all[j].client != client {
        if j < |front| { assert all[j] == front[j]; }
      }
    } else if cmd.IsStructured() && cmd.client == client && IsNew(front, cmd) {
      NewSession(front, cmd, kv, kv');
    } else {
      var x :| SessionAt(front, kv, client, x);
      OldIsNotAbove(front, cmd, kv, client, x);
      SessionStays(front, cmd, kv, kv', client, x);
    }
  }

  lemma OneSession(cmds: seq<Command>, kv: KvState, client: int)
    requires SessionsExact(cmds, kv)
    ensures SessionExact(cmds, kv, client)
  {
    hide SessionExact;
  }

  lemma OldIsNotAbove(front: seq<Command>, cmd: Command, kv: KvState, client: int, x: nat)
    requires SessionAt(front, kv, client, x) && (cmd.IsStructured() && cmd.client == client ==> !IsNew(front, cmd))
    ensures x < |front| && (cmd.IsStructured() && cmd.client == client ==> cmd.req <= front[x].req)
  {}

  lemma NewSession(front: seq<Command>, cmd: Command, kv: KvState, kv': KvState)
    requires kv == ApplyAll(EMPTY_KV, front) && IsNew(front, cmd) && cmd.IsStructured() && !IsDuplicate(kv, cmd) && kv' == Apply(kv, cmd).0
    ensures SessionAt(front + [cmd], kv', cmd.client, |front|)
  {
    hide ApplyAll, Execute;
    var all := front + [cmd];
    assert all[..|front|] == front;
    forall j | 0 <= j < |all| && all[j].IsStructured() && all[j].client == cmd.client ensures all[j].req <= cmd.req {
      if j < |front| { assert all[j] == front[j]; }
    }
  }

  lemma EffectiveStep(front: seq<Command>, cmd: Command)
    ensures Effective(front + [cmd]) == if IsNew(front, cmd) then Effective(front) + [cmd] else Effective(front)
  {
    assert (front + [cmd])[..|front|] == front;
  }

  lemma PlainStep(store: map<string, string>, front: seq<Command>, cmd: Command)
    ensures Plain(store, front + [cmd]) == if cmd.Kv? then Execute(Plain(store, front), cmd).0 else Plain(store, front)
  {
    assert (front + [cmd])[..|front|] == front;
  }

  /** Exactly once: duplicates, retries and reordered old requests change nothing; every request takes
      effect the first time it is the newest of its client, and only then. */
  lemma {:induction false} ExactlyOnce(cmds: seq<Command>)
    ensures ApplyAll(EMPTY_KV, cmds).store == Plain(map[], Effective(cmds))
  {
    hide Effective, Plain, Execute, SessionsExact;
    if cmds == [] {
      EmptyRun();
    } else {
      var front, cmd := cmds[..|cmds| - 1], cmds[|cmds| - 1];
      assert cmds == front + [cmd];
      ExactlyOnce(front);
      SessionsAreExact(front);
      if cmd.IsStructured() { DuplicateIsOld(front, ApplyAll(EMPTY_KV, front), cmd); }
      EffectiveStep(front, cmd);
      PlainStep(map[], Effective(front), cmd);
    }
  }

  lemma EmptyRun()
    ensures Plain(map[], Effective([])) == map[]
  {}

  /** What a request answered when it took effect. */
  function Original(cmds: seq<Command>, x: nat): string
    requires x < |cmds| && cmds[x].Kv?
  {
    Execute(ApplyAll(EMPTY_KV, cmds[..x]).store, cmds[x]).1
  }

  /** A retry of any request up to its client's latest, x, changes nothing and returns the original result
      of x: its own exactly when it retries x, or an older request that answered the same. */
  lemma RetryReturnsLatest(cmds: seq<Command>, x: nat, retry: Command)
    requires retry.IsStructured() && LatestOf(cmds, retry.client, x) && retry.req <= cmds[x].req
    ensures var kv := ApplyAll(EMPTY_KV, cmds); Apply(kv, retry) == (kv, Original(cmds, x))
  {
    hide ApplyAll, Execute;
    SessionsAreExact(cmds);
    var kv := ApplyAll(EMPTY_KV, cmds);
    assert cmds[x].client == retry.client;
    OneSession(cmds, kv, retry.client);
    assert retry.client in kv.sessions;
    var y :| SessionAt(cmds, kv, retry.client, y);
    LatestUnique(cmds, retry.client, x, y);
  }

  lemma LatestUnique(cmds: seq<Command>, client: int, x: nat, y: nat)
    requires LatestOf(cmds, client, x) && LatestOf(cmds, client, y)
    ensures x == y
  {
    assert forall k: nat, l: nat | k < l <= |cmds| :: cmds[..l][k] == cmds[k];
  }

  /** Not every retry gets its own result back: a retried put answers with the later get's value. */
  lemma OldRetryLosesItsResult()
    ensures var put, get := Kv(0, 0, Put, "k", "v", ""), Kv(0, 1, Get, "k", "", "");
            && Original([put, get], 0) == "ok"
            && Apply(ApplyAll(EMPTY_KV, [put, get]), put).1 == "v"
  {
    var put, get := Kv(0, 0, Put, "k", "v", ""), Kv(0, 1, Get, "k", "", "");
    assert [put, get][..1] == [put] && [put][..0] == [] && [put, get][..0] == [];
    assert ApplyAll(EMPTY_KV, [put]).sessions[0] == Session(0, "ok");
  }
}
