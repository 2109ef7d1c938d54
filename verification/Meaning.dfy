/** What the key-value operations mean, told by the answers alone: a read sees the latest write of its key. The
    replicated state machine (raftverified/kv.py) and the sequential reference of the linearizability oracle
    (raftverified/linearizability.py, `_apply`) both have exactly this meaning. */
module Meaning {
  import opened Types
  import opened Kv
  import opened Logs
  import opened Replicas
  import opened Linearizability
  import opened Oracle
  import opened Sessions

  /** An operation that took effect, and what it answered. */
  datatype Outcome = Outcome(command: Command, answer: string)

  /** It wrote the key: a put, or a compare-and-set that answered "ok". */
  predicate Writes(o: Outcome, key: string) {
    o.command.Kv? && o.command.key == key && (o.command.op.Put? || (o.command.op.Cas? && o.answer == "ok"))
  }

  predicate LastWrite(outs: seq<Outcome>, key: string, y: nat) {
    y < |outs| && Writes(outs[y], key) && forall z | y < z < |outs| :: !Writes(outs[z], key)
  }

  predicate NeverWritten(outs: seq<Outcome>, key: string) {
    forall z | 0 <= z < |outs| :: !Writes(outs[z], key)
  }

  /** The key holds the value of its latest write, and the empty string before the first. */
  ghost predicate Holds(outs: seq<Outcome>, key: string, value: string) {
    if NeverWritten(outs, key) then value == ""
    else exists y: nat :: LastWrite(outs, key, y) && outs[y].command.value == value
  }

  ghost predicate RightAnswer(before: seq<Outcome>, o: Outcome) {
    if !o.command.Kv? then o.answer == ""
    else match o.command.op
      case Put => o.answer == "ok"
      case Get => Holds(before, o.command.key, o.answer)
      case Cas => o.answer == if Holds(before, o.command.key, o.command.expected) then "ok" else "fail"
  }

  ghost predicate RightAnswers(outs: seq<Outcome>) {
    forall x | 0 <= x < |outs| :: RightAnswer(outs[..x], outs[x])
  }

  // ---- one more operation ----

  lemma LastWriteUnique(outs: seq<Outcome>, key: string, x: nat, y: nat)
    requires LastWrite(outs, key, x) && LastWrite(outs, key, y)
    ensures x == y
  {}

  lemma HoldsUnique(outs: seq<Outcome>, key: string, a: string, b: string)
    requires Holds(outs, key, a) && Holds(outs, key, b)
    ensures a == b
  {
    if !NeverWritten(outs, key) {
      var x: nat :| LastWrite(outs, key, x) && outs[x].command.value == a;
      var y: nat :| LastWrite(outs, key, y) && outs[y].command.value == b;
      LastWriteUnique(outs, key, x, y);
    }
  }

  lemma HoldsAfter(outs: seq<Outcome>, o: Outcome, key: string, value: string)
    requires if Writes(o, key) then value == o.command.value else Holds(outs, key, value)
    ensures Holds(outs + [o], key, value)
  {
    var all := outs + [o];
    if Writes(o, key) {
      assert all[|outs|] == o;
      assert LastWrite(all, key, |outs|);
    } else if !NeverWritten(outs, key) {
      var y: nat :| LastWrite(outs, key, y) && outs[y].command.value == value;
      assert all[y] == outs[y];
      assert LastWrite(all, key, y);
    }
  }

  /** The store holds every key's value. */
  ghost predicate Stores(store: Store, outs: seq<Outcome>) {
    forall key: string :: StoresKey(store, outs, key)
  }

  ghost predicate StoresKey(store: Store, outs: seq<Outcome>, key: string) { Holds(outs, key, Lookup(store, key)) }

  lemma StoresNothing()
    ensures Stores(map[], [])
  {
    forall key: string ensures StoresKey(map[], [], key) { assert NeverWritten([], key); }
  }

  lemma ExecuteIsRight(store: Store, outs: seq<Outcome>, cmd: Command)
    requires Stores(store, outs) && cmd.Kv?
    ensures var (store', answer) := Execute(store, cmd);
            RightAnswer(outs, Outcome(cmd, answer)) && Stores(store', outs + [Outcome(cmd, answer)])
  {
    hide Holds;
    var (store', answer) := Execute(store, cmd);
    assert StoresKey(store, outs, cmd.key);
    if Holds(outs, cmd.key, cmd.expected) { HoldsUnique(outs, cmd.key, Lookup(store, cmd.key), cmd.expected); }
    forall key: string ensures StoresKey(store', outs + [Outcome(cmd, answer)], key) {
      assert StoresKey(store, outs, key);
      HoldsAfter(outs, Outcome(cmd, answer), key, Lookup(store', key));
    }
  }

  lemma RightAnswersSnoc(outs: seq<Outcome>, o: Outcome)
    ensures RightAnswers(outs + [o]) <==> RightAnswers(outs) && RightAnswer(outs, o)
  {
    hide RightAnswer;
    var all := outs + [o];
    assert forall x | 0 <= x < |outs| :: all[..x] == outs[..x] && all[x] == outs[x];
    assert all[..|outs|] == outs && all[|outs|] == o;
  }

  // ---- the replicated state machine ----

  /** The commands that took effect, with their answers: each request the first time it is its client's newest. */
  function Outcomes(cmds: seq<Command>): seq<Outcome> {
    if cmds == [] then []
    else
      var front, last := cmds[..|cmds| - 1], cmds[|cmds| - 1];
      Outcomes(front) + (if IsNew(front, last) then [Outcome(last, Apply(ApplyAll(EMPTY_KV, front), last).1)] else [])
  }

  /** Whatever commands the log holds, every put answers "ok", every get the value of the latest effective write of
      its key, and every compare-and-set "ok" exactly when that value is the expected one; a read served without a
      log entry sees it too. What takes effect, and what other commands answer, is as in Sessions. */
  lemma {:induction false} StateMachineMeaning(cmds: seq<Command>, read: Command)
    ensures RightAnswers(Outcomes(cmds))
    ensures var answer := ApplyRead(ApplyAll(EMPTY_KV, cmds), read);
            if read.Kv? && read.op.Get? then Holds(Outcomes(cmds), read.key, answer) else answer == ""
  {
    hide Holds, RightAnswers;
    StoreIsRight(cmds);
    if read.Kv? { assert StoresKey(ApplyAll(EMPTY_KV, cmds).store, Outcomes(cmds), read.key); }
  }

  lemma {:induction false} StoreIsRight(cmds: seq<Command>)
    ensures RightAnswers(Outcomes(cmds)) && Stores(ApplyAll(EMPTY_KV, cmds).store, Outcomes(cmds))
  {
    hide Apply, RightAnswers, Stores, IsNew;
    if cmds == [] {
      assert ApplyAll(EMPTY_KV, cmds) == EMPTY_KV && Outcomes(cmds) == [];
      NothingYet();
    } else {
      var front, last := cmds[..|cmds| - 1], cmds[|cmds| - 1];
      StoreIsRight(front);
      if IsNew(front, last) {
        NewCommand(front, last);
      } else {
        OthersChangeNothing(front, last);
        assert Outcomes(cmds) == Outcomes(front);
      }
    }
  }

  lemma NothingYet()
    ensures RightAnswers([]) && Stores(EMPTY_KV.store, [])
  {
    StoresNothing();
  }

  lemma NewCommand(front: seq<Command>, cmd: Command)
    requires IsNew(front, cmd) && RightAnswers(Outcomes(front)) && Stores(ApplyAll(EMPTY_KV, front).store, Outcomes(front))
    ensures var (kv, answer) := Apply(ApplyAll(EMPTY_KV, front), cmd);
            RightAnswers(Outcomes(front) + [Outcome(cmd, answer)]) && Stores(kv.store, Outcomes(front) + [Outcome(cmd, answer)])
  {
    hide Execute, RightAnswer, RightAnswers, Stores, SessionsExact, IsDuplicate, Outcomes, ApplyAll;
    SessionsAreExact(front);
    var kv := ApplyAll(EMPTY_KV, front);
    DuplicateIsOld(front, kv, cmd);
    ExecuteIsRight(kv.store, Outcomes(front), cmd);
    RightAnswersSnoc(Outcomes(front), Outcome(cmd, Apply(kv, cmd).1));
  }

  lemma {:induction false} RunIsApplyAll(hist: Log)
    ensures Run(EMPTY_KV, hist) == ApplyAll(EMPTY_KV, Commands(hist))
  {
    hide Apply;
    if hist != [] {
      var front := hist[..|hist| - 1];
      RunIsApplyAll(front);
      assert Commands(hist)[..|Commands(front)|] == Commands(front);
    }
  }

  /** So it is for the state a history of log entries determines, and with it for every server. */
  lemma HistoryMeaning(hist: Log, read: Command)
    ensures RightAnswers(Outcomes(Commands(hist)))
    ensures var answer := ApplyRead(Run(EMPTY_KV, hist), read);
            if read.Kv? && read.op.Get? then Holds(Outcomes(Commands(hist)), read.key, answer) else answer == ""
  {
    hide Holds, RightAnswers, ApplyAll, Run, Outcomes;
    RunIsApplyAll(hist);
    StateMachineMeaning(Commands(hist), read);
  }

  /** A command that takes no effect changes no state, and answers "" unless it is a client's request. */
  lemma OthersChangeNothing(cmds: seq<Command>, cmd: Command)
    requires !IsNew(cmds, cmd)
    ensures Apply(ApplyAll(EMPTY_KV, cmds), cmd).0 == ApplyAll(EMPTY_KV, cmds)
    ensures !cmd.IsStructured() ==> Apply(ApplyAll(EMPTY_KV, cmds), cmd).1 == ""
  {
    hide SessionsExact, IsDuplicate, IsNew;
    SessionsAreExact(cmds);
    if cmd.IsStructured() { DuplicateIsOld(cmds, ApplyAll(EMPTY_KV, cmds), cmd); }
  }

  // ---- the oracle's sequential reference ----

  function OutcomesOf(lin: seq<HistoryEntry>): (outs: seq<Outcome>)
    ensures |outs| == |lin|
  {
    seq(|lin|, x requires 0 <= x < |lin| => Outcome(lin[x].command, lin[x].observed))
  }

  /** An order of operations is legal exactly when every one of them saw the latest write before it. */
  lemma LegalMeaning(lin: seq<HistoryEntry>)
    ensures Legal(map[], lin) <==> RightAnswers(OutcomesOf(lin))
  {
    LegalStore(lin);
  }

  lemma {:induction false} LegalStore(lin: seq<HistoryEntry>)
    ensures Legal(map[], lin) <==> RightAnswers(OutcomesOf(lin))
    ensures Legal(map[], lin) ==> Stores(StoreFrom(map[], lin), OutcomesOf(lin))
  {
    hide RightAnswer, Stores, Answers, Linearizability.After;
    if lin == [] {
      StoresNothing();
    } else {
      var front, last := lin[..|lin| - 1], lin[|lin| - 1];
      assert lin == front + [last];
      LegalStore(front);
      if Legal(map[], lin) { LegalPrefix(map[], front, last); }
      var o := Outcome(last.command, last.observed);
      assert OutcomesOf(lin) == OutcomesOf(front) + [o];
      RightAnswersSnoc(OutcomesOf(front), o);
      if Legal(map[], front) {
        AnswerIsRight(StoreFrom(map[], front), OutcomesOf(front), last);
        if Answers(StoreFrom(map[], front), last) { LegalSnoc(map[], front, last); }
      }
    }
  }

  lemma {:induction false} LegalPrefix(store: Store, lin: seq<HistoryEntry>, e: HistoryEntry)
    requires Legal(store, lin + [e])
    ensures Legal(store, lin) && Answers(StoreFrom(store, lin), e)
    decreases |lin|
  {
    if lin == [] {
      assert ([] + [e])[0] == e;
    } else {
      assert (lin + [e])[1..] == lin[1..] + [e] && (lin + [e])[0] == lin[0];
      LegalPrefix(Linearizability.After(store, lin[0]), lin[1..], e);
      StoreFromTail(store, lin);
    }
  }

  lemma AnswerIsRight(store: Store, outs: seq<Outcome>, e: HistoryEntry)
    requires Stores(store, outs)
    ensures Answers(store, e) <==> RightAnswer(outs, Outcome(e.command, e.observed))
    ensures Answers(store, e) ==> Stores(Linearizability.After(store, e), outs + [Outcome(e.command, e.observed)])
  {
    hide Holds;
    var o := Outcome(e.command, e.observed);
    if e.command.Kv? {
      ExecuteIsRight(store, outs, e.command);
      assert StoresKey(store, outs, e.command.key);
      if e.command.op.Get? && Holds(outs, e.command.key, e.observed) {
        HoldsUnique(outs, e.command.key, e.observed, Lookup(store, e.command.key));
      }
    } else {
      forall key: string ensures StoresKey(store, outs + [o], key) {
        assert StoresKey(store, outs, key);
        HoldsAfter(outs, o, key, Lookup(store, key));
      }
    }
  }
}
