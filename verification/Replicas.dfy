/** One server's copy of the replicated log and what is derived from it: the compacted prefix, the
    applied state machine and the current configuration (the log, membership, commit and
    compaction parts of raftverified/node.py). */
module Replicas {
  import opened Types
  import opened Logs
  import opened Kv

  datatype Snapshot = Snapshot(lastIndex: nat, lastTerm: nat, kv: KvState, voters: set<NodeId>)

  /** What the apply callback is given, with the log index or read it belongs to. */
  datatype Report =
    | Applied(index: nat, command: Command, result: string)
    | ReadServed(readId: nat, index: nat, command: Command, result: string)

  datatype Replica = Replica(
    initialVoters: set<NodeId>, threshold: int,
    log: Log, base: nat, baseTerm: nat, snapshot: Option<Snapshot>,   // persistent
    voters: set<NodeId>, configIndex: nat,                           // derived
    commit: nat, lastApplied: nat, applied: seq<Command>, kv: KvState, // volatile
    version: nat, reports: seq<Report>)

  function Blank(initialVoters: set<NodeId>, threshold: int): Replica {
    Replica(initialVoters, threshold, [], 0, 0, None, initialVoters, 0, 0, 0, [], EMPTY_KV, 0, [])
  }

  // ---- logical indices are 1-based; the first `base` entries are folded into the snapshot ----

  function LastIndex(r: Replica): nat { r.base + |r.log| }

  /** Looking past the end raises in the source; no reachable server does (see LookupSafety). */
  function TermAt(r: Replica, index: nat): nat {
    if index <= r.base then r.baseTerm
    else if index <= LastIndex(r) then r.log[index - r.base - 1].term
    else 0
  }

  /** `s[k:]`: Python's slice is empty past the end. */
  function Drop<T>(s: seq<T>, k: nat): seq<T> { if k <= |s| then s[k..] else [] }

  function Commands(log: Log): seq<Command> {
    if log == [] then [] else Commands(log[..|log| - 1]) + [log[|log| - 1].command]
  }

  // ---- membership ----

  /** 1-based position of the latest configuration entry, 0 if there is none. */
  function LatestConfig(log: Log): (p: nat)
    ensures p <= |log| && (p > 0 ==> log[p - 1].command.Config?)
  {
    if log == [] then 0
    else if log[|log| - 1].command.Config? then |log|
    else LatestConfig(log[..|log| - 1])
  }

  lemma {:induction false} ConfigOfSplit(initial: set<NodeId>, a: Log, b: Log)
    ensures ConfigOf(initial, a + b) == ConfigOf(ConfigOf(initial, a), b)
  {
    if b == [] {
      assert a + b == a;
    } else {
      var front := b[..|b| - 1];
      assert (a + b)[..|a + b| - 1] == a + front;
      ConfigOfSplit(initial, a, front);
    }
  }

  lemma {:induction false} LatestConfigSplit(a: Log, b: Log)
    ensures LatestConfig(a + b) == if LatestConfig(b) > 0 then |a| + LatestConfig(b) else LatestConfig(a)
  {
    if b == [] {
      assert a + b == a;
    } else {
      var front := b[..|b| - 1];
      assert (a + b)[..|a + b| - 1] == a + front;
      LatestConfigSplit(a, front);
    }
  }

  /** The latest configuration entry names the configuration. */
  lemma {:induction false} ConfigOfLatest(initial: set<NodeId>, log: Log)
    ensures ConfigOf(initial, log) == if LatestConfig(log) > 0 then log[LatestConfig(log) - 1].command.voters else initial
  {
    if log != [] { ConfigOfLatest(initial, log[..|log| - 1]); }
  }

  /** The configuration below the live log: the snapshot's, else the initial one. */
  function BaseVoters(r: Replica): set<NodeId> {
    if r.snapshot.Some? then r.snapshot.value.voters else r.initialVoters
  }

  function BaseConfigIndex(r: Replica): nat {
    if r.snapshot.Some? then r.snapshot.value.lastIndex else 0
  }

  /** `_rebuild_config` */
  function RebuildConfig(r: Replica): Replica {
    var p := LatestConfig(r.log);
    r.(voters := ConfigOf(BaseVoters(r), r.log), configIndex := if p > 0 then r.base + p else BaseConfigIndex(r))
  }

  // ---- the append loop of an AppendEntries receiver ----

  /** `del log[offset:]`, with Python's reading of a negative offset as counted from the end: an index at or
      below the compaction point has one. */
  function CutAtOffset(log: Log, offset: int): Log {
    if offset >= |log| then log
    else if offset >= 0 then log[..offset]
    else if |log| + offset <= 0 then []
    else log[..|log| + offset]
  }

  function Cut(r: Replica, index: nat): Replica {
    var r1 := r.(log := CutAtOffset(r.log, index - r.base - 1), version := r.version + 1);
    if r.configIndex >= index then RebuildConfig(r1) else r1
  }

  function Push(r: Replica, index: nat, e: Entry): Replica {
    var r1 := r.(log := r.log + [e], version := r.version + 1);
    if e.command.Config? then r1.(voters := e.command.voters, configIndex := index) else r1
  }

  /** One turn: keep an entry that is already there, otherwise cut the log at the conflict and append. */
  function AppendOne(r: Replica, index: nat, e: Entry): Replica {
    if LastIndex(r) >= index && TermAt(r, index) == e.term then r
    else Push(if LastIndex(r) >= index then Cut(r, index) else r, index, e)
  }

  function AppendLoop(r: Replica, prev: nat, es: Log): Replica {
    if es == [] then r else AppendOne(AppendLoop(r, prev, es[..|es| - 1]), prev + |es|, es[|es| - 1])
  }

  /** The configuration that goes with a merged log: entries appended take effect at once, and if the
      governing entry was cut off the configuration is rebuilt from what is left. */
  function AdoptFromLog(r: Replica, log': Log): Replica {
    var p := LatestConfig(log');
    if p > 0 then r.(log := log', voters := log'[p - 1].command.voters, configIndex := r.base + p)
    else if r.configIndex > r.base then r.(log := log', voters := BaseVoters(r), configIndex := BaseConfigIndex(r))
    else r.(log := log')
  }

  /** What the loop amounts to for entries above the compaction point; each cut and each appended entry bumps
      the version. */
  function AppendMerged(r: Replica, prev: nat, es: Log): Replica
    requires r.base <= prev <= LastIndex(r)
  {
    var k := prev - r.base;
    var a := Agreement(r.log, k, es);
    var cut := if a < |es| && k + a < |r.log| then 1 else 0;
    AdoptFromLog(r, Merge(r.log, k, es)).(version := r.version + (|es| - a) + cut)
  }

  /** A leader's own append. */
  function AppendOwn(r: Replica, e: Entry): Replica {
    var r1 := r.(log := r.log + [e], version := r.version + 1);
    if e.command.Config? then r1.(voters := e.command.voters, configIndex := LastIndex(r) + 1) else r1
  }

  // ---- commit, apply, compact ----

  /** The reports for applying `es` from logical index `from + 1` on. */
  function ApplyReports(kv: KvState, from: nat, es: Log): seq<Report> {
    if es == [] then []
    else
      var front, cmd := es[..|es| - 1], es[|es| - 1].command;
      ApplyReports(kv, from, front) + [Applied(from + |es|, cmd, Apply(Run(kv, front), cmd).1)]
  }

  /** Entries that become applied when the commit index moves to `index`. */
  function NewlyCommitted(r: Replica, index: nat): Log {
    if r.base <= r.lastApplied <= index <= LastIndex(r) then r.log[r.lastApplied - r.base..index - r.base] else []
  }

  function ApplyUpTo(r: Replica, index: nat): Replica {
    var es := NewlyCommitted(r, index);
    r.(commit := index, lastApplied := Largest(r.lastApplied, index), applied := r.applied + Commands(es),
       kv := Run(r.kv, es), reports := r.reports + ApplyReports(r.kv, r.lastApplied, es))
  }

  function SetCommit(r: Replica, index: nat): Replica {
    if index <= r.commit then r else MaybeCompact(ApplyUpTo(r, index))
  }

  function MaybeCompact(r: Replica): Replica {
    if r.threshold <= 0 || r.lastApplied - r.base < r.threshold then r else Compact(r)
  }

  /** The configuration a snapshot up to physical position k must record. */
  function VotersUpTo(r: Replica, k: nat): set<NodeId> {
    ConfigOf(BaseVoters(r), if k <= |r.log| then r.log[..k] else r.log)
  }

  function Compact(r: Replica): Replica
    requires r.lastApplied >= r.base
  {
    var k := r.lastApplied - r.base;
    r.(log := Drop(r.log, k), applied := Drop(r.applied, k), base := r.lastApplied, baseTerm := TermAt(r, r.lastApplied),
       snapshot := Some(Snapshot(r.lastApplied, TermAt(r, r.lastApplied), r.kv, VotersUpTo(r, k))),
       version := r.version + 1)
  }

  // ---- crash and snapshot installation ----

  /** The state a server restarts with: its snapshot's, or nothing. */
  function Restart(r: Replica): Replica {
    RebuildConfig(r.(
      kv := if r.snapshot.Some? then r.snapshot.value.kv else EMPTY_KV,
      commit := BaseConfigIndex(r), lastApplied := BaseConfigIndex(r), applied := []))
  }

  function KeepsTail(r: Replica, s: Snapshot): bool {
    LastIndex(r) >= s.lastIndex && TermAt(r, s.lastIndex) == s.lastTerm
  }

  /** Replace everything up to the snapshot's index by its image. */
  function Install(r: Replica, s: Snapshot): Replica
    requires s.lastIndex > r.base
  {
    RebuildConfig(r.(
      log := if KeepsTail(r, s) then r.log[s.lastIndex - r.base..] else [],
      kv := s.kv, snapshot := Some(s), base := s.lastIndex, baseTerm := s.lastTerm,
      commit := s.lastIndex, lastApplied := s.lastIndex, applied := [], version := r.version + 1))
  }
}
