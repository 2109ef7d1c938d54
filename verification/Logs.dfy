/** Reasoning about logs as sequences: last terms, the configuration a log names, and the
    merge a follower performs. An index is 1-based, so "the first k entries" is `log[..k]`. */
module Logs {
  import opened Types
  import opened Quorums

  type Log = seq<Entry>

  function LastTerm(log: Log): nat {
    if log == [] then 0 else log[|log| - 1].term
  }

  /** Election restriction (section 5.4.1): (term, index) of the last entries, lexicographic. */
  predicate AtLeastAsFresh(term: nat, index: nat, log: Log) {
    term > LastTerm(log) || (term == LastTerm(log) && index >= |log|)
  }

  /** The configuration named by the latest configuration entry of `log`, else `initial`. */
  function ConfigOf(initial: set<NodeId>, log: Log): set<NodeId> {
    if log == [] then initial
    else if log[|log| - 1].command.Config? then log[|log| - 1].command.voters
    else ConfigOf(initial, log[..|log| - 1])
  }

  /** Configuration entries strictly between physical positions lo (inclusive) and hi. */
  predicate ConfigAt(log: Log, j: nat) {
    j < |log| && log[j].command.Config?
  }

  lemma {:induction false} ConfigUnchanged(initial: set<NodeId>, log: Log, k: nat)
    requires k <= |log|
    requires forall j | k <= j < |log| :: !ConfigAt(log, j)
    ensures ConfigOf(initial, log) == ConfigOf(initial, log[..k])
  {
    if k == |log| {
      assert log[..k] == log;
    } else {
      var front := log[..|log| - 1];
      assert !ConfigAt(log, |log| - 1);
      forall j | k <= j < |front| ensures !ConfigAt(front, j) { assert !ConfigAt(log, j); }
      ConfigUnchanged(initial, front, k);
      assert front[..k] == log[..k];
    }
  }

  /** At most one configuration entry above position k, and it is a single-server change:
      then the configurations before and after are equal or one server apart. */
  lemma {:induction false} ConfigCloseAbove(initial: set<NodeId>, log: Log, k: nat)
    requires k <= |log|
    requires forall j | k <= j < |log| && ConfigAt(log, j) ::
               OneApart(log[j].command.voters, ConfigOf(initial, log[..j]))
    requires forall i, j | k <= i < j < |log| :: !(ConfigAt(log, i) && ConfigAt(log, j))
    ensures Close(ConfigOf(initial, log[..k]), ConfigOf(initial, log))
  {
    hide OneApart, ConfigOf;
    if j :| k <= j < |log| && ConfigAt(log, j) {
      forall i | k <= i < |log| && i != j ensures !ConfigAt(log, i) {}
      OnlyChange(initial, log, k, j);
      OneApartIsClose(log[j].command.voters, ConfigOf(initial, log[..j]));
    } else {
      ConfigUnchanged(initial, log, k);
      SameIsClose(ConfigOf(initial, log));
    }
  }

  lemma OnlyChange(initial: set<NodeId>, log: Log, k: nat, j: nat)
    requires k <= j < |log| && ConfigAt(log, j) && forall i | k <= i < |log| && i != j :: !ConfigAt(log, i)
    ensures ConfigOf(initial, log) == log[j].command.voters && ConfigOf(initial, log[..k]) == ConfigOf(initial, log[..j])
  {
    hide ConfigOf;
    ConfigUnchanged(initial, log, j + 1);
    assert log[..j + 1] == log[..j] + [log[j]];
    ConfigOfSnoc(initial, log[..j], log[j]);
    var front := log[..j];
    forall i | k <= i < |front| ensures !ConfigAt(front, i) { assert !ConfigAt(log, i); }
    ConfigUnchanged(initial, front, k);
    assert front[..k] == log[..k];
  }

  lemma OneApartIsClose(a: set<NodeId>, b: set<NodeId>)
    requires OneApart(a, b)
    ensures Close(b, a)
  {
    assert (a - b) + (b - a) == (b - a) + (a - b);
  }

  lemma SameIsClose(a: set<NodeId>)
    ensures Close(a, a)
  {}

  lemma ConfigOfSnoc(initial: set<NodeId>, log: Log, e: Entry)
    ensures ConfigOf(initial, log + [e]) == if e.command.Config? then e.command.voters else ConfigOf(initial, log)
  {
    assert (log + [e])[..|log|] == log;
  }

  // ---- the append loop of an AppendEntries receiver ----

  /** How many leading entries of `es` already sit in `log` from position k on (same terms). */
  function Agreement(log: Log, k: nat, es: Log): (a: nat)
    decreases |es|
    ensures a <= |es|
    ensures k + a <= |log| || a == 0
    ensures forall j | 0 <= j < a :: log[k + j].term == es[j].term
    ensures a < |es| && k + a < |log| ==> log[k + a].term != es[a].term
  {
    if es == [] || k >= |log| || log[k].term != es[0].term then 0
    else 1 + Agreement(log, k + 1, es[1..])
  }

  /** Entries that already match are kept; from the first disagreement on, the log is cut and
      the rest of `es` is appended. */
  function Merge(log: Log, k: nat, es: Log): Log
    requires k <= |log|
  {
    var a := Agreement(log, k, es);
    if a == |es| then log else log[..k + a] + es[a..]
  }
}
