/** The whole harness on one run: the checker after every event, then the oracle on the recorded history
    (raftverified/shrink.py, `failure_signature`). */
module Signatures {
  import opened Types
  import opened Linearizability
  import opened Oracle
  import opened Clients
  import opened Cluster
  import opened ClientHistory
  import opened ClientLinearizability
  import opened CheckerRuns

  /** A run of the protocol shows no failure. The one signature it can get is that of a search which gave up
      after more than `budget` distinct states, which counts as not linearizable here. */
  method FailureSignature(r: Execution, ds: seq<Driver>, ids: seq<NodeId>, budget: int) returns (signature: Option<string>)
    requires Drives(r, ds) && Ascends(ids, r.states[0])
    ensures signature.Some? ==>
              && signature.value == "nonlinearizable"
              && exists memo: set<Key> :: |memo| > budget && forall key | key in memo :: Reached(Considered(ds[|ds| - 1].history, None), key)
  {
    hide IsRun, Linearizable, IsLinearization, Reached, Considered, DriverStep;
    assert IsRun(r) && |ds| == |r.states|;
    assert |r.states| > 0 by { RunSize(r); }
    var passed := Watch(r, ids); // no invariant violation ends the run early
    var last := |ds| - 1;
    ClientHistoriesLinearizable(r, ds, last);
    var verdict := Check(ds[last].history, None, budget);
    signature := if verdict.Linearized? then None else Some("nonlinearizable");
  }
}
