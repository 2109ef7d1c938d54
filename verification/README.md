# RaftVerified in Dafny

A model of RaftVerified's consensus algorithm, its key-value clients, its linearizability oracle, its
invariant checker and its shrinker, with proofs that hold for every run, every history and every input
instead of the sampled ones. `dafny verify dfyconfig.toml` checks the whole project.

The model has four layers.

**The protocol.** `NodeSpec` and `Replicas` give every handler of `RaftNode` as a step function on one
server's state. The class in `RaftNode`, field by field and loop by loop, is proved to perform exactly those
steps. `Cluster` puts servers together: a run is any sequence of deliveries, timeouts, heartbeats, client
commands, configuration changes, reads, crashes and restarts, and any message ever sent may be delivered at
any later time, any number of times or never, which covers loss, duplication, delay, reordering and
partitions. `Protocol`, `Safety`, `ProtocolSteps` and `ProtocolMoves` prove an inductive invariant over a
ledger of elections, votes, acknowledgements and commits, with majorities counted over each server's own
configuration; `NodeRefinement` and `ClusterRefinement` show that every event is a few moves of that protocol.
`ClusterSafety`, `StateMachineSafety`, `CommitRule`, `Replication`, `Requests`, `ReadIndex` and `Membership`
then state the properties of sections 5.2 to 5.4 and 8 of the Raft paper and of chapters 4 and 6 of Ongaro's
dissertation over whole runs. `HandlerLaws` says what each handler promises by the server's full history and the
messages it sends, and `LeaderLaws` when a server wins, commits and answers reads, counted out over its configuration.
`Journeys`, `Elections`, `Repair` and `Availability` are the other side of safety: from every state a run has reached,
an election can be won, a follower repaired, a command committed and a read served. `Rounds` and `Progress` show by
induction over a majority that exactly the clusters with two or more voters have runs that commit and serve reads;
`TwoServers` plays one such run event by event, and `ClientRun` has a client drive it.
`Recovery` and `Soundness` cover compaction, snapshots and crashes of one server, `SnapshotLimits` and `EarlyMessages`
exactly when compaction goes wrong.

**Clients.** `Meaning` says what the key-value operations answer, by the writes before them, for the state machine and
for the oracle's reference alike. `Sessions` is the exactly-once property of the state machine, `Codec` the strings in
the log, `ClientTurns` the order in which clients work through their operations, and `ClientLinearizability` the
capstone: in every run the recorded client history is linearizable, with gets served through the log or through
ReadIndex.

**The oracle.** `Oracle` is the iterative search with its stack and memo table, proved exact. `OracleBound`
says when a bounded check speaks for the whole history.

**The tools.** `InvariantChecker` is the checker with its caches, proved to pass exactly what the uncached
specification in `CheckerSpec` accepts. `Recordings` says what that is of a whole recording by the recorded
observations alone, and `CheckerRuns` that the checker never raises on any run. `Shrink` is delta debugging and the
search for the step budget.

Where the code and its comments disagree, the model follows the code and the difference is a theorem:

- `client_workload` is described as several clients contending for the same keys. The key depends on the client
  only, so no two clients ever share a key (`Workload.ClientsNeverContend`), and as each cas expects a value of
  another client's numbering, no cas ever succeeds in a run of this workload (`Workload.CasNeverSucceeds`).
- `check` is documented to condemn a history from a non-linearizable prefix. That is right exactly for a prefix
  whose operations all returned before any later one was invoked (`OracleBound.BoundedCheckIsSound`).
- A retried request is described as returning its cached result. One result is cached per client, so a retry
  returns the result of the client's latest request, whichever request it retries (`Sessions.RetryReturnsLatest`,
  `Sessions.OldRetryLosesItsResult`).
- Commit indices are described as never going back while a server is up. Only a received snapshot can take one back
  (`LogVersions.HandleKeepsCommit`), and exactly when is stated in `SnapshotLimits.InstallKeepsCommit`.
- Entries that already match are described as kept untouched, so that duplicates never truncate committed entries.
  A server with compaction compares entries below its compaction point with the base term, so a duplicate of a first
  message can cut committed entries (`EarlyMessages.EarlyMessageCutsCommitted`) or bring an old configuration back
  (`EarlyMessages.EarlyMessageRevivesConfig`); exactly when is `EarlyMessages.EarlyMessage`.
- A cluster of one is accepted but can never commit (`Progress.CommitsExactlyWithTwoVoters`), and so is a
  configuration change that names an unknown server, whose next index is then missing
  (`LookupSafety.LookupsSucceedExactly`, `TwoServers.UnknownVoterFails`).
- `shrink` may be started with faults already suppressed. Its search starts over from no suppression, so the
  reduced run need not fail; `Shrink.Reduce` says exactly when it does, `Shrink.LosesTheMask` is an input for which
  it does not.
- `failure_signature` is described as returning "nonlinearizable" for a history that is not linearizable. It also
  does for an oracle that ran out of budget, and no run of the protocol can get it otherwise
  (`Signatures.FailureSignature`).

Strings stand for themselves in the store; a log command is a datatype of configuration, key-value command
or opaque text, which `Codec.SpellingIsUnambiguous` and `Codec.SpellingIsCanonical` tie to the program's
strings. The apply callback is the list of reports a server has made; the network is the set of packets the
servers have sent.

## Model

| member | source | states |
|---|---|---|
| `Quorums.MajoritiesMeet` | raftverified/node.py:410-414 | majorities of two configurations that are equal or differ by one server share a server that votes in both |
| `Safety.LogMatching` | raftverified/node.py:591-630 | two logs made only of pieces of leaders' logs that hold the same term at a position agree up to it |
| `Safety.ForkedConfigsClose` | raftverified/node.py:442-476 | the two change guards keep the configurations of any two logs that hold every commit their changes rest on equal or one server apart |
| `Safety.CommitSurvives` | raftverified/node.py:549-566 | an entry counted as committed in an earlier term is in the log of every winner of a later election, although each side counts its majority over its own configuration |
| `Safety.WinnersMeet` | raftverified/node.py:410-414 | two winners of one term would need majorities that meet, so there is at most one |
| `Safety.CommitsAgree` | raftverified/node.py:710-721 | two commits agree on every index both cover |
| `ProtocolSteps.StepKeepsInv` | raftverified/node.py:442-476 | a protocol step whose additions to the ledger of ballots, logs, acknowledgements and commits are in order keeps the inductive invariant |
| `ProtocolMoves.CommitKeepsInv` | raftverified/node.py:710-721 | counting a majority over the leader's own configuration for an entry of its own term keeps the inductive invariant |
| `ProtocolMoves.AcceptKeepsInv` | raftverified/node.py:579-630 | accepting an AppendEntries, with truncation, keeps the inductive invariant |
| `ProtocolMoves.LearnCommitKeepsInv` | raftverified/node.py:622-630 | taking over an announced commit index keeps the inductive invariant |
| `ClusterRefinement.StepRefines` | raftverified/node.py:480-496 | every event of a cluster (delivery, timeout, heartbeat, command, configuration change, read, crash, restart) is a few protocol moves, so the invariant holds in every reachable state |
| `ClusterSafety.ElectionSafety` | raftverified/invariants.py:119-128 | over a whole run with crashes, duplicated and stale messages and membership changes, a term has at most one leader |
| `ClusterSafety.LeaderAppendOnly` | raftverified/invariants.py:132-161 | a leader's log at any earlier moment of its term is a prefix of its log at any later one |
| `ClusterSafety.LogsMatch` | raftverified/invariants.py:165-188 | equal terms at an index of two logs, at any two moments of a run, mean equal logs up to it |
| `ClusterSafety.CommittedPrefixesAgree` | raftverified/invariants.py:199-216 | the committed prefixes of any two servers at any two moments are comparable: committed entries never differ |
| `ClusterSafety.LeaderCompletenessOverRuns` | raftverified/invariants.py:236-257 | what a server held committed in a term is in the log of every leader of a later term, and of that term from then on |
| `ClusterSafety.MembershipIsDerived` | raftverified/node.py:250-278 | in every reachable state without compaction the voters are the latest configuration in the log, else the initial one |
| `ClusterSafety.AlwaysAboveBase` | raftverified/node.py:595-604 | without compaction no delivered message reaches below the compaction point and no snapshot is ever sent |
| `StateMachineSafety.OneHistory` | raftverified/invariants.py:261-275 | every run has one growing history that contains every server's committed entries and explains every result ever reported |
| `StateMachineSafety.AppliesAgree` | raftverified/invariants.py:261-275 | two reports for one index, by any servers in any incarnations, carry the same command and the same result |
| `ApplyProgress.AllApplied` | raftverified/node.py:723-736 | every index up to a server's commit index has been applied and reported by it |
| `Availability.StaysAvailable` | raftverified/node.py:366-721 | from every state a run has reached, a server of its own configuration of two or more, with a log as recent as those of any majority of it, has a way on to be elected, to commit a given new command by that majority alone, and to answer a read from it |
| `Availability.AlwaysAvailable` | raftverified/node.py:366-721 | so without configuration changes two initial voters are enough, at every moment of every run |
| `Elections.CanBeElected` | raftverified/node.py:366-414 | such a server can win an election of a term that nobody is ahead of, whatever terms, votes and crashes came before, without anybody's log changing |
| `Repair.CanRepair` | raftverified/node.py:632-648 | from every state a run has reached, a heartbeat and then updates and replies between a live leader and a live voter whose term is not newer, and nothing else, leave the voter with the leader's commit index unless its own is higher, and with the leader's log if and only if its own was not a longer continuation of it, which it then keeps |
| `Replication.ContinuationStays` | raftverified/node.py:606-620 | a log that goes on from that of the leader of a term is not changed by any message of that term, whenever it was sent |
| `Repair.OwnEntrySettles` | raftverified/node.py:606-620 | with an entry of its own term at the end of the leader's log, the two logs are then equal |
| `Availability.LongerLogSurvives` | raftverified/node.py:606-620 | without one they need not be: a reachable leader with an empty log and a voter with an entry |
| `Progress.CommitsExactlyWithTwoVoters` | raftverified/node.py:632-648 | a cluster whose initial voters are servers has a run that commits an entry, and a run that serves a read, if and only if it starts with at least two voters |
| `SingleVoter.OneVoterNeverCommits` | raftverified/node.py:632-648 | with at most one initial voter no server of any run ever sends, commits or reports anything: the commit rule runs only on a reply |
| `TwoServers.ElectsCommitsAndReads` | raftverified/node.py:366-398 | a named run of two servers that elects a leader, commits an entry after six events and has served a read after nine |
| `HandlerLaws.NewerTermWins` | raftverified/node.py:355-364 | after any message a live server is in the newer of the two terms, and in a newer term it follows, with no read unconfirmed |
| `HandlerLaws.SenderIsLeader` | raftverified/node.py:579-590 | whoever sends entries, a snapshot or a read heartbeat in a term that is not older is taken for the leader |
| `HandlerLaws.VoteIsExact` | raftverified/node.py:549-566 | a vote is granted, recorded and answered if and only if the term is not older, no vote of it went to another, and the candidate's last entry is of a later term than the last of the voter's history, or of the same and not before it |
| `HandlerLaws.SendsUpdate` | raftverified/node.py:689-704 | a peer gets exactly the message that carries the history from its next index on, or the image of the compacted part |
| `HandlerLaws.HeartbeatIsExact` | raftverified/node.py:347-351 | a live leader's heartbeat sends every other voter that message, and nothing else changes |
| `HandlerLaws.RefusalBacksOff` | raftverified/node.py:645-648 | a refusal moves the peer's next index down by one, to no less than one, and sends the message that builds on the entry before it |
| `HandlerLaws.SuccessMovesForward` | raftverified/node.py:638-643 | a success never moves progress back, and moves it at least as far as reported |
| `HandlerLaws.InstallIsExact` | raftverified/node.py:667-685 | an installed image leaves image + the entries beyond it if the receiver's history reaches that far and has an entry of the image's last term there, and the image alone otherwise |
| `HandlerLaws.AgreeingTailSurvives` | raftverified/node.py:667-670 | so a receiver whose history begins with the image loses nothing |
| `HandlerLaws.SnapshotCatchesUp` | raftverified/node.py:689-704 | one message from a leader takes a peer behind its compaction point to the leader's compacted history and state |
| `HandlerLaws.ReadIsRegistered` | raftverified/node.py:500-514 | a read is accepted exactly from a live leader that has committed in its term, recorded at its commit index, and asked of every other voter |
| `HandlerLaws.ChangeIsExact` | raftverified/node.py:442-476 | a change is accepted exactly by a live leader under both guards, if it adds one server or removes one other than itself |
| `HandlerLaws.AppendIsAnswered` | raftverified/node.py:579-630 | entries are accepted exactly if their term is not older and they build on nothing or on an entry of the receiver's history with that term; the reply says so with the index they reach, a refusal changes no entry, and an acceptance leaves the merged history committed as far as announced and sent |
| `HandlerLaws.MergeIsExact` | raftverified/node.py:606-620 | of what is sent nothing that is there already with the same term changes; from the first entry that is not, what was there gives way |
| `HandlerLaws.SnapshotIsAnswered` | raftverified/node.py:652-685 | the acknowledgement of a snapshot carries its index, or the receiver's last one if that far is compacted already, and a refusal none |
| `HandlerLaws.ReadHeartbeatIsAnswered` | raftverified/node.py:516-522 | a round of confirmation is answered once, with a term that is then no older, and changes no log |
| `HandlerLaws.CrashKeepsPromises` | raftverified/node.py:285-326 | a crashed server handles nothing; restarted it has the same term, vote, history and configuration, and nothing it knew as a candidate or leader |
| `HandlerLaws.CompactsWhenDue` | raftverified/node.py:738-756 | committing further compacts everything committed, exactly if the threshold is positive and reached |
| `LeaderLaws.CampaignIsExact` | raftverified/node.py:336-385 | a timeout makes a live voter that does not lead ask every other voter for a vote in the next term with its own last entry, having voted for itself; it wins at once exactly if it is the only voter |
| `LeaderLaws.VotesAreCounted` | raftverified/node.py:387-414 | a granted vote of the term counts while the server is a candidate, and it leads exactly from the moment those counted are more than half of its own configuration, with every peer to be offered what follows its last entry |
| `LeaderLaws.CommandIsSent` | raftverified/node.py:418-440 | a new command is the next entry of the leader's history, held by the leader itself, and every other voter is sent its update |
| `LeaderLaws.CommitIsCounted` | raftverified/node.py:710-721 | after a success the commit index is the greatest that more than half of the leader's configuration is known to hold and whose entry is of its own term, or where it was |
| `LeaderLaws.AcksAreCounted` | raftverified/node.py:524-545 | an acknowledgement of the leader's term for a waiting read counts; the read is answered once, from the present state, exactly when those who acknowledged are more than half of the configuration and its index is applied |
| `Replication.DuplicateIsIdempotent` | raftverified/node.py:591-630 | handling the same AppendEntries twice leaves the whole server as after once, with compaction on too, as long as the entry it builds on is not below the compaction point, before or after the first delivery |
| `Replication.DuplicatesAreHarmless` | raftverified/node.py:591-630 | so without compaction a second delivery never changes a server that represents a history |
| `Replication.AcceptanceIsSound` | raftverified/node.py:606-630 | a success reply for match m means the first m entries are the term leader's, and no entry shared with that leader was removed |
| `CommitRule.ScanIsExact` | raftverified/node.py:710-721 | the downward scan with its early break finds the greatest index the commit rule allows, as terms do not decrease |
| `CommitRule.AdvanceIsExact` | raftverified/node.py:710-721 | advancing commits exactly up to that greatest index and nothing when there is none |
| `CommitRule.ReachableTermsSorted` | raftverified/node.py:714-716 | terms never decrease along a reachable log, which justifies the early break |
| `CommitRule.CommitQuorum` | raftverified/invariants.py:217-230 | a commit index nobody had reached is first shown by a leader, and in that very state a majority of its configuration holds the entries |
| `CommitRule.AnnouncedWasSeen` | raftverified/node.py:622-629 | a commit index announced in a message had been reached by some server before |
| `LogOrigins.LogOrigin` | raftverified/node.py:606-620 | a server's next log is its old one, its old one plus its own entry, or exactly a prefix of what some leader's log was when it sent the message |
| `Requests.IndexBounds` | raftverified/node.py:400-408 | the rebuilt request table bounds every request in the log |
| `Requests.IndexAttained` | raftverified/node.py:400-408 | and is attained by a request of the log, so it is the maximum |
| `Requests.RequestsIncrease` | raftverified/node.py:418-440 | in every reachable state every log holds each client's requests in strictly increasing order: no request is in a log twice |
| `Requests.AcceptedIsLogged` | raftverified/node.py:418-440 | a client is told "accepted" exactly by a live leader; the leader's log then holds the request or a later one of the client, and has grown exactly if it did not before |
| `LookupSafety.LookupsSucceedExactly` | raftverified/node.py:480-496 | while every configuration asked for so far names existing servers, the lookups the next event needs all succeed if and only if it is not an accepted change to an unknown server |
| `LookupSafety.AcceptedChangeCanBeSent` | raftverified/node.py:689-708 | a reachable leader that accepts a change can send it to every member if and only if the change names existing servers only |
| `LookupSafety.NoLookupFails` | raftverified/node.py:480-496 | in every run whose configurations name existing servers, no dictionary or list lookup of a handler fails |
| `TwoServers.UnknownVoterFails` | raftverified/node.py:442-476 | a reachable leader that accepts an unknown server into its configuration and then fails to look up its next index |
| `LookupSafety.Perform` | raftverified/node.py:480-496 | the server object performs exactly the event of the cluster model |
| `ReadSafety.NoNewerLeader` | raftverified/node.py:500-545 | acknowledgements of one term by a majority after the request rule out an earlier newer leader |
| `ReadSafety.OwnCommitIsLatest` | raftverified/node.py:718-720 | without a newer leader, a commit of the leader's own term is the latest of all |
| `ReadIndex.ReadsAreFresh` | raftverified/node.py:500-545 | a served read answers from an index at least as great as every commit index any server had reached when it was requested, with membership changes |
| `Recovery.RebuildAgrees` | raftverified/node.py:255-267 | rebuilding the configuration from what is stored changes neither the voters nor whether a change counts as in flight |
| `Recovery.RestartRecovers` | raftverified/node.py:300-324 | a crash falls back to the snapshot boundary and keeps log, history and voters |
| `Recovery.ReplayRestoresState` | raftverified/node.py:723-736 | re-learning the old commit index after a crash rebuilds exactly the lost state |
| `Recovery.CompactRecovers` | raftverified/node.py:738-758 | compaction changes neither the state, the commit index nor the voters, and the snapshot is the fold of the prefix it replaces |
| `Recovery.AbsorbRecovers` | raftverified/node.py:606-629 | after an accepted AppendEntries the state is the fold of the merged history up to the new commit index |
| `Recovery.InstallRecovers` | raftverified/node.py:667-685 | an installed image makes the state the image's fold; which tail is kept is stated in HandlerLaws.InstallIsExact |
| `Recovery.HandleRecovers` | raftverified/node.py:480-496 | every message at or above the compaction point keeps: state machine, applied labels, snapshot and voters are what the full history determines |
| `Recovery.LocalStepsRecover` | raftverified/node.py:285-324 | so do crashes, restarts, timers, client commands, configuration changes and reads |
| `SnapshotLimits.InstallKeepsCommit` | raftverified/node.py:667-683 | a snapshot never lowers the commit index exactly when it is outdated, covered, or reaches the commit index |
| `SnapshotLimits.NewHolder` | raftverified/node.py:606-620 | accepting the five entries makes a new server with threshold three one of the servers the following counterexamples start from |
| `SnapshotLimits.InstallMayForgetCommits` | raftverified/node.py:679 | a server that has compacted three and committed five entries, as its history says, is taken back to four by a delayed snapshot of four from a server of the same cluster |
| `SnapshotLimits.CoveredSnapshotAck` | raftverified/node.py:660-664 | the acknowledgement of a covered snapshot is true of every leader that agrees up to the snapshot if and only if the receiver holds nothing beyond it, and of every leader that has the receiver's commits if and only if it holds nothing uncommitted |
| `SnapshotLimits.CoveredSnapshotAckIsFalse` | raftverified/node.py:660-664 | a server that acknowledges five entries to a leader whose fourth differs from its own |
| `EarlyMessages.EarlyMessage` | raftverified/node.py:606-620 | entries of a leader from below the receiver's compaction point: after the whole message its log is that of the longer history if and only if there was nothing to append, the first entry has the base term, or the message covers the base and all that was held; and it represents that history if and only if the configuration in force is right too, which is a condition on the same entries |
| `EarlyMessages.BuildsOnBaseTerm` | raftverified/node.py:591-604 | only a message that starts with the first entry can do harm: any other early one is refused or has the base term from its first entry on |
| `EarlyMessages.EarlyMessageHandled` | raftverified/node.py:579-630 | a server that handles an early message represents its old history or the longer one, unless the message starts with the first entry and is harmful |
| `EarlyMessages.EarlyMessageCutsCommitted` | raftverified/node.py:606-612 | a server that has compacted three of five committed entries gets a duplicate with the first two and is left with one entry, below its commit index |
| `EarlyMessages.EarlyMessageRevivesConfig` | raftverified/node.py:606-620 | a message that covers everything leaves the right log and a configuration that had been replaced before the compaction point |
| `EarlyMessages.ConfigsCompacted` | raftverified/node.py:738-758 | such a server exists: it accepted, committed and compacted the addition and the removal of a server |
| `LogVersions.VersionGrows` | raftverified/node.py:606-620 | in every step, with compaction and snapshots, log_version never goes back and grows whenever the log or compaction point changes |
| `LogVersions.HandleKeepsCommit` | raftverified/node.py:622-630 | whatever the message and with compaction on, only a snapshot can lower the commit index |
| `AppendSteps.AppendStep` | raftverified/node.py:606-620 | above the compaction point, one turn of the append loop on top of the merge with a prefix of the entries is the merge with one entry more |
| `AppendSteps.LoopIsMerged` | raftverified/node.py:606-620 | so above the compaction point the loop, turn by turn, is a merge: matching entries stay, the first conflict and what follows are replaced, and the configuration and the version go with the log |
| `Soundness.HandleKeepsBounded` | raftverified/node.py:480-496 | no message, whatever it contains, breaks the bounds of the compacted log that every method relies on |
| `Soundness.LocalStepsKeepBounded` | raftverified/node.py:285-324 | nor does a crash, restart, timer, command, configuration change or read |
| `Soundness.HandleKeepsSound` | raftverified/node.py:480-496 | nor does a message break the tracked configuration fields, unless it repeats a configuration entry from below the compaction point |
| `Soundness.LocalStepsKeepSound` | raftverified/node.py:285-324 | nor does any other step |
| `RaftNode.RaftNode.constructor` | raftverified/node.py:147-216 | a new server is in the initial state |
| `RaftNode.RaftNode.RebuildConfig` | raftverified/node.py:255-267 | the latest live configuration entry governs, else the snapshot's, else the initial one |
| `RaftNode.RaftNode.ConfigAt` | raftverified/node.py:269-278 | the configuration in force at an index |
| `RaftNode.RaftNode.Pause` | raftverified/node.py:285-324 | the new state is exactly the crash step of the old one |
| `RaftNode.RaftNode.Resume` | raftverified/node.py:293-298 | the new state is exactly the restart step |
| `RaftNode.RaftNode.BecomeFollower` | raftverified/node.py:355-364 | steps down; the vote is forgotten only in a new term |
| `RaftNode.RaftNode.OnElectionTimeout` | raftverified/node.py:336-340 | a live non-leader starts an election, anyone else does nothing |
| `RaftNode.RaftNode.OnHeartbeat` | raftverified/node.py:347-351 | a live leader sends to every other voter |
| `RaftNode.RaftNode.StartElection` | raftverified/node.py:366-385 | campaigns only inside its own configuration, votes for itself, solicits, and may win at once |
| `RaftNode.RaftNode.MaybeWin` | raftverified/node.py:410-414 | wins exactly with a majority of its own configuration |
| `RaftNode.RaftNode.BecomeLeader` | raftverified/node.py:387-398 | resets the followers' progress and rebuilds the request table |
| `RaftNode.RaftNode.RebuildClientIndex` | raftverified/node.py:400-408 | the loop computes the specified table |
| `RaftNode.RaftNode.ClientCommand` | raftverified/node.py:418-440 | appends unless the log already holds the request, and broadcasts |
| `RaftNode.RaftNode.ChangeConfig` | raftverified/node.py:442-476 | accepts exactly a single-server change that keeps the leader, under both guards |
| `RaftNode.RaftNode.Handle` | raftverified/node.py:480-496 | dispatch: the new state is exactly the handler's step of the old one, for every message, early ones included |
| `RaftNode.RaftNode.RequestRead` | raftverified/node.py:500-514 | registers the read at the commit index and pings the other voters |
| `RaftNode.RaftNode.OnReadHeartbeat` | raftverified/node.py:516-522 | answers with its term |
| `RaftNode.RaftNode.OnReadAck` | raftverified/node.py:524-532 | counts an acknowledgement of its own term |
| `RaftNode.RaftNode.TryServeRead` | raftverified/node.py:534-545 | serves once a majority of the configuration confirmed and the index is applied |
| `RaftNode.RaftNode.OnRequestVote` | raftverified/node.py:549-566 | grants at most one vote a term, only to a candidate with an up-to-date log |
| `RaftNode.RaftNode.OnVoteReply` | raftverified/node.py:568-575 | counts a granted vote of its own term |
| `RaftNode.RaftNode.CheckConsistency` | raftverified/node.py:591-604 | refuses exactly a message whose preceding entry this log lacks |
| `RaftNode.RaftNode.AppendAll` | raftverified/node.py:606-620 | the in-place truncate-and-append loop does exactly the specified turns, negative slice offsets included |
| `RaftNode.RaftNode.OnAppendEntries` | raftverified/node.py:579-630 | the new state is exactly the AppendEntries step |
| `RaftNode.RaftNode.OnAppendReply` | raftverified/node.py:632-648 | progress only moves forward on success and backs off by one on failure |
| `RaftNode.RaftNode.FindCommitPoint` | raftverified/node.py:714-721 | the loop finds what the specified scan finds |
| `RaftNode.RaftNode.AdvanceCommit` | raftverified/node.py:710-721 | commits up to that point and marks the term as committed |
| `RaftNode.RaftNode.SetCommitIndex` | raftverified/node.py:723-736 | the apply loop folds the new entries into the state machine, reports every result in order, and compacts |
| `RaftNode.RaftNode.MaybeCompact` | raftverified/node.py:738-758 | compacts exactly when the threshold is reached |
| `RaftNode.RaftNode.OnInstallSnapshot` | raftverified/node.py:652-685 | the new state is exactly the InstallSnapshot step |
| `RaftNode.RaftNode.Install` | raftverified/node.py:667-683 | replaces the prefix by the image, keeping a consistent tail |
| `RaftNode.RaftNode.SendAppendEntries` | raftverified/node.py:689-704 | sends the log tail, or the snapshot to a peer behind the compaction point |
| `RaftNode.RaftNode.BroadcastHeartbeats` | raftverified/node.py:706-708 | the loop sends to every other voter and changes nothing else |
| `KvMachine.KVStateMachine.IsDuplicate` | raftverified/kv.py:92-95 | a request is a duplicate exactly when its client's last id is at least as great |
| `KvMachine.KVStateMachine.Apply` | raftverified/kv.py:97-105 | new state and result are those of the specified step |
| `KvMachine.KVStateMachine.Execute` | raftverified/kv.py:114-125 | put, get and compare-and-set |
| `KvMachine.KVStateMachine.ApplyRead` | raftverified/kv.py:107-112 | a read answers from the store without touching it |
| `KvMachine.KVStateMachine.Capture` | raftverified/kv.py:131-133 | the whole replicated state |
| `KvMachine.KVStateMachine.Restore` | raftverified/kv.py:135-138 | the state becomes the image |
| `Meaning.StateMachineMeaning` | raftverified/kv.py:97-125 | whatever commands the log holds, of those that take effect a put answers "ok", a get the value of the latest put or successful cas of its key and the empty string before the first, and a cas "ok" exactly when that value is the expected one, else "fail"; a read served without an entry sees the same value |
| `Meaning.HistoryMeaning` | raftverified/kv.py:97-125 | and so for the state that a history of log entries determines |
| `Meaning.OthersChangeNothing` | raftverified/kv.py:97-105 | a command that takes no effect changes nothing and answers "" unless it is a request |
| `Sessions.SessionsAreExact` | raftverified/kv.py:92-105 | after any command sequence a session holds exactly its client's latest effective request and the result it had then |
| `Sessions.ExactlyOnce` | raftverified/kv.py:97-125 | for every command sequence the store equals the one from executing, without sessions, only the commands newer than all earlier ones of their client |
| `Sessions.RetryReturnsLatest` | raftverified/kv.py:97-105 | a retry of any request up to the client's latest changes nothing and returns the original result of the latest |
| `Sessions.OldRetryLosesItsResult` | raftverified/kv.py:100-102 | a concrete retry of an older request that does not get its own result back |
| `Codec.RoundTrip` | raftverified/kv.py:49-69 | decode(encode(c)) == c for exactly put, get and cas with separator-free fields and any integer ids, and the no-op |
| `Codec.DecodeEncode` | raftverified/kv.py:49-69 | encode(decode(s)) == s exactly when the identifiers are spelled canonically |
| `Codec.DecodeIsStable` | raftverified/kv.py:57-69 | what was decoded encodes to a string that decodes to the same |
| `Codec.ConfigRoundTrip` | raftverified/node.py:43-55 | a configuration reads back as its sorted voters, the empty one as none |
| `Codec.ConfigIsCanonical` | raftverified/node.py:43-45 | two encodings are equal exactly when the voters are the same multiset |
| `Codec.ConfigIsNoop` | raftverified/node.py:36-45 | every string with the configuration prefix decodes to a state-machine no-op |
| `Codec.CommandIsNoConfig` | raftverified/node.py:48-55 | no encoded command is a configuration |
| `Codec.SpellingIsUnambiguous` | raftverified/kv.py:57-69 | a string the program writes stands for one command of the protocol model |
| `Codec.SpellingIsCanonical` | raftverified/kv.py:49-54 | and a command is written as one string, so comparing model entries compares strings |
| `Codec.CommandIsWritten` | raftverified/kv.py:49-54 | a command is its six fields in order between colons |
| `Codec.NumbersAreWritten` | raftverified/kv.py:49-54 | identifiers are written in decimal with a sign only if negative, here on four of them |
| `Codec.ConfigIsWritten` | raftverified/node.py:43-45 | a configuration is its voters in ascending order between commas, after the prefix |
| `ClientDriver.ClientDriver.Invoke` | raftverified/cluster.py:239-249 | appends a row and marks it pending |
| `ClientDriver.ClientDriver.OnApply` | raftverified/cluster.py:251-267 | the first application completes the row and lets the client move on |
| `ClientDriver.ClientDriver.Choose` | raftverified/cluster.py:210-224 | retries the outstanding operation or invokes the next one |
| `ClientDriver.ClientDriver.ClientTick` | raftverified/cluster.py:195-235 | the history, the bookkeeping and the chosen server all move as specified, reports included |
| `ClientDriver.ReadsStayOutOfTheLog` | raftverified/cluster.py:222-234 | with ReadIndex a get never enters the log; any other operation given to a live leader does, unless its table has the request |
| `Clients.OnApplyCompletes` | raftverified/cluster.py:251-267 | an application changes no other row and never a completed one, and keeps the driver's invariant |
| `ClientTurns.ClientsTakeTurns` | raftverified/cluster.py:195-267 | at every moment of every driven run each client's operations are numbered 0, 1, 2 and so on in the order of their rows, one is invoked only after the one before it has returned, and the outstanding one is the one open row |
| `ClientLinearizability.ClientHistoriesLinearizable` | raftverified/cluster.py:239-267 | in every run, with gets through the log or through ReadIndex, the recorded history of completed operations is linearizable at every moment |
| `ClientRun.ClientCompletes` | raftverified/cluster.py:195-267 | a named run of two servers driven by a client whose put goes through the log and whose get goes through ReadIndex: both complete, and the get sees the put |
| `Placement.PlacedLinearizes` | raftverified/linearizability.py:49-64 | operations placed by their log index (reads by theirs) answer as the sequential reference does in that order |
| `Workload.WorkloadIsNext` | raftverified/cluster.py:50-60 | an idle client submits a structured command with its own id and next request number |
| `Workload.WorkloadRoundTrips` | raftverified/cluster.py:214-216 | what the driver submits reads back as the command |
| `Workload.ClientsNeverContend` | raftverified/cluster.py:38-47 | two requests use the same key exactly when their clients are equal modulo three: contrary to the comment, the clients never contend |
| `Workload.KindsGoRound` | raftverified/cluster.py:50-61 | each client goes round: a get is followed by two puts and a cas, and then the next get |
| `Workload.WritesNeverRepeat` | raftverified/cluster.py:50-61 | no two requests would write the same value |
| `Workload.CasNeverSucceeds` | raftverified/cluster.py:50-60 | in every run driven by this workload every completed cas has failed |
| `Membership.LeadersAreMembers` | raftverified/node.py:452-456 | in every reachable state a candidate or leader belongs to its own configuration |
| `Membership.LowestMissing` | raftverified/cluster.py:316-319 | the server added back is the lowest one missing |
| `Membership.RemovalsRotate` | raftverified/cluster.py:320-329 | the server removed is the next in rotation that is not the leader, and the rotation moves past it once the removal is accepted |
| `Membership.AdditionsComeFirst` | raftverified/cluster.py:316-321 | while servers are missing the least of them is added and the rotation waits |
| `Membership.ProposalIsSingleChange` | raftverified/cluster.py:307-326 | a proposal of the driver differs by exactly one server and keeps the leader |
| `Membership.ProposalsAwaitCommitsOnly` | raftverified/cluster.py:307-329 | a live leader accepts the driver's proposal exactly when its last change and an entry of its own term are committed |
| `Membership.TickStartsChanges` | raftverified/cluster.py:315-328 | however many servers believe they lead, a tick makes each one whose last change and an entry of whose term are committed start exactly one single-server change, and changes nothing else |
| `Membership.OffersCanBeSent` | raftverified/cluster.py:314-328 | in every run whose configurations name existing servers, whatever the driver offers can be sent to everyone it names |
| `Membership.MembershipDriver.Propose` | raftverified/cluster.py:316-328 | one leader is offered a change, and the rotation counter moves as specified |
| `Membership.MembershipDriver.MembershipTick` | raftverified/cluster.py:307-329 | the loop offers a change to every server that believes it leads, in order, each judged by its own configuration |
| `Meaning.LegalMeaning` | raftverified/linearizability.py:49-64 | an order of operations is legal for the sequential reference exactly when each saw the latest write before it |
| `Linearizability.CompletedExactly` | raftverified/linearizability.py:80 | exactly the rows that returned are checked, each as often as recorded |
| `Oracle.SortedByKey` | raftverified/linearizability.py:81-84 | in the order of invocation, return, client and request |
| `Linearizability.SolvableIsLinearizable` | raftverified/linearizability.py:9-19 | placing minimal operations one after another succeeds exactly when a linearization exists |
| `Oracle.Minimal` | raftverified/linearizability.py:92-109 | the scan with the two smallest return steps finds exactly the operations that may be next, each once |
| `Oracle.Search` | raftverified/linearizability.py:111-155 | the memoised depth-first search ends; a positive verdict carries a linearization; a negative one means none exists, and its frontier is not empty and lists, in order, the first operations that a longest legal order leaves unplaced, up to eight; giving up means more than the budget of distinct reachable states |
| `Oracle.Check` | raftverified/linearizability.py:67-155 | exact on all completed operations when unbounded, and on the kept prefix otherwise, frontier included |
| `Signatures.FailureSignature` | raftverified/shrink.py:100-108 | a run of the protocol passes checker and oracle: the only signature it can get is that of an oracle that gave up after more than its budget of distinct states, which counts as not linearizable |
| `OracleBound.BoundedCheckIsSound` | raftverified/linearizability.py:75-77 | a stuck prefix condemns the whole history, whatever the operations are, exactly when every kept operation returned before any dropped one was invoked |
| `OracleBound.BoundedVerdict` | raftverified/linearizability.py:80-84 | so a bounded negative verdict across such a cut is sound for the whole history |
| `InvariantChecker.ScanPair` | raftverified/invariants.py:175-187 | the scan passes a pair exactly when equal terms at a shared live index imply equal entries below it |
| `InvariantChecker.ScanLeader` | raftverified/invariants.py:150-157 | passes exactly a log that extends the snapshot on their overlap |
| `InvariantChecker.ScanCommitted` | raftverified/invariants.py:247-256 | passes exactly a leader that holds every commit of its own or an earlier term |
| `InvariantChecker.InvariantChecker.HandleRestarts` | raftverified/invariants.py:103-115 | rebases exactly the servers whose incarnation changed |
| `InvariantChecker.InvariantChecker.CheckElectionSafety` | raftverified/invariants.py:119-128 | passes exactly when no term shows a second leader |
| `InvariantChecker.InvariantChecker.CheckLeaderAppendOnly` | raftverified/invariants.py:132-161 | passes exactly when each continuing leader extends its last observed log, although equal versions are skipped |
| `InvariantChecker.InvariantChecker.CheckLogMatching` | raftverified/invariants.py:165-188 | passes exactly when all pairs match, although pairs seen at the same versions are skipped |
| `InvariantChecker.InvariantChecker.ObserveCommits` | raftverified/invariants.py:199-232 | passes exactly when no commit index regresses, new commits agree, and each first-seen one has its quorum |
| `InvariantChecker.InvariantChecker.CheckLeaderCompleteness` | raftverified/invariants.py:236-257 | passes exactly when every leader holds the commits of its own and earlier terms, although unchanged leaders are skipped |
| `InvariantChecker.InvariantChecker.CheckStateMachineSafety` | raftverified/invariants.py:261-275 | passes exactly when newly applied commands agree with the known ones and each other |
| `InvariantChecker.InvariantChecker.Check` | raftverified/invariants.py:89-99 | passes exactly what the uncached specification accepts, given that versions tell when a log changed; the bookkeeping is the specified one |
| `Recordings.PassesExactly` | raftverified/invariants.py:89-99 | after sound observations the next passes exactly if it is sound: one leader a term so far, leaders that keep their logs, matching logs, commit indices that do not regress within a life, agreement with every entry ever shown committed, a quorum at the first sight of a commit index, leaders that have every entry first shown committed in a term up to theirs, and one command applied at an index; no book is mentioned |
| `Recordings.Judge` | raftverified/invariants.py:89-99 | the checker object, shown a whole recording, passes it exactly if every observation in it is sound |
| `CheckerRuns.ObservationsFollow` | raftverified/invariants.py:10-14 | in every run the versions do tell when a log changed |
| `CheckerRuns.CheckerNeverRaises` | raftverified/invariants.py:89-99 | looking at every state of any run, all seven checks pass |
| `CheckerRuns.Watch` | raftverified/cluster.py:433-444 | the checker object, shown every state of a run in turn, passes them all |
| `CheckerRuns.RunsAreSound` | raftverified/invariants.py:1-15 | told by the observations alone, every observation of every run is sound |
| `CheckerRuns.ViewIsExact` | raftverified/invariants.py:24-47 | what the checker is shown of a server is its history above the compaction point, the commands it has applied of it, and the configuration that history names |
| `Shrink.Ddmin` | raftverified/shrink.py:70-91 | for every deterministic predicate the result is a sublist from which no single element can be removed; it reproduces if the whole list does or anything was removed, and nothing is removed exactly when nothing tried on the whole list reproduces |
| `Shrink.MinSteps` | raftverified/shrink.py:132-141 | a reproducing budget, the least one if reproduction is monotone |
| `Shrink.Reduce` | raftverified/shrink.py:144-178 | the composition: with the original step budget no single further fault can be suppressed, and the run fails the same way if and only if the run without suppression, the one without faults or one of the first ranges tried does, which no start without a mask can miss; with the reduced budget too, if a failure lasts |
| `Shrink.LosesTheMask` | raftverified/shrink.py:155-163 | a failing run with a mask that is reduced to one that does not fail |

## Left out

- InstallSnapshot and compaction in the theorems over runs: they are proved with the threshold at 0, the default. With compaction on, an AppendEntries that starts with the first entry skips the consistency check and may cut at a negative offset, an installed snapshot may lower the commit index, and a covered one acknowledges a tail the leader may not have; `EarlyMessages` and `SnapshotLimits` state exactly when, each with an input for which it happens.
- EarlyMessages.EarlyMessageHandled: one direction only for the whole handler, because a compaction in the same call can hide a wrong configuration index again; the loop has both (`EarlyMessages.EarlyMessage`).
- Soundness.HandleKeepsSound: one direction only; a repeated old configuration may be overwritten by a later entry of the same message, and exactly when is part of `EarlyMessages.EarlyMessage`.
- Recovery.HandleRecovers: entries from below the compaction point are the subject of `EarlyMessages` instead.
- Injectable bug flags: the model is the program with all of them off.
- Timers, the random generator, the virtual clock, fault profiles and the event queue: timers fire whenever they like, faults are the choice of which messages are delivered, and the step of the simulator is the position in the run.
- Several handler calls within one simulator step (one membership tick may offer a change to two believed leaders): the runs observe the cluster after every single event; `Membership.MembershipDriver.MembershipTick` has the tick as one call.
- Liveness under a fair schedule: `Availability` says that the cluster can always go on, not that it will.
- Availability.StaysAvailable: asks for a server that belongs to its own configuration and is as recent as a majority of it; that there always is one is proved for runs without configuration changes only (`Availability.AlwaysAvailable`).
- Which violation is raised, and its message: the checker and its specification decide whether an observation passes.
- A recorded history switched off (`record_history=False`), and the statistics and trace records of the driver.
- Client commands that begin with `cfg:`: client commands of the model are never configurations.
- Unknown operation names in hand-made history rows, apart from their answer "" in the sequential reference.
- int() of digits and white space outside ASCII, and the interpreter's limit on the length of an integer's text.
- The order in which a server sends to its peers: what it sent is a set.
- Command line, reports, timeline, trace digests, and nemesis schedules: text, input and output, or plain data validation.
- RaftNode.RaftNode.SetCommitIndex: the callback runs after the loop as one list of reports instead of inside it; nothing it calls reads the server.
- Shrink.Reduce: a run is a predicate on suppressed faults and step budget; fault events and summaries of the counterexample are not part of it.
