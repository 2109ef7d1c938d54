/** What the per-step invariant checker decides, without its caches: the bookkeeping it carries from one
    observation to the next, and the conditions under which it passes an observation
    (raftverified/invariants.py). */
module CheckerSpec {
  import opened Types

  /** The read-only interface of a server that the checker sees (`NodeView`). */
  datatype NodeView = NodeView(
    id: NodeId, leader: bool, term: nat, log: seq<Entry>, commit: nat, applied: seq<Command>,
    version: nat, incarnation: nat, base: nat, voters: set<NodeId>)

  type Views = map<NodeId, NodeView>

  datatype Witnessed = Witnessed(entry: Entry, term: nat)

  datatype Book = Book(
    leaders: map<nat, NodeId>, committed: map<nat, Witnessed>, appliedAt: map<nat, Command>, maxCommit: nat,
    prevCommit: map<NodeId, nat>, appliedSeen: map<NodeId, nat>, incarnation: map<NodeId, nat>)

  const BLANK := Book(map[], map[], map[], 0, map[], map[], map[])

  function Top(v: NodeView): nat { v.base + |v.log| }
  function AppliedTop(v: NodeView): nat { v.base + |v.applied| }

  predicate Live(v: NodeView, index: nat) { v.base < index <= Top(v) }

  function EntryAt(v: NodeView, index: nat): Entry
    requires Live(v, index)
  {
    v.log[index - v.base - 1]
  }

  /** The servers in ascending order; each commits only what its log holds. */
  predicate Listed(ids: seq<NodeId>, nodes: Views) {
    && (forall a, b | 0 <= a < b < |ids| :: ids[a] < ids[b])
    && (forall i | i in ids :: i in nodes) && (forall i | i in nodes :: i in ids)
    && forall i | i in nodes :: nodes[i].id == i && nodes[i].commit <= Top(nodes[i])
  }

  function Recall(m: map<NodeId, nat>, i: NodeId): nat { if i in m then m[i] else 0 }

  // ---- crash rebasing ----

  predicate Restarted(b: Book, v: NodeView) {
    v.id in b.incarnation && b.incarnation[v.id] != v.incarnation
  }

  /** A restart legitimately resets the commit index and the applied progress. */
  function PrevCommit(b: Book, v: NodeView): nat {
    if Restarted(b, v) then v.commit else Recall(b.prevCommit, v.id)
  }

  function AppliedSeen(b: Book, v: NodeView): nat {
    if Restarted(b, v) then AppliedTop(v) else Recall(b.appliedSeen, v.id)
  }

  function Rebase(b: Book, v: NodeView): Book {
    var b1 := b.(incarnation := b.incarnation[v.id := v.incarnation]);
    if Restarted(b, v) then
      b1.(prevCommit := b.prevCommit[v.id := v.commit], appliedSeen := b.appliedSeen[v.id := AppliedTop(v)])
    else b1
  }

  function RebaseAll(b: Book, nodes: Views, ids: seq<NodeId>): Book
    requires forall i | i in ids :: i in nodes
  {
    if ids == [] then b else Rebase(RebaseAll(b, nodes, ids[..|ids| - 1]), nodes[ids[|ids| - 1]])
  }

  // ---- Election Safety ----

  function NoteLeader(leaders: map<nat, NodeId>, v: NodeView): map<nat, NodeId> {
    if v.leader && v.term !in leaders then leaders[v.term := v.id] else leaders
  }

  function Leaders(leaders: map<nat, NodeId>, nodes: Views, ids: seq<NodeId>): map<nat, NodeId>
    requires forall i | i in ids :: i in nodes
  {
    if ids == [] then leaders else NoteLeader(Leaders(leaders, nodes, ids[..|ids| - 1]), nodes[ids[|ids| - 1]])
  }

  /** No term has a leader other than the first one ever seen in it. */
  predicate OneLeaderPerTerm(leaders: map<nat, NodeId>, nodes: Views) {
    && (forall i | i in nodes && nodes[i].leader && nodes[i].term in leaders :: leaders[nodes[i].term] == nodes[i].id)
    && forall i, j | i in nodes && j in nodes && nodes[i].leader && nodes[j].leader && nodes[i].term == nodes[j].term :: nodes[i].id == nodes[j].id
  }

  // ---- Leader Append-Only ----

  /** The log may grow at the top and be compacted at the bottom, but keeps what it shares with before. */
  predicate Extends(base: nat, log: seq<Entry>, now: NodeView) {
    && base + |log| <= Top(now)
    && forall index: nat | Largest(base, now.base) < index <= base + |log| :: log[index - base - 1] == EntryAt(now, index)
  }

  predicate KeepsLog(last: Views, v: NodeView) {
    v.leader && v.id in last && last[v.id].leader && last[v.id].term == v.term ==> Extends(last[v.id].base, last[v.id].log, v)
  }

  predicate AppendOnly(last: Views, nodes: Views) {
    forall i | i in nodes :: KeepsLog(last, nodes[i])
  }

  // ---- Log Matching ----

  predicate Shared(a: NodeView, b: NodeView, index: nat) { Live(a, index) && Live(b, index) }

  /** Entries of the same term at a shared index make the two logs equal below it. */
  ghost predicate Matching(a: NodeView, b: NodeView) {
    forall index: nat, below: nat | Shared(a, b, index) && Shared(a, b, below) && below <= index && EntryAt(a, index).term == EntryAt(b, index).term ::
      EntryAt(a, below) == EntryAt(b, below)
  }

  ghost predicate AllMatching(nodes: Views) {
    forall i, j | i in nodes && j in nodes && i < j :: Matching(nodes[i], nodes[j])
  }

  // ---- commits ----

  /** The indices this observation of v adds to what is known to be committed. */
  predicate NewlyCommitted(v: NodeView, prev: nat, index: nat) { Largest(prev, v.base) < index <= v.commit }

  /** The known commits once v's indices from lo + 1 to hi have been looked at. */
  function CommitUp(committed: map<nat, Witnessed>, v: NodeView, lo: nat, hi: nat): map<nat, Witnessed>
    requires v.base <= lo && hi <= Top(v)
    decreases hi
  {
    if hi <= lo then committed
    else
      var below := CommitUp(committed, v, lo, hi - 1);
      if hi in below then below else below[hi := Witnessed(EntryAt(v, hi), v.term)]
  }

  function Committed(b: Book, nodes: Views, ids: seq<NodeId>): map<nat, Witnessed>
    requires forall i | i in ids :: i in nodes && nodes[i].commit <= Top(nodes[i])
  {
    if ids == [] then b.committed
    else
      var v := nodes[ids[|ids| - 1]];
      CommitUp(Committed(b, nodes, ids[..|ids| - 1]), v, Largest(PrevCommit(b, v), v.base), v.commit)
  }

  function MaxCommit(b: Book, nodes: Views, ids: seq<NodeId>): nat
    requires forall i | i in ids :: i in nodes
  {
    if ids == [] then b.maxCommit else Largest(MaxCommit(b, nodes, ids[..|ids| - 1]), nodes[ids[|ids| - 1]].commit)
  }

  /** Live in the log, or folded into the snapshot. */
  predicate Holds(v: NodeView, index: nat, entry: Entry) {
    index <= v.base || (index <= Top(v) && EntryAt(v, index) == entry)
  }

  function Holders(nodes: Views, voters: set<NodeId>, index: nat, entry: Entry): set<NodeId> {
    set i | i in voters && i in nodes && Holds(nodes[i], index, entry)
  }

  predicate HeldByMajority(nodes: Views, v: NodeView, index: nat, entry: Entry) {
    |Holders(nodes, v.voters, index, entry)| * 2 > |v.voters|
  }

  predicate Monotone(b: Book, nodes: Views) {
    forall i | i in nodes :: PrevCommit(b, nodes[i]) <= nodes[i].commit
  }

  predicate NewIn(b: Book, nodes: Views, i: NodeId, index: nat)
    requires i in nodes
  {
    NewlyCommitted(nodes[i], PrevCommit(b, nodes[i]), index)
  }

  /** New commits agree with the known ones and with each other. */
  ghost predicate CommitsAgree(b: Book, nodes: Views)
    requires forall i | i in nodes :: nodes[i].commit <= Top(nodes[i])
  {
    && (forall i, index: nat | i in nodes && NewIn(b, nodes, i, index) && index in b.committed :: b.committed[index].entry == EntryAt(nodes[i], index))
    && forall i, j, index: nat | i in nodes && j in nodes && NewIn(b, nodes, i, index) && NewIn(b, nodes, j, index) ::
         EntryAt(nodes[i], index) == EntryAt(nodes[j], index)
  }

  /** i is the first, in ascending order, to show this index committed anywhere. */
  predicate FirstToCommit(b: Book, nodes: Views, i: NodeId, index: nat)
    requires i in nodes
  {
    NewIn(b, nodes, i, index) && index > b.maxCommit && forall j | j in nodes && j < i :: nodes[j].commit < index
  }

  /** A commit index seen for the first time is held by a majority of the committing server's configuration. */
  ghost predicate Quorums(b: Book, nodes: Views)
    requires forall i | i in nodes :: nodes[i].commit <= Top(nodes[i])
  {
    forall i, index: nat | i in nodes && FirstToCommit(b, nodes, i, index) :: HeldByMajority(nodes, nodes[i], index, EntryAt(nodes[i], index))
  }

  // ---- Leader Completeness ----

  predicate HasAll(term: nat, v: NodeView, committed: map<nat, Witnessed>) {
    forall index | index in committed && committed[index].term <= term :: Holds(v, index, committed[index].entry)
  }

  predicate LeadersComplete(committed: map<nat, Witnessed>, nodes: Views) {
    forall i | i in nodes && nodes[i].leader :: HasAll(nodes[i].term, nodes[i], committed)
  }

  // ---- State Machine Safety ----

  predicate NewlyApplied(v: NodeView, seen: nat, index: nat) { Largest(seen, v.base) < index <= AppliedTop(v) }

  function AppliedCommand(v: NodeView, index: nat): Command
    requires v.base < index <= AppliedTop(v)
  {
    v.applied[index - v.base - 1]
  }

  function ApplyUp(appliedAt: map<nat, Command>, v: NodeView, lo: nat, hi: nat): map<nat, Command>
    requires v.base <= lo && hi <= AppliedTop(v)
    decreases hi
  {
    if hi <= lo then appliedAt
    else
      var below := ApplyUp(appliedAt, v, lo, hi - 1);
      if hi in below then below else below[hi := AppliedCommand(v, hi)]
  }

  function AppliedAt(b: Book, nodes: Views, ids: seq<NodeId>): map<nat, Command>
    requires forall i | i in ids :: i in nodes
  {
    if ids == [] then b.appliedAt
    else
      var v := nodes[ids[|ids| - 1]];
      ApplyUp(AppliedAt(b, nodes, ids[..|ids| - 1]), v, Largest(AppliedSeen(b, v), v.base), AppliedTop(v))
  }

  predicate ApplyIn(b: Book, nodes: Views, i: NodeId, index: nat)
    requires i in nodes
  {
    NewlyApplied(nodes[i], AppliedSeen(b, nodes[i]), index)
  }

  ghost predicate AppliesAgree(b: Book, nodes: Views) {
    && (forall i, index: nat | i in nodes && ApplyIn(b, nodes, i, index) && index in b.appliedAt :: b.appliedAt[index] == AppliedCommand(nodes[i], index))
    && forall i, j, index: nat | i in nodes && j in nodes && ApplyIn(b, nodes, i, index) && ApplyIn(b, nodes, j, index) ::
         AppliedCommand(nodes[i], index) == AppliedCommand(nodes[j], index)
  }

  // ---- the whole check ----

  /** `last` holds each server as it was last observed. */
  ghost predicate Accepts(b: Book, last: Views, nodes: Views, ids: seq<NodeId>)
    requires Listed(ids, nodes)
  {
    && OneLeaderPerTerm(b.leaders, nodes)
    && AppendOnly(last, nodes)
    && AllMatching(nodes)
    && Monotone(b, nodes) && CommitsAgree(b, nodes) && Quorums(b, nodes)
    && LeadersComplete(Committed(b, nodes, ids), nodes)
    && AppliesAgree(b, nodes)
  }

  /** The bookkeeping after an observation that passed. */
  function Noted(b: Book, nodes: Views, ids: seq<NodeId>): Book
    requires Listed(ids, nodes)
  {
    Book(Leaders(b.leaders, nodes, ids), Committed(b, nodes, ids), AppliedAt(b, nodes, ids), MaxCommit(b, nodes, ids),
         b.prevCommit + CommitsOf(nodes), b.appliedSeen + ProgressOf(b, nodes), b.incarnation + IncarnationsOf(nodes))
  }

  function CommitsOf(nodes: Views): map<NodeId, nat> { map i | i in nodes :: nodes[i].commit }
  function IncarnationsOf(nodes: Views): map<NodeId, nat> { map i | i in nodes :: nodes[i].incarnation }
  function ProgressOf(b: Book, nodes: Views): map<NodeId, nat> {
    map i | i in nodes :: Largest(AppliedSeen(b, nodes[i]), AppliedTop(nodes[i]))
  }

  /** The version counter tells whether the log or the compaction point changed. */
  predicate Follows(before: NodeView, now: NodeView) {
    && before.version <= now.version
    && (before.version == now.version ==> before.log == now.log && before.base == now.base)
  }

  predicate VersionsTell(last: Views, nodes: Views) {
    forall i | i in nodes && i in last :: Follows(last[i], nodes[i])
  }
}
