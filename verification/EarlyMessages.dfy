/** AppendEntries that reach below the receiver's compaction point (raftverified/node.py, the append loop of
    `_on_append_entries`). The receiver no longer knows the terms of compacted entries, and takes the base term for
    all of them. Exactly when its log is still right after the whole message, and what becomes of the rest of its
    state. Without compaction none of this occurs (ClusterSafety.AlwaysAboveBase). */
module EarlyMessages {
  import opened Types
  import opened Logs
  import opened Replicas
  import opened NodeSpec
  import opened AppendSteps
  import opened Recovery
  import opened SnapshotLimits

  predicate TermsRise(log: Log) {
    forall i, j | 0 <= i < j < |log| :: log[i].term <= log[j].term
  }

  // ---- the log, one turn at a time ----

  lemma TurnLog(r: Replica, index: nat, e: Entry)
    ensures AppendOne(r, index, e).log
            == if LastIndex(r) < index then r.log + [e]
               else if TermAt(r, index) == e.term then r.log
               else CutAtOffset(r.log, index - r.base - 1) + [e]
  {
    hide ConfigOf, LatestConfig, CutAtOffset;
  }

  /** The receiver has compacted the first `base` entries of w and holds the others up to n. */
  predicate Compacted(w: Log, base: nat, baseTerm: nat, n: nat) {
    0 < base <= n <= |w| && TermsRise(w) && baseTerm == w[base - 1].term
  }

  /** How many live entries a message that went astray leaves in place: every entry from below the base that is not
      of the base's term cuts at a negative offset, and itself takes the place of what it cut. */
  function Kept(w: Log, base: nat, baseTerm: nat, n: nat, p: nat, i: nat): nat
    requires p <= i <= |w| && base <= n
  {
    if i == p then n - base
    else
      var before := Kept(w, base, baseTerm, n, p, i - 1);
      if i > base || w[i - 1].term == baseTerm then before
      else After(before + (if i - 1 == p then 0 else 1), base + 1 - i)
  }

  /** What is left of a log of this length after `del log[-cut:]`. */
  function After(length: nat, cut: nat): nat { if length <= cut then 0 else length - cut }

  /** The latest configuration from below the base that such a message has appended once more. */
  function Revived(w: Log, base: nat, baseTerm: nat, p: nat, i: nat): Option<set<NodeId>>
    requires p <= i <= |w|
  {
    if i == p then None
    else if i <= base && w[i - 1].term != baseTerm && w[i - 1].command.Config? then Some(w[i - 1].command.voters)
    else Revived(w, base, baseTerm, p, i - 1)
  }

  /** After k right entries, an entry from below the compaction point. */
  predicate Spoiled(w: Log, base: nat, baseTerm: nat, n: nat, live: Log, k: nat) {
    && base + k <= n <= |w| && (base + k < n || k == 0)
    && |live| == k + 1 && live[..k] == w[base..base + k] && live[k].term < baseTerm
  }

  /** The log after the turn for index i of a message that went astray: once it reaches the wrong entry it is
      repaired, up to where the message goes. */
  predicate Astray(w: Log, base: nat, baseTerm: nat, n: nat, p: nat, live: Log, i: nat)
    requires p <= i <= |w| && base <= n
  {
    var k := Kept(w, base, baseTerm, n, p, i);
    if i <= base + k then Spoiled(w, base, baseTerm, n, live, k) else live == w[base..i]
  }

  lemma CutFromEnd(log: Log, cut: nat)
    requires cut > 0
    ensures CutAtOffset(log, 0 - cut) == log[..After(|log|, cut)]
  {}

  lemma CutAbove(log: Log, k: nat)
    requires k < |log|
    ensures CutAtOffset(log, k) == log[..k]
  {}

  /** The first entry of another term cuts at a negative offset and takes the place of live entries. */
  lemma FirstTurn(w: Log, base: nat, baseTerm: nat, n: nat, r: Replica, i: nat)
    requires Compacted(w, base, baseTerm, n) && r.base == base && r.baseTerm == baseTerm && r.log == w[base..n]
    requires i < base && w[i].term != baseTerm
    ensures Astray(w, base, baseTerm, n, i, AppendOne(r, i + 1, w[i]).log, i + 1)
  {
    hide AppendOne, CutAtOffset;
    TurnLog(r, i + 1, w[i]);
    CutFromEnd(r.log, base - i);
    assert Kept(w, base, baseTerm, n, i, i) == n - base;
  }

  lemma AstrayTurn(w: Log, base: nat, baseTerm: nat, n: nat, p: nat, r: Replica, i: nat)
    requires Compacted(w, base, baseTerm, n) && r.base == base && r.baseTerm == baseTerm && p < i < |w|
    requires Astray(w, base, baseTerm, n, p, r.log, i)
    ensures Astray(w, base, baseTerm, n, p, AppendOne(r, i + 1, w[i]).log, i + 1)
  {
    hide AppendOne, TermsRise, Spoiled;
    var k := Kept(w, base, baseTerm, n, p, i);
    if i > base + k {
      TurnLog(r, i + 1, w[i]);
      assert w[base..i] + [w[i]] == w[base..i + 1];
    } else if i < base {
      TurnBelow(w, base, baseTerm, n, r, k, i);
    } else {
      TurnAbove(w, base, baseTerm, n, r, k, i);
    }
  }

  /** Below the base: skipped, or one more cut from the end. */
  lemma TurnBelow(w: Log, base: nat, baseTerm: nat, n: nat, r: Replica, k: nat, i: nat)
    requires Compacted(w, base, baseTerm, n) && r.base == base && r.baseTerm == baseTerm && i < base
    requires Spoiled(w, base, baseTerm, n, r.log, k)
    ensures Spoiled(w, base, baseTerm, n, AppendOne(r, i + 1, w[i]).log, if w[i].term == baseTerm then k else After(k + 1, base - i))
  {
    hide AppendOne, CutAtOffset;
    TurnLog(r, i + 1, w[i]);
    CutFromEnd(r.log, base - i);
  }

  /** Above it: kept up to the wrong entry, which is replaced. */
  lemma TurnAbove(w: Log, base: nat, baseTerm: nat, n: nat, r: Replica, k: nat, i: nat)
    requires Compacted(w, base, baseTerm, n) && r.base == base && r.baseTerm == baseTerm && base <= i <= base + k && i < |w|
    requires Spoiled(w, base, baseTerm, n, r.log, k)
    ensures AppendOne(r, i + 1, w[i]).log == if i < base + k then r.log else w[base..i + 1]
  {
    hide AppendOne, CutAtOffset;
    TurnLog(r, i + 1, w[i]);
    if i < base + k {
      assert r.log[..k][i - base] == w[base..base + k][i - base];
    } else {
      CutAbove(r.log, k);
      assert w[base..i] + [w[i]] == w[base..i + 1];
    }
  }

  /** A message that begins with an entry of the base's term: those up to the base are skipped, the others kept. */
  lemma OnTrackTurn(w: Log, base: nat, baseTerm: nat, n: nat, r: Replica, p: nat, i: nat)
    requires Compacted(w, base, baseTerm, n) && r.base == base && r.baseTerm == baseTerm && p <= i < |w|
    requires p < base && w[p].term == baseTerm && r.log == w[base..Largest(n, i)]
    ensures AppendOne(r, i + 1, w[i]).log == w[base..Largest(n, i + 1)]
  {
    hide AppendOne, CutAtOffset;
    TurnLog(r, i + 1, w[i]);
    if i >= n { assert w[base..i] + [w[i]] == w[base..i + 1]; }
  }

  // ---- the configuration, one turn at a time ----

  /** The configuration fields are in step with the log, or those of a revived configuration. */
  predicate InForce(r: Replica, revived: Option<set<NodeId>>, index: nat) {
    if revived.None? then ConfigTracked(r)
    else r.voters == revived.value && r.configIndex <= index && r.configIndex <= r.base
  }

  predicate Skips(r: Replica, index: nat, e: Entry) {
    LastIndex(r) >= index && TermAt(r, index) == e.term
  }

  lemma ConfigTurn(r: Replica, index: nat, e: Entry, revived: Option<set<NodeId>>)
    requires BaseConfigIndex(r) == r.base && 0 < index <= LastIndex(r) + 1 && InForce(r, revived, index - 1)
    ensures InForce(AppendOne(r, index, e),
                    if Skips(r, index, e) || !e.command.Config? then revived
                    else if index <= r.base then Some(e.command.voters) else None, index)
  {
    hide Cut, LatestConfig, ConfigTracked, TermAt;
    if !Skips(r, index, e) {
      var r1 := if LastIndex(r) >= index then Cut(r, index) else r;
      if LastIndex(r) >= index { CutInForce(r, index, revived); }
      if !e.command.Config? {
        PushInForce(r1, index, e, revived);
      } else if index > r.base {
        PushConfig(r1, index, e);
      }
    }
  }

  lemma CutInForce(r: Replica, index: nat, revived: Option<set<NodeId>>)
    requires BaseConfigIndex(r) == r.base && 0 < index <= LastIndex(r) && InForce(r, revived, index - 1)
    ensures var r1 := Cut(r, index);
            InForce(r1, revived, index - 1) && r1.base == r.base && (index > r.base ==> LastIndex(r1) == index - 1)
  {
    hide LatestConfig, ConfigOf, ConfigTracked, CutAtOffset;
    if revived.None? {
      CutKeepsTracked(r, index);
    } else {
      var k := CutLength(r.log, index - r.base - 1);
    }
  }

  lemma PushInForce(r: Replica, index: nat, e: Entry, revived: Option<set<NodeId>>)
    requires 0 < index && InForce(r, revived, index - 1) && !e.command.Config?
    ensures InForce(Push(r, index, e), revived, index)
  {
    hide LatestConfig, ConfigTracked;
    if revived.None? { PushKeepsTracked(r, index, e); }
  }

  lemma PushConfig(r: Replica, index: nat, e: Entry)
    requires e.command.Config? && index == LastIndex(r) + 1
    ensures ConfigTracked(Push(r, index, e))
  {
    hide LatestConfig;
    LatestSnoc(r.log, e);
  }

  /** Which configuration is in force after the turn for index i: a revived one, until the message goes on to append
      a configuration in its right place. */
  function Expected(w: Log, base: nat, baseTerm: nat, n: nat, p: nat, i: nat): Option<set<NodeId>>
    requires p <= i <= |w| && base <= n
  {
    if LatestConfig(w[..i]) > base + Kept(w, base, baseTerm, n, p, i) then None else Revived(w, base, baseTerm, p, i)
  }

  lemma FirstConfig(w: Log, base: nat, baseTerm: nat, n: nat, r: Replica, i: nat)
    requires Compacted(w, base, baseTerm, n) && r.base == base && r.baseTerm == baseTerm && BaseConfigIndex(r) == base && ConfigTracked(r)
    requires i < base && w[i].term != baseTerm
    ensures InForce(AppendOne(r, i + 1, w[i]), Expected(w, base, baseTerm, n, i, i + 1), i + 1)
  {
    hide ConfigTracked, AppendOne, LatestConfig, Kept;
    assert Revived(w, base, baseTerm, i, i) == None;
    ConfigTurn(r, i + 1, w[i], None);
  }

  lemma AstrayConfig(w: Log, base: nat, baseTerm: nat, n: nat, p: nat, r: Replica, i: nat)
    requires Compacted(w, base, baseTerm, n) && r.base == base && r.baseTerm == baseTerm && BaseConfigIndex(r) == base && p < i < |w|
    requires Astray(w, base, baseTerm, n, p, r.log, i) && InForce(r, Expected(w, base, baseTerm, n, p, i), i)
    ensures InForce(AppendOne(r, i + 1, w[i]), Expected(w, base, baseTerm, n, p, i + 1), i + 1)
  {
    hide ConfigTracked, AppendOne, LatestConfig;
    ConfigTurn(r, i + 1, w[i], Expected(w, base, baseTerm, n, p, i));
    assert w[..i + 1] == w[..i] + [w[i]];
    LatestSnoc(w[..i], w[i]);
    var k := Kept(w, base, baseTerm, n, p, i);
    if base <= i < base + k { assert r.log[..k][i - base] == w[base..base + k][i - base]; }
  }

  // ---- the whole message ----

  /** It goes astray exactly if it has entries and the first is of another term than the base's. */
  lemma {:induction false} EarlyLoop(w: Log, n: nat, r: Replica, p: nat, m: nat)
    requires Compacted(w, r.base, r.baseTerm, n) && r.log == w[r.base..n] && BaseConfigIndex(r) == r.base && ConfigTracked(r)
    requires p < r.base && p <= m <= |w|
    ensures var after := AppendLoop(r, p, w[p..m]);
            if m == p || w[p].term == r.baseTerm then after.log == w[r.base..Largest(n, m)]
            else Astray(w, r.base, r.baseTerm, n, p, after.log, m) && InForce(after, Expected(w, r.base, r.baseTerm, n, p, m), m)
    decreases m
  {
    hide AppendLoop, AppendOne, TermsRise, Astray, ConfigTracked, InForce, Expected;
    if m == p {
      assert w[p..m] == [];
      NothingLooped(r, p);
    } else {
      var i := m - 1;
      EarlyLoop(w, n, r, p, i);
      assert w[p..m] == w[p..i] + [w[i]];
      LoopSnoc(r, p, w[p..i], w[i]);
      LoopFrame(r, p, w[p..i]);
      var r1 := AppendLoop(r, p, w[p..i]);
      if w[p].term == r.baseTerm {
        OnTrackTurn(w, r.base, r.baseTerm, n, r1, p, i);
      } else if i == p {
        assert w[p..i] == [];
        NothingLooped(r, p);
        FirstTurn(w, r.base, r.baseTerm, n, r1, i);
        FirstConfig(w, r.base, r.baseTerm, n, r1, i);
      } else {
        AstrayTurn(w, r.base, r.baseTerm, n, p, r1, i);
        AstrayConfig(w, r.base, r.baseTerm, n, p, r1, i);
      }
    }
  }

  lemma NothingLooped(r: Replica, p: nat)
    ensures AppendLoop(r, p, []) == r
  {}

  /** A log that went astray is right again exactly once the message covers the base and all that was held. */
  lemma AstrayIsRight(w: Log, base: nat, baseTerm: nat, n: nat, p: nat, live: Log, m: nat)
    requires Compacted(w, base, baseTerm, n) && p <= m <= |w| && Astray(w, base, baseTerm, n, p, live, m)
    ensures live == w[base..Largest(n, m)] <==> m > base && m >= n
    ensures m > base && m >= n ==> m > base + Kept(w, base, baseTerm, n, p, m)
  {
    var k := Kept(w, base, baseTerm, n, p, m);
    if m <= base + k && base + k < n { assert w[base..n][k] == w[base + k]; }
  }

  /** What can be checked before the call: there is nothing to append, the first entry has the base term, or the
      message covers the compaction point and everything that is held. */
  predicate Harmless(base: nat, baseTerm: nat, held: nat, leader: Log, p: nat, m: nat)
    requires p <= m <= |leader|
  {
    OnTrack(baseTerm, leader, p, m) || (m > base && m >= held)
  }

  predicate OnTrack(baseTerm: nat, leader: Log, p: nat, m: nat)
    requires p <= m <= |leader|
  {
    m == p || leader[p].term == baseTerm
  }

  /** And no configuration from below the base stays in force: none is repeated, or a later one follows where the
      message repairs the log, or it is the right one. */
  predicate RightConfig(base: nat, baseTerm: nat, held: nat, initial: set<NodeId>, leader: Log, p: nat, m: nat)
    requires p <= m <= |leader| && base <= held
  {
    OnTrack(baseTerm, leader, p, m) ||
    var revived := Expected(leader, base, baseTerm, held, p, m);
    revived.Some? ==> LatestConfig(leader[..m]) <= base && ConfigOf(initial, leader[..m]) == revived.value
  }

  function Longer(hist: Log, leader: Log, m: nat): Log
    requires m <= |leader|
  {
    if m > |hist| then leader[..m] else hist
  }

  predicate Comparable(a: Log, b: Log) { a <= b || b <= a }

  /** The exact condition. A server that represents a history gets entries p + 1 to m of a leader's log from below
      its compaction point. Its log is then that of the longer of the two histories if and only if the message is
      harmless, and it represents that history if and only if the configuration is right as well. */
  lemma EarlyMessage(r: Replica, hist: Log, leader: Log, p: nat, m: nat)
    requires Represents(r, hist) && TermsRise(hist) && TermsRise(leader) && Comparable(hist, leader)
    requires p < r.base && p <= m <= |leader|
    ensures var after, longer := AppendLoop(r, p, leader[p..m]), Longer(hist, leader, m);
            && r.base <= |hist| && r.base <= |longer|
            && (after.log == longer[r.base..] <==> Harmless(r.base, r.baseTerm, |hist|, leader, p, m))
            && (Represents(after, longer) <==>
                  Harmless(r.base, r.baseTerm, |hist|, leader, p, m) && RightConfig(r.base, r.baseTerm, |hist|, r.initialVoters, leader, p, m))
  {
    hide Represents, AppendLoop, Astray, ConfigTracked, InForce, Expected, Kept, LatestConfig, ConfigOf;
    var w := if |leader| >= |hist| then leader else hist;
    var n := |hist|;
    CompactedPart(r, hist, w);
    RepresentsTracked(r, hist);
    assert leader[p..m] == w[p..m] && Longer(hist, leader, m) == w[..Largest(n, m)];
    EarlyLoop(w, n, r, p, m);
    var after, longer := AppendLoop(r, p, w[p..m]), w[..Largest(n, m)];
    assert longer[r.base..] == w[r.base..Largest(n, m)];
    RightLogFits(r, after, longer, p, w[p..m]);
    if m == p || w[p].term == r.baseTerm {
      OldEntriesSkipped(w, n, r, p, m);
      LoopKeepsTracked(r, p, w[p..m]);
      TrackedInForce(after, m);
      RightLogRepresents(r, hist, longer, p, w[p..m], None, m);
    } else {
      AstrayIsRight(w, r.base, r.baseTerm, n, p, after.log, m);
      if m > r.base && m >= n {
        RightLogRepresents(r, hist, longer, p, w[p..m], Expected(w, r.base, r.baseTerm, n, p, m), m);
      }
    }
  }

  lemma TrackedInForce(r: Replica, index: nat)
    requires ConfigTracked(r)
    ensures InForce(r, None, index)
  {}

  lemma OldEntriesSkipped(w: Log, n: nat, r: Replica, p: nat, m: nat)
    requires Compacted(w, r.base, r.baseTerm, n) && p < r.base && p <= m <= |w| && (m == p || w[p].term == r.baseTerm)
    ensures NoOldConfigs(r.base, r.baseTerm, p, w[p..m])
  {}

  lemma CompactedPart(r: Replica, hist: Log, w: Log)
    requires Represents(r, hist) && hist <= w && TermsRise(w) && 0 < r.base
    ensures Compacted(w, r.base, r.baseTerm, |hist|) && r.log == w[r.base..|hist|] && r.base <= LastIndex(r)
  {
    assert hist[..r.base][r.base - 1] == w[r.base - 1];
  }

  lemma RightLogFits(r: Replica, after: Replica, longer: Log, p: nat, es: Log)
    requires after == AppendLoop(r, p, es)
    ensures Represents(after, longer) && r.base <= |longer| ==> after.log == longer[r.base..]
  {
    hide AppendLoop;
    LoopFrame(r, p, es);
  }

  /** With the right log, only the configuration can be wrong. */
  lemma RightLogRepresents(r: Replica, hist: Log, longer: Log, p: nat, es: Log, revived: Option<set<NodeId>>, index: nat)
    requires Represents(r, hist) && hist <= longer && AppendLoop(r, p, es).log == longer[r.base..]
    requires InForce(AppendLoop(r, p, es), revived, index)
    ensures Represents(AppendLoop(r, p, es), longer)
            <==> (revived.Some? ==> LatestConfig(longer) <= r.base && ConfigOf(r.initialVoters, longer) == revived.value)
  {
    hide AppendLoop, ConfigTracked, LatestConfig, ConfigOf, Commands;
    var after := AppendLoop(r, p, es);
    LoopFrame(r, p, es);
    assert longer[..r.commit] == hist[..r.commit];
    SamePrefixFits(r, hist, longer);
    if revived.None? { TrackedFits(after, longer); }
  }

  lemma TrackedFits(r: Replica, hist: Log)
    requires ConfigTracked(r) && SnapshotFits(r.snapshot, r.base, r.initialVoters, hist) && r.log == hist[r.base..]
    ensures ConfigFits(r.voters, r.configIndex, r.base, r.initialVoters, hist)
  {
    SplitConfig(r.initialVoters, hist, r.base);
    if r.snapshot.None? { assert hist[..r.base] == []; }
  }

  // ---- the handler ----

  predicate Carries(m: Message, leader: Log)
    requires m.AppendEntries?
  {
    && m.prevIndex + |m.entries| <= |leader| && m.entries == leader[m.prevIndex..m.prevIndex + |m.entries|]
    && m.prevTerm == LastTerm(leader[..m.prevIndex])
  }

  /** Only a message that starts with the first entry can do harm: any other early one is refused, unless the entry
      it builds on has the base term, and then so has the first it carries. */
  lemma BuildsOnBaseTerm(r: Replica, hist: Log, leader: Log, m: Message)
    requires Represents(r, hist) && TermsRise(hist) && TermsRise(leader) && Comparable(hist, leader)
    requires m.AppendEntries? && 0 < m.prevIndex < r.base && Carries(m, leader) && m.prevTerm == r.baseTerm
    ensures OnTrack(r.baseTerm, leader, m.prevIndex, m.prevIndex + |m.entries|)
  {
    var p := m.prevIndex;
    assert r.baseTerm == hist[..r.base][r.base - 1].term && m.prevTerm == leader[..p][p - 1].term;
    if m.entries != [] {
      assert leader[p - 1].term <= leader[p].term;
      if p < |hist| { assert hist[p] == leader[p] && hist[p].term <= hist[r.base - 1].term; }
    }
  }

  /** A server that handles an early message of a leader represents its old history or the longer one, whenever the
      message does not start with the first entry, or is harmless and leaves the right configuration. */
  lemma EarlyMessageHandled(n: NodeState, hist: Log, leader: Log, m: Message)
    requires Represents(n.replica, hist) && TermsRise(hist) && TermsRise(leader) && Comparable(hist, leader)
    requires m.AppendEntries? && m.prevIndex < n.replica.base && Carries(m, leader)
    requires n.replica.base <= |hist|
    requires var r, reach := n.replica, m.prevIndex + |m.entries|;
             m.prevIndex > 0 || (Harmless(r.base, r.baseTerm, |hist|, leader, 0, reach)
                                 && RightConfig(r.base, r.baseTerm, |hist|, r.initialVoters, leader, 0, reach))
    ensures Represents(OnAppendEntries(n, m).replica,
                       if m.term < n.term || LogInconsistent(Recognise(n, m.term, m.leader), m) then hist
                       else Longer(hist, leader, m.prevIndex + |m.entries|))
  {
    hide Represents, AppendLoop, FollowCommit, Harmless, RightConfig, TermsRise, Comparable;
    HistoryLength(n.replica, hist);
    if m.term >= n.term && !LogInconsistent(Recognise(n, m.term, m.leader), m) {
      var r, reach := n.replica, m.prevIndex + |m.entries|;
      if m.prevIndex > 0 {
        BuildsOnBaseTerm(r, hist, leader, m);
        TrackIsHarmless(r, hist, leader, m.prevIndex, reach);
      }
      EarlyMessage(r, hist, leader, m.prevIndex, reach);
      FollowRecovers(AppendLoop(r, m.prevIndex, m.entries), Longer(hist, leader, reach), m.leaderCommit, reach);
    }
  }

  lemma TrackIsHarmless(r: Replica, hist: Log, leader: Log, p: nat, m: nat)
    requires p <= m <= |leader| && r.base <= |hist| && OnTrack(r.baseTerm, leader, p, m)
    ensures Harmless(r.base, r.baseTerm, |hist|, leader, p, m) && RightConfig(r.base, r.baseTerm, |hist|, r.initialVoters, leader, p, m)
  {}

  // ---- messages that do harm ----

  function FromTheStart(leader: Log, m: nat): Message
    requires m <= |leader|
  {
    AppendEntries(2, 0, 0, 0, leader[..m], 0)
  }

  /** A server that has compacted three of five committed entries gets a duplicate of the leader's first message, with
      the first two entries: its log now ends before its commit index. */
  lemma EarlyMessageCutsCommitted(holder: Replica, hist: Log)
    requires Holder(holder, hist) && hist[0].term < hist[1].term == hist[2].term
    ensures var n := ServerWith(CaughtUp(holder));
            && Represents(n.replica, hist) && n.replica.base == 3 && n.replica.commit == 5
            && OnAppendEntries(n, FromTheStart(hist, 2)).replica.log == [hist[0]]
            && OnAppendEntries(n, FromTheStart(hist, 2)).replica.commit == 5
  {
    hide CaughtUp, Represents;
    ReachedByCommits(holder, hist);
    var r := CaughtUp(holder);
    LiveTail(r, hist);
    BaseTermOf(r, hist);
    TwoTurns(r, hist);
  }

  lemma TwoTurns(r: Replica, hist: Log)
    requires r.base == 3 && |hist| == 5 && |r.log| == 2 && r.baseTerm == hist[1].term && hist[0].term != r.baseTerm
    ensures AppendLoop(r, 0, hist[..2]).log == [hist[0]] && AppendLoop(r, 0, hist[..2]).commit == r.commit
  {
    hide AppendOne, AppendLoop;
    LoopFrame(r, 0, [hist[0]]);
    LoopFrame(r, 0, hist[..2]);
    assert hist[..2] == [hist[0]] + [hist[1]];
    LoopSnoc(r, 0, [hist[0]], hist[1]);
    LoopSnoc(r, 0, [], hist[0]);
    assert [] + [hist[0]] == [hist[0]];
    NothingLooped(r, 0);
    TurnLog(r, 1, hist[0]);
    TurnLog(AppendLoop(r, 0, [hist[0]]), 2, hist[1]);
  }

  lemma BaseTermOf(r: Replica, hist: Log)
    requires Represents(r, hist)
    ensures r.base <= |hist| && r.baseTerm == LastTerm(hist[..r.base])
  {}

  /** A message that covers everything can still bring an old configuration back: the log is right and the server
      votes by a configuration that was replaced long ago. */
  lemma EarlyMessageRevivesConfig(r: Replica, hist: Log, e: Entry)
    requires Represents(r, hist) && |hist| == r.base == 2 && hist[0].term < hist[1].term <= e.term
    requires hist[0].command.Config? && !e.command.Config? && ConfigOf(r.initialVoters, hist) != hist[0].command.voters
    ensures var after := AppendLoop(r, 0, hist + [e]);
            && after.log == [e] == (hist + [e])[2..] && after.voters == hist[0].command.voters
            && ConfigOf(r.initialVoters, hist + [e]) == ConfigOf(r.initialVoters, hist)
  {
    hide Represents, AppendLoop, AppendOne, LatestConfig, ConfigOf;
    LiveTail(r, hist);
    BaseTermOf(r, hist);
    ThreeTurns(r, hist[0], hist[1], e);
    assert hist + [e] == [hist[0], hist[1], e];
    ConfigOfSnoc(r.initialVoters, hist, e);
  }

  const ADDED_AND_REMOVED: Log := [Entry(1, Config({0, 1, 2})), Entry(2, Config({0, 1}))]

  /** A new server of threshold two that accepts and commits the addition and the removal of a server is one. */
  lemma ConfigsCompacted()
    ensures var hist, r := ADDED_AND_REMOVED, SetCommit(AppendLoop(Blank({0, 1}, 2), 0, ADDED_AND_REMOVED), 2);
            && Represents(r, hist) && |hist| == r.base == 2 && hist[0].term < hist[1].term <= Entry(2, Opaque("x")).term
            && hist[0].command.Config? && ConfigOf(r.initialVoters, hist) != hist[0].command.voters
  {
    hide Represents, SparesCommitted, Merge, AppendLoop, SetCommit;
    Blanks(2, ADDED_AND_REMOVED);
    AppendRecovers(Blank({0, 1}, 2), [], 0, ADDED_AND_REMOVED);
    LoopFrame(Blank({0, 1}, 2), 0, ADDED_AND_REMOVED);
    CommitCompacts(AppendLoop(Blank({0, 1}, 2), 0, ADDED_AND_REMOVED), ADDED_AND_REMOVED, 2);
    assert 2 in {0, 1, 2} && 2 !in {0, 1};
  }

  lemma ThreeTurns(r: Replica, a: Entry, b: Entry, e: Entry)
    requires r.base == 2 && r.log == [] && r.baseTerm == b.term && a.term < b.term <= e.term && a.command.Config? && !e.command.Config?
    ensures var after := AppendLoop(r, 0, [a, b, e]); after.log == [e] && after.voters == a.command.voters
  {
    hide AppendLoop, AppendOne;
    assert [a, b, e] == [a, b] + [e] && [a, b] == [a] + [b] && [a] == [] + [a];
    LoopSnoc(r, 0, [a, b], e);
    LoopSnoc(r, 0, [a], b);
    LoopSnoc(r, 0, [], a);
    NothingLooped(r, 0);
    var r1 := AppendOne(r, 1, a);
    TurnFrame(r, 1, a);
    RepeatsOld(r, a);
    SkipsBase(r1, b);
    ReplacesOld(r1, a, e);
  }

  lemma RepeatsOld(r: Replica, a: Entry)
    requires r.base == 2 && r.log == [] && a.term != r.baseTerm && a.command.Config?
    ensures var r1 := AppendOne(r, 1, a); r1.log == [a] && r1.voters == a.command.voters && r1.configIndex == 1
  {
    hide LatestConfig, ConfigOf;
  }

  lemma SkipsBase(r: Replica, b: Entry)
    requires r.base == 2 && b.term == r.baseTerm
    ensures AppendOne(r, 2, b) == r
  {}

  lemma ReplacesOld(r: Replica, a: Entry, e: Entry)
    requires r.base == 2 && r.log == [a] && r.configIndex == 1 && a.term != e.term && !e.command.Config?
    ensures AppendOne(r, 3, e).log == [e] && AppendOne(r, 3, e).voters == r.voters
  {
    hide RebuildConfig;
    assert r.log[..0] == [];
  }
}
