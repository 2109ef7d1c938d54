/** The append loop of `_on_append_entries`, one turn at a time, and what it amounts to for entries above the
    compaction point: a merge of the log with the entries, and the configuration that goes with it. */
module AppendSteps {
  import opened Types
  import opened Logs
  import opened Replicas

  /** The configuration fields agree with the live log: the latest configuration entry governs, below
      it whatever the snapshot or the initial configuration says. */
  predicate ConfigTracked(r: Replica) {
    var p := LatestConfig(r.log);
    if p > 0 then r.configIndex == r.base + p && r.voters == r.log[p - 1].command.voters
    else r.configIndex <= r.base && r.voters == BaseVoters(r)
  }

  lemma {:induction false} AgreementSnoc(log: Log, k: nat, es: Log, e: Entry)
    requires k <= |log|
    ensures var a := Agreement(log, k, es);
            Agreement(log, k, es + [e]) == if a == |es| && k + a < |log| && log[k + a].term == e.term then a + 1 else a
    decreases |es|
  {
    if es == [] {
      assert Agreement(log, k, [e]) == if k < |log| && log[k].term == e.term then 1 else 0;
    } else if k < |log| && log[k].term == es[0].term {
      assert (es + [e])[1..] == es[1..] + [e];
      AgreementSnoc(log, k + 1, es[1..], e);
    }
  }

  lemma LatestBefore(log: Log, k: nat)
    requires LatestConfig(log) <= k <= |log|
    ensures LatestConfig(log[..k]) == LatestConfig(log)
  {
    assert log == log[..k] + log[k..];
    LatestConfigSplit(log[..k], log[k..]);
  }

  lemma AdoptSame(r: Replica)
    requires ConfigTracked(r)
    ensures AdoptFromLog(r, r.log) == r
  {
    hide LatestConfig;
  }

  lemma LatestSnoc(log: Log, e: Entry)
    ensures LatestConfig(log + [e]) == if e.command.Config? then |log| + 1 else LatestConfig(log)
  {
    assert (log + [e])[..|log|] == log;
  }

  /** Appending at the end: the configuration fields follow. */
  lemma AdoptSnoc(r: Replica, log': Log, e: Entry)
    ensures var r1 := AdoptFromLog(r, log');
            AdoptFromLog(r, log' + [e]) ==
              if e.command.Config? then r1.(log := log' + [e], voters := e.command.voters, configIndex := r.base + |log'| + 1)
              else r1.(log := log' + [e])
  {
    hide LatestConfig;
    LatestSnoc(log', e);
  }

  /** Cutting the log rebuilds the configuration exactly when its entry is cut off. */
  lemma AdoptCut(r: Replica, index: nat)
    requires ConfigTracked(r) && BaseConfigIndex(r) == r.base && r.base < index <= LastIndex(r)
    ensures AdoptFromLog(r, r.log[..index - r.base - 1]) == Cut(r, index).(version := r.version)
  {
    hide LatestConfig, ConfigOf;
    var k := index - r.base - 1;
    LatestInFront(r.log, k);
    ConfigOfLatest(BaseVoters(r), r.log[..k]);
  }

  lemma LatestInFront(log: Log, k: nat)
    requires k <= |log|
    ensures LatestConfig(log[..k]) <= k
    ensures LatestConfig(log) <= k ==> LatestConfig(log[..k]) == LatestConfig(log)
  {
    if LatestConfig(log) <= k { LatestBefore(log, k); }
  }

  /** The loop, one entry further. */
  lemma AppendStep(r: Replica, prev: nat, es: Log, e: Entry)
    requires r.base <= prev <= LastIndex(r) && ConfigTracked(r) && BaseConfigIndex(r) == r.base
    ensures AppendMerged(r, prev, es).base == r.base && prev + |es| <= LastIndex(AppendMerged(r, prev, es))
    ensures AppendMerged(r, prev, es + [e]) == AppendOne(AppendMerged(r, prev, es), prev + |es| + 1, e)
  {
    hide AppendMerged, AppendOne, ConfigTracked, LatestConfig;
    AgreementSnoc(r.log, prev - r.base, es, e);
    LoopBase(r, prev, es);
    if Agreement(r.log, prev - r.base, es) < |es| {
      StepPastConflict(r, prev, es, e);
    } else {
      StepInAgreement(r, prev, es, e);
    }
  }

  lemma LoopBase(r: Replica, prev: nat, es: Log)
    requires r.base <= prev <= LastIndex(r)
    ensures AppendMerged(r, prev, es).base == r.base && prev + |es| <= LastIndex(AppendMerged(r, prev, es))
    ensures AppendMerged(r, prev, es).log == Merge(r.log, prev - r.base, es) && AppendMerged(r, prev, es).baseTerm == r.baseTerm
  {
    hide LatestConfig;
  }

  lemma MergePastConflict(log: Log, k: nat, es: Log, e: Entry)
    requires k <= |log| && Agreement(log, k, es) < |es| && Agreement(log, k, es + [e]) == Agreement(log, k, es)
    ensures Merge(log, k, es + [e]) == Merge(log, k, es) + [e] && |Merge(log, k, es)| == k + |es|
  {
    hide Agreement;
    var a := Agreement(log, k, es);
    assert (es + [e])[a..] == es[a..] + [e];
  }

  lemma StepPastConflict(r: Replica, prev: nat, es: Log, e: Entry)
    requires r.base <= prev <= LastIndex(r)
    requires Agreement(r.log, prev - r.base, es) < |es| && Agreement(r.log, prev - r.base, es + [e]) == Agreement(r.log, prev - r.base, es)
    requires AppendMerged(r, prev, es).base == r.base && prev + |es| <= LastIndex(AppendMerged(r, prev, es))
    ensures AppendMerged(r, prev, es + [e]) == AppendOne(AppendMerged(r, prev, es), prev + |es| + 1, e)
  {
    hide Agreement, LatestConfig, AdoptFromLog, Merge;
    var k := prev - r.base;
    var log' := Merge(r.log, k, es);
    MergePastConflict(r.log, k, es, e);
    AdoptSnoc(r, log', e);
    AdoptFields(r, log');
    assert LastIndex(AppendMerged(r, prev, es)) == prev + |es|;
  }

  lemma AdoptFields(r: Replica, log': Log)
    ensures var r1 := AdoptFromLog(r, log');
            r1.log == log' && r1.base == r.base && r1.version == r.version
  {
    hide LatestConfig;
  }

  lemma StepInAgreement(r: Replica, prev: nat, es: Log, e: Entry)
    requires r.base <= prev <= LastIndex(r) && ConfigTracked(r) && BaseConfigIndex(r) == r.base
    requires var k, a := prev - r.base, Agreement(r.log, prev - r.base, es);
             a == |es| && Agreement(r.log, k, es + [e]) == if k + a < |r.log| && r.log[k + a].term == e.term then a + 1 else a
    requires prev - r.base + |es| <= |r.log|
    ensures AppendMerged(r, prev, es) == r
    ensures AppendMerged(r, prev, es + [e]) == AppendOne(r, prev + |es| + 1, e)
  {
    hide Agreement, LatestConfig, AdoptFromLog, Cut, ConfigTracked;
    AdoptSame(r);
    var k, index := prev - r.base, prev + |es| + 1;
    assert AppendMerged(r, prev, es) == r;
    if k + |es| < |r.log| && r.log[k + |es|].term != e.term {
      AdoptCut(r, index);
      CutFields(r, index);
      AdoptSnoc(r, r.log[..k + |es|], e);
      assert (es + [e])[|es|..] == [e];
    } else if k + |es| == |r.log| {
      AdoptSnoc(r, r.log, e);
      assert (es + [e])[|es|..] == [e] && r.log[..k + |es|] == r.log;
    }
  }

  lemma CutFields(r: Replica, index: nat)
    requires r.base < index <= LastIndex(r)
    ensures Cut(r, index).version == r.version + 1 && Cut(r, index).log == r.log[..index - r.base - 1]
  {
    hide ConfigOf, LatestConfig;
  }

  // ---- the loop as a whole ----

  /** The loop changes the log, its version and the configuration fields, and nothing else. */
  lemma {:induction false} LoopFrame(r: Replica, prev: nat, es: Log)
    ensures var r' := AppendLoop(r, prev, es);
            && r' == r.(log := r'.log, version := r'.version, voters := r'.voters, configIndex := r'.configIndex)
            && r.version <= r'.version && (r.version == r'.version ==> r'.log == r.log)
    decreases |es|
  {
    if es != [] {
      LoopFrame(r, prev, es[..|es| - 1]);
      TurnFrame(AppendLoop(r, prev, es[..|es| - 1]), prev + |es|, es[|es| - 1]);
    }
  }

  lemma TurnFrame(r: Replica, index: nat, e: Entry)
    ensures var r' := AppendOne(r, index, e);
            && r' == r.(log := r'.log, version := r'.version, voters := r'.voters, configIndex := r'.configIndex)
            && (r' == r || r'.version > r.version)
  {
    hide LatestConfig, ConfigOf, TermAt, CutAtOffset;
  }

  lemma LoopSnoc(r: Replica, prev: nat, es: Log, e: Entry)
    ensures AppendLoop(r, prev, es + [e]) == AppendOne(AppendLoop(r, prev, es), prev + |es| + 1, e)
  {
    hide AppendOne;
    assert (es + [e])[..|es|] == es;
  }

  /** Entries above the compaction point are merged into the log. */
  lemma {:induction false} LoopIsMerged(r: Replica, prev: nat, es: Log)
    requires r.base <= prev <= LastIndex(r) && ConfigTracked(r) && BaseConfigIndex(r) == r.base
    ensures AppendLoop(r, prev, es) == AppendMerged(r, prev, es)
    decreases |es|
  {
    hide AppendMerged, AppendOne, ConfigTracked;
    if es == [] {
      NothingMerged(r, prev);
    } else {
      var front, last := es[..|es| - 1], es[|es| - 1];
      LoopIsMerged(r, prev, front);
      AppendStep(r, prev, front, last);
      assert front + [last] == es;
    }
  }

  lemma NothingMerged(r: Replica, prev: nat)
    requires r.base <= prev <= LastIndex(r) && ConfigTracked(r)
    ensures AppendMerged(r, prev, []) == r
  {
    hide LatestConfig, AdoptFromLog, ConfigTracked;
    AdoptSame(r);
    assert Merge(r.log, prev - r.base, []) == r.log;
  }

  /** The log then reaches at least as far as the entries. */
  lemma {:induction false} LoopLength(r: Replica, prev: nat, es: Log)
    requires prev <= LastIndex(r)
    ensures prev + |es| <= LastIndex(AppendLoop(r, prev, es))
    decreases |es|
  {
    hide AppendOne;
    if es != [] {
      LoopLength(r, prev, es[..|es| - 1]);
      TurnLength(AppendLoop(r, prev, es[..|es| - 1]), prev + |es|, es[|es| - 1]);
    }
  }

  lemma TurnLength(r: Replica, index: nat, e: Entry)
    requires index <= LastIndex(r) + 1
    ensures index <= LastIndex(AppendOne(r, index, e))
  {
    hide LatestConfig, ConfigOf, TermAt;
  }

  /** The configuration fields stay in step, unless a configuration entry from below the compaction point is
      appended once more: one of another term than the base's. */
  lemma {:induction false} LoopKeepsTracked(r: Replica, prev: nat, es: Log)
    requires ConfigTracked(r) && BaseConfigIndex(r) == r.base && prev <= LastIndex(r) && NoOldConfigs(r.base, r.baseTerm, prev, es)
    ensures ConfigTracked(AppendLoop(r, prev, es))
    decreases |es|
  {
    hide AppendOne, ConfigTracked;
    if es != [] {
      var front := es[..|es| - 1];
      LoopKeepsTracked(r, prev, front);
      LoopLength(r, prev, front);
      LoopFrame(r, prev, front);
      TurnKeepsTracked(AppendLoop(r, prev, front), prev + |es|, es[|es| - 1]);
    }
  }

  /** Configuration entries at or below the compaction point carry the base term: the loop skips them. */
  predicate NoOldConfigs(base: nat, baseTerm: nat, prev: nat, es: Log) {
    forall j | 0 <= j < |es| && prev + j < base && es[j].command.Config? :: es[j].term == baseTerm
  }

  lemma TurnKeepsTracked(r: Replica, index: nat, e: Entry)
    requires ConfigTracked(r) && BaseConfigIndex(r) == r.base && index <= LastIndex(r) + 1
    requires index <= r.base && e.command.Config? ==> e.term == r.baseTerm
    ensures ConfigTracked(AppendOne(r, index, e))
  {
    hide Cut, LatestConfig, ConfigTracked;
    if LastIndex(r) >= index && TermAt(r, index) == e.term {
    } else if LastIndex(r) >= index {
      CutKeepsTracked(r, index);
      PushKeepsTracked(Cut(r, index), index, e);
    } else {
      PushKeepsTracked(r, index, e);
    }
  }

  lemma CutKeepsTracked(r: Replica, index: nat)
    requires ConfigTracked(r) && BaseConfigIndex(r) == r.base && index <= LastIndex(r)
    ensures var r1 := Cut(r, index);
            ConfigTracked(r1) && r1.base == r.base && (index > r.base ==> LastIndex(r1) == index - 1)
  {
    hide LatestConfig, ConfigOf, CutAtOffset;
    var k := CutLength(r.log, index - r.base - 1);
    LatestInFront(r.log, k);
    ConfigOfLatest(BaseVoters(r), r.log[..k]);
  }

  lemma CutLength(log: Log, offset: int) returns (k: nat)
    requires offset < |log|
    ensures k <= |log| && CutAtOffset(log, offset) == log[..k]
    ensures offset >= 0 ==> k == offset
  {
    k := if offset >= 0 then offset else if |log| + offset <= 0 then 0 else |log| + offset;
  }

  lemma PushKeepsTracked(r: Replica, index: nat, e: Entry)
    requires ConfigTracked(r) && (e.command.Config? ==> index == LastIndex(r) + 1)
    ensures ConfigTracked(Push(r, index, e))
  {
    hide LatestConfig;
    LatestSnoc(r.log, e);
  }
}
