/** Which alerts each part of `derive` raises, and how to select the alerts of one kind from a cycle. */
module AlertTraces {
  import opened Wrappers
  import opened Seqs
  import opened AlertModels
  import opened AlertRules
  import opened AlertRuns

  // ---------------------------------------------------------------- kinds of alerts

  predicate IsMarketKind(t: AlertType) {
    IsEventType(t) || t.LIQUIDITY_APPROACHING? || t.RISK_LOCK? || t.RISK_LOCK_CLEARED? || t.SESSION_CHANGE?
    || t.EARLY_ENTRY_WARNING?
  }

  lemma NewOnesKinds(s: Snapshot, p: Memory, grace: Option<int>, ts: seq<Tagged>, c: AlertCandidate)
    requires c in NewOnes(p, grace, ts) && forall t :: t in ts ==> WellTagged(s, t)
    ensures IsEventType(c.kind) && c.symbol == s.symbol
  {
    NewOnesMembers(p, grace, ts, c);
    var i :| 0 <= i < |ts| && ts[i].candidate == c;
    assert WellTagged(s, ts[i]);
  }

  lemma StateKinds(s: Snapshot, p: Memory, cfg: AlertConfig, c: AlertCandidate)
    requires s.run.Some? && s.evaluation.Some? && c in StateAlerts(s, p, cfg)
    ensures IsMarketKind(c.kind) && c.symbol == s.symbol
  {
    if c in LockAlerts(s, p) {
      LocksAreNoEvents(s, p, c);
    } else if c in WarningAlerts(s, p) {
      WarningKinds(s, p, c);
    } else if c !in SessionAlerts(s, p) {
      SetupTagsAreAmongIds(s);
      NewOnesKinds(s, p, Grace(s, p, cfg), FlatMap(SetupTag(s), s.run.value.events), c);
    }
  }

  lemma WarningKinds(s: Snapshot, p: Memory, c: AlertCandidate)
    requires s.evaluation.Some? && c in WarningAlerts(s, p)
    ensures c.kind == EARLY_ENTRY_WARNING && c.symbol == s.symbol
  {
    var setup := s.Current().value;
    FlatMapMembers(WarningAlert(s, setup, FreshWarnings(setup, s.evaluation.value.warnings, p)), WARNINGS, c);
  }

  lemma {:induction false} PoolKinds(s: Snapshot, p: Memory, grace: Option<int>, pools: seq<Pool>, c: AlertCandidate)
    requires c in FlatMap(PoolAlerts(s, p, grace), pools)
    ensures c.symbol == s.symbol && (c.kind == LIQUIDITY_APPROACHING || c.kind == EQUAL_LEVEL_CREATED)
  {
    FlatMapMembers(PoolAlerts(s, p, grace), pools, c);
    var i :| 0 <= i < |pools| && c in PoolAlerts(s, p, grace)(pools[i]);
    if c in NewOnes(p, grace, PoolTag(s)(pools[i])) {
      NewOnesMembers(p, grace, PoolTag(s)(pools[i]), c);
    }
  }

  lemma PipelineKinds(s: Snapshot, p: Memory, pipe: Pipeline, cfg: AlertConfig, c: AlertCandidate)
    requires ShowsPipeline(s, pipe) && c in PipelineAlerts(s, p, pipe, cfg)
    ensures IsMarketKind(c.kind) && c.symbol == s.symbol
  {
    if c in FlatMap(PoolAlerts(s, p, Grace(s, p, cfg)), pipe.pools) {
      PoolKinds(s, p, Grace(s, p, cfg), pipe.pools, c);
    } else {
      PipelineNewOnes(s, p, pipe, cfg, c);
      PipelineTagsAreAmongIds(s, pipe, cfg);
      NewOnesKinds(s, p, Grace(s, p, cfg), PipelineTags(s, pipe, cfg), c);
    }
  }

  lemma PipelineNewOnes(s: Snapshot, p: Memory, pipe: Pipeline, cfg: AlertConfig, c: AlertCandidate)
    requires ShowsPipeline(s, pipe) && c in PipelineAlerts(s, p, pipe, cfg)
    requires c !in FlatMap(PoolAlerts(s, p, Grace(s, p, cfg)), pipe.pools)
    ensures c in NewOnes(p, Grace(s, p, cfg), PipelineTags(s, pipe, cfg))
  {
    var g := Grace(s, p, cfg);
    var t1, t2 := FlatMap(StructureTag(s), pipe.structure), FlatMap(LiquidityTag(s), pipe.liquidity);
    var t3, t4 := FlatMap(PoolTag(s), pipe.pools), FlatMap(DisplacementTag(s, cfg), pipe.displacements);
    var t5, t6 := FlatMap(PdTag(s, pipe.zones, cfg), pipe.pdEvents), FlatMap(NoWickTag(s, cfg), pipe.noWick);
    var t7 := FlatMap(NoWickZoneTag(s), pipe.noWickZones);
    NewOnesAppend(p, g, t1, t2);
    NewOnesAppend(p, g, t1 + t2, t3);
    NewOnesAppend(p, g, t1 + t2 + t3, t4);
    NewOnesAppend(p, g, t1 + t2 + t3 + t4, t5);
    NewOnesAppend(p, g, t1 + t2 + t3 + t4 + t5, t6);
    NewOnesAppend(p, g, t1 + t2 + t3 + t4 + t5 + t6, t7);
  }

  function KindIn(kinds: AlertType -> bool): AlertCandidate -> bool {
    (c: AlertCandidate) => kinds(c.kind)
  }

  /** The alerts that need eligible data. */
  function MarketAlerts(s: Snapshot, p: Memory, cfg: AlertConfig): seq<AlertCandidate>
    requires Coherent(s)
  {
    if !s.Eligible() then []
    else StateAlerts(s, p, cfg)
         + if s.run.value.pipeline.Some? then PipelineAlerts(s, p, s.run.value.pipeline.value, cfg) else []
  }

  lemma MarketKinds(s: Snapshot, p: Memory, cfg: AlertConfig, c: AlertCandidate)
    requires Coherent(s) && c in MarketAlerts(s, p, cfg)
    ensures IsMarketKind(c.kind) && c.symbol == s.symbol
  {
    if c in StateAlerts(s, p, cfg) {
      StateKinds(s, p, cfg, c);
    } else {
      PipelineKinds(s, p, s.run.value.pipeline.value, cfg, c);
    }
  }

  lemma AlertsSplit(s: Snapshot, p: Memory, cfg: AlertConfig)
    requires Coherent(s)
    ensures Alerts(s, Some(p), cfg) == ContextAlerts(s, p, cfg) + MarketAlerts(s, p, cfg)
  {
  }

  /** `derive` raises alerts of the snapshot's symbol only, and never a READY or MONITOR_FAILURE alert. */
  lemma DeriveNeverReady(s: Snapshot, p: Memory, cfg: AlertConfig, c: AlertCandidate)
    requires Coherent(s) && c in Alerts(s, Some(p), cfg)
    ensures c.symbol == s.symbol && c.kind != READY && c.kind != MONITOR_FAILURE
  {
    AlertOrigin(s, p, cfg, c);
    if c in ContextAlerts(s, p, cfg) {
      ContextKinds(s, p, cfg, c);
    } else {
      MarketKinds(s, p, cfg, c);
      MarketKindsAreNotReady(c.kind);
    }
  }

  lemma AlertOrigin(s: Snapshot, p: Memory, cfg: AlertConfig, c: AlertCandidate)
    requires Coherent(s) && c in Alerts(s, Some(p), cfg)
    ensures c in ContextAlerts(s, p, cfg) || c in MarketAlerts(s, p, cfg)
  {
    AlertsSplit(s, p, cfg);
    InOneOf(ContextAlerts(s, p, cfg), MarketAlerts(s, p, cfg), c);
  }

  lemma InOneOf(a: seq<AlertCandidate>, b: seq<AlertCandidate>, c: AlertCandidate)
    requires c in a + b
    ensures c in a || c in b
  {
  }

  lemma MarketKindsAreNotReady(t: AlertType)
    requires IsMarketKind(t)
    ensures t != READY && t != MONITOR_FAILURE
  {
  }

  /** Selecting alerts by kinds that only the context part raises. */
  lemma SelectContext(s: Snapshot, p: Memory, cfg: AlertConfig, kinds: AlertType -> bool)
    requires Coherent(s) && forall t: AlertType :: kinds(t) ==> IsContextKind(t)
    ensures Filter(KindIn(kinds), Alerts(s, Some(p), cfg)) == Filter(KindIn(kinds), ContextAlerts(s, p, cfg))
  {
    var context, market := ContextAlerts(s, p, cfg), MarketAlerts(s, p, cfg);
    AlertsSplit(s, p, cfg);
    FilterAppend(KindIn(kinds), context, market);
    NoMarketKinds(s, p, cfg, kinds);
    FilterNonePass(KindIn(kinds), market);
  }

  lemma NoMarketKinds(s: Snapshot, p: Memory, cfg: AlertConfig, kinds: AlertType -> bool)
    requires Coherent(s) && forall t: AlertType :: kinds(t) ==> IsContextKind(t)
    ensures NoneOf(kinds, MarketAlerts(s, p, cfg))
  {
    forall c | c in MarketAlerts(s, p, cfg) ensures IsMarketKind(c.kind) {
      MarketKinds(s, p, cfg, c);
    }
    MarketIsNotContext(kinds, MarketAlerts(s, p, cfg));
  }

  lemma MarketIsNotContext(kinds: AlertType -> bool, cs: seq<AlertCandidate>)
    requires forall t: AlertType :: kinds(t) ==> IsContextKind(t)
    requires forall c :: c in cs ==> IsMarketKind(c.kind)
    ensures NoneOf(kinds, cs)
  {
    forall i | 0 <= i < |cs| ensures !kinds(cs[i].kind) {
      assert cs[i] in cs;
    }
  }

  predicate IsDataKind(t: AlertType) {
    t.DATA_UNAVAILABLE? || t.DATA_RESTORED?
  }

  predicate IsMacroKind(t: AlertType) {
    t.MACRO_SHIFT?
  }

  predicate IsCountdownKind(t: AlertType) {
    t.NEWS_COUNTDOWN?
  }

  predicate IsLockKind(t: AlertType) {
    t.RISK_LOCK? || t.RISK_LOCK_CLEARED?
  }

  /** Every alert of the list has one of the kinds. */
  ghost predicate AllOf(kinds: AlertType -> bool, cs: seq<AlertCandidate>) {
    forall i :: 0 <= i < |cs| ==> kinds(cs[i].kind)
  }

  ghost predicate NoneOf(kinds: AlertType -> bool, cs: seq<AlertCandidate>) {
    forall i :: 0 <= i < |cs| ==> !kinds(cs[i].kind)
  }

  lemma {:induction false} SelectSplit(kinds: AlertType -> bool, before: seq<AlertCandidate>, part: seq<AlertCandidate>,
      after: seq<AlertCandidate>)
    requires NoneOf(kinds, before) && AllOf(kinds, part) && NoneOf(kinds, after)
    ensures Filter(KindIn(kinds), before + part + after) == part
  {
    FilterAppend(KindIn(kinds), before, part);
    FilterAppend(KindIn(kinds), before + part, after);
    FilterNonePass(KindIn(kinds), before);
    FilterAllPass(KindIn(kinds), part);
    FilterNonePass(KindIn(kinds), after);
  }

  lemma NoneOfAppend(kinds: AlertType -> bool, a: seq<AlertCandidate>, b: seq<AlertCandidate>)
    requires NoneOf(kinds, a) && NoneOf(kinds, b)
    ensures NoneOf(kinds, a + b)
  {
  }

  /** The DATA alerts of one cycle are those of the change of the verdict. */
  lemma DataAlertsSelected(s: Snapshot, p: Memory, cfg: AlertConfig)
    requires Coherent(s)
    ensures Filter(KindIn(IsDataKind), Alerts(s, Some(p), cfg)) == DataAlerts(s, p)
  {
    SelectContext(s, p, cfg, IsDataKind);
    SelectFirst(IsDataKind, DataAlerts(s, p), BlackoutAlerts(s, p), ClearedAlerts(s, p), CountdownAlerts(s, p, cfg),
      MacroAlerts(s, p));
  }

  lemma {:induction false} SelectFirst(
      kinds: AlertType -> bool, a: seq<AlertCandidate>, b: seq<AlertCandidate>, c: seq<AlertCandidate>,
      d: seq<AlertCandidate>, e: seq<AlertCandidate>)
    requires AllOf(kinds, a) && NoneOf(kinds, b) && NoneOf(kinds, c) && NoneOf(kinds, d) && NoneOf(kinds, e)
    ensures Filter(KindIn(kinds), a + b + c + d + e) == a
  {
    FirstOfFive(a, b, c, d, e);
    NoneOfAppend(kinds, b, c);
    NoneOfAppend(kinds, b + c, d);
    NoneOfAppend(kinds, b + c + d, e);
    SelectSplit(kinds, [], a, b + c + d + e);
  }

  lemma FirstOfFive(
      a: seq<AlertCandidate>, b: seq<AlertCandidate>, c: seq<AlertCandidate>, d: seq<AlertCandidate>,
      e: seq<AlertCandidate>)
    ensures a + b + c + d + e == [] + a + (b + c + d + e)
  {
  }

  /** The MACRO_SHIFT alerts of one cycle are those of the change of the available bias. */
  lemma MacroAlertsSelected(s: Snapshot, p: Memory, cfg: AlertConfig)
    requires Coherent(s)
    ensures Filter(KindIn(IsMacroKind), Alerts(s, Some(p), cfg)) == MacroAlerts(s, p)
  {
    SelectContext(s, p, cfg, IsMacroKind);
    var a, b, c, d := DataAlerts(s, p), BlackoutAlerts(s, p), ClearedAlerts(s, p), CountdownAlerts(s, p, cfg);
    NoneOfAppend(IsMacroKind, a, b);
    NoneOfAppend(IsMacroKind, a + b, c);
    NoneOfAppend(IsMacroKind, a + b + c, d);
    SelectSplit(IsMacroKind, a + b + c + d, MacroAlerts(s, p), []);
    assert ContextAlerts(s, p, cfg) == a + b + c + d + MacroAlerts(s, p) + [];
  }

  /** The NEWS_COUNTDOWN alerts of one cycle are those of the announced threshold. */
  lemma CountdownAlertsSelected(s: Snapshot, p: Memory, cfg: AlertConfig)
    requires Coherent(s)
    ensures Filter(KindIn(IsCountdownKind), Alerts(s, Some(p), cfg)) == CountdownAlerts(s, p, cfg)
  {
    SelectContext(s, p, cfg, IsCountdownKind);
    var before := DataAlerts(s, p) + BlackoutAlerts(s, p) + ClearedAlerts(s, p);
    SelectSplit(IsCountdownKind, before, CountdownAlerts(s, p, cfg), MacroAlerts(s, p));
  }

  /** Session, setup and warning alerts: what follows the lock alerts of one cycle. */
  function AfterLocks(s: Snapshot, p: Memory, cfg: AlertConfig): seq<AlertCandidate>
    requires s.run.Some? && s.evaluation.Some?
  {
    SessionAlerts(s, p) + NewOnes(p, Grace(s, p, cfg), FlatMap(SetupTag(s), s.run.value.events)) + WarningAlerts(s, p)
  }

  lemma NoLocksAfter(s: Snapshot, p: Memory, cfg: AlertConfig)
    requires s.run.Some? && s.evaluation.Some?
    ensures NoneOf(IsLockKind, AfterLocks(s, p, cfg))
  {
    var setups := NewOnes(p, Grace(s, p, cfg), FlatMap(SetupTag(s), s.run.value.events));
    forall i | 0 <= i < |setups| ensures !IsLockKind(setups[i].kind) {
      SetupTagsAreAmongIds(s);
      NewOnesKinds(s, p, Grace(s, p, cfg), FlatMap(SetupTag(s), s.run.value.events), setups[i]);
    }
    var warnings := WarningAlerts(s, p);
    forall i | 0 <= i < |warnings| ensures !IsLockKind(warnings[i].kind) {
      WarningKinds(s, p, warnings[i]);
    }
    NoneOfAppend(IsLockKind, SessionAlerts(s, p), setups);
    NoneOfAppend(IsLockKind, SessionAlerts(s, p) + setups, warnings);
  }

  lemma NoLocksInContext(s: Snapshot, p: Memory, cfg: AlertConfig)
    ensures NoneOf(IsLockKind, ContextAlerts(s, p, cfg))
  {
    var cs := ContextAlerts(s, p, cfg);
    forall i | 0 <= i < |cs| ensures !IsLockKind(cs[i].kind) {
      ContextKinds(s, p, cfg, cs[i]);
    }
  }

  lemma NoLocksInPipeline(s: Snapshot, p: Memory, pipe: Pipeline, cfg: AlertConfig)
    requires ShowsPipeline(s, pipe)
    ensures NoneOf(IsLockKind, PipelineAlerts(s, p, pipe, cfg))
  {
    var cs := PipelineAlerts(s, p, pipe, cfg);
    forall i | 0 <= i < |cs| ensures !IsLockKind(cs[i].kind) {
      PipelineIsNoLock(s, p, pipe, cfg, cs[i]);
    }
  }

  lemma PipelineIsNoLock(s: Snapshot, p: Memory, pipe: Pipeline, cfg: AlertConfig, c: AlertCandidate)
    requires ShowsPipeline(s, pipe) && c in PipelineAlerts(s, p, pipe, cfg)
    ensures !IsLockKind(c.kind)
  {
    if c in FlatMap(PoolAlerts(s, p, Grace(s, p, cfg)), pipe.pools) {
      PoolKinds(s, p, Grace(s, p, cfg), pipe.pools, c);
    } else {
      PipelineNewOnes(s, p, pipe, cfg, c);
      PipelineTagsAreAmongIds(s, pipe, cfg);
      NewOnesKinds(s, p, Grace(s, p, cfg), PipelineTags(s, pipe, cfg), c);
    }
  }

  lemma FirstOfFour(
      a: seq<AlertCandidate>, b: seq<AlertCandidate>, c: seq<AlertCandidate>, d: seq<AlertCandidate>,
      e: seq<AlertCandidate>)
    ensures a + b + c + d + e == a + (b + c + d + e)
  {
  }

  /** What follows the lock alerts in the market part. */
  function AfterLocksInMarket(s: Snapshot, p: Memory, cfg: AlertConfig): seq<AlertCandidate>
    requires s.run.Some? && s.evaluation.Some?
  {
    AfterLocks(s, p, cfg)
    + if s.run.value.pipeline.Some? then PipelineAlerts(s, p, s.run.value.pipeline.value, cfg) else []
  }

  lemma MarketStartsWithLocks(s: Snapshot, p: Memory, cfg: AlertConfig)
    requires s.Eligible() && s.run.Some?
    ensures MarketAlerts(s, p, cfg) == LockAlerts(s, p) + AfterLocksInMarket(s, p, cfg)
  {
    FirstOfFour(
      LockAlerts(s, p), SessionAlerts(s, p), NewOnes(p, Grace(s, p, cfg), FlatMap(SetupTag(s), s.run.value.events)),
      WarningAlerts(s, p),
      if s.run.value.pipeline.Some? then PipelineAlerts(s, p, s.run.value.pipeline.value, cfg) else []);
  }

  lemma NoLocksAfterInMarket(s: Snapshot, p: Memory, cfg: AlertConfig)
    requires s.run.Some? && s.evaluation.Some?
    ensures NoneOf(IsLockKind, AfterLocksInMarket(s, p, cfg))
  {
    NoLocksAfter(s, p, cfg);
    var events := if s.run.value.pipeline.Some? then PipelineAlerts(s, p, s.run.value.pipeline.value, cfg) else [];
    assert NoneOf(IsLockKind, events) by {
      if s.run.value.pipeline.Some? {
        NoLocksInPipeline(s, p, s.run.value.pipeline.value, cfg);
      }
    }
    NoneOfAppend(IsLockKind, AfterLocks(s, p, cfg), events);
  }

  /** Selecting a part that starts what follows a part without the kinds. */
  lemma {:induction false} SelectSecond(
      kinds: AlertType -> bool, before: seq<AlertCandidate>, part: seq<AlertCandidate>, after: seq<AlertCandidate>)
    requires NoneOf(kinds, before) && AllOf(kinds, part) && NoneOf(kinds, after)
    ensures Filter(KindIn(kinds), before + (part + after)) == part
  {
    SelectSplit(kinds, before, part, after);
    assert before + (part + after) == before + part + after;
  }

  /** The lock alerts of one cycle are those of the lock changes, and there are none on ineligible data. */
  lemma LockAlertsSelected(s: Snapshot, p: Memory, cfg: AlertConfig)
    requires Coherent(s)
    ensures Filter(KindIn(IsLockKind), Alerts(s, Some(p), cfg)) == if s.Eligible() then LockAlerts(s, p) else []
  {
    AlertsSplit(s, p, cfg);
    NoLocksInContext(s, p, cfg);
    if s.Eligible() {
      MarketStartsWithLocks(s, p, cfg);
      LocksAreLocks(s, p);
      NoLocksAfterInMarket(s, p, cfg);
      SelectSecond(IsLockKind, ContextAlerts(s, p, cfg), LockAlerts(s, p), AfterLocksInMarket(s, p, cfg));
    } else {
      SelectSecond(IsLockKind, ContextAlerts(s, p, cfg), [], []);
    }
  }

  lemma LocksAreLocks(s: Snapshot, p: Memory)
    ensures AllOf(IsLockKind, LockAlerts(s, p))
  {
    var cs := LockAlerts(s, p);
    forall i | 0 <= i < |cs| ensures IsLockKind(cs[i].kind) {
      LocksAreNoEvents(s, p, cs[i]);
    }
  }
}
