/** What the alert rules promise over whole runs of snapshots of one symbol. */
module AlertRuns {
  import opened Wrappers
  import opened Seqs
  import opened AlertModels
  import opened AlertRules

  // ---------------------------------------------------------------- runs

  /** The memory before snapshot `n`; none before the baseline. */
  function MemoryAt(snaps: seq<Snapshot>, cfg: AlertConfig, n: nat): Option<Memory>
    requires n <= |snaps|
  {
    if n == 0 then None else Some(NextMemory(snaps[n - 1], MemoryAt(snaps, cfg, n - 1), cfg))
  }

  ghost predicate CoherentRun(snaps: seq<Snapshot>) {
    forall i :: 0 <= i < |snaps| ==> Coherent(snaps[i])
  }

  function AlertsAt(snaps: seq<Snapshot>, cfg: AlertConfig, i: nat): seq<AlertCandidate>
    requires i < |snaps| && CoherentRun(snaps)
  {
    Alerts(snaps[i], MemoryAt(snaps, cfg, i), cfg)
  }

  /** Apart from countdowns and macro bias, memory shows the previous snapshot only. */
  lemma {:induction false} MemoryShowsPrevious(snaps: seq<Snapshot>, cfg: AlertConfig, n: nat)
    requires 0 < n <= |snaps|
    ensures var m, s := MemoryAt(snaps, cfg, n), snaps[n - 1];
            && m.Some? && m.value.seenIds == Ids(s) && m.value.verdict == s.verdict
            && m.value.asOf == (if s.run.Some? then s.run.value.asOf else None)
            && m.value.riskLocks == (if s.Risk().Some? then LockSet(s.Risk().value.locks) else {})
  {
  }

  // ---------------------------------------------------------------- novelty

  /** The analysis event an alert announces. */
  function KeyOf(c: AlertCandidate): EventKey {
    if IsSetupType(c.kind) then SetupKey(c.reference)
    else if c.kind == STRUCTURE_BREAK then StructureKey(c.reference)
    else if c.kind == EQUAL_LEVEL_CREATED then PoolKey(c.reference)
    else if c.kind == DISPLACEMENT then DisplacementKey(c.reference)
    else if c.kind == FVG_CREATED || c.kind == FVG_TOUCHED || c.kind == FVG_INVALIDATED then PdKey(c.reference)
    else if c.kind == NO_WICK_EVENT then NoWickKey(c.reference)
    else if c.kind == NO_WICK_REBALANCE then NoWickZoneKey(c.reference)
    else LiquidityKey(c.reference)
  }

  /** The tag agrees with the alert it carries. */
  ghost predicate WellTagged(s: Snapshot, t: Tagged) {
    && IsEventType(t.candidate.kind) && t.key == KeyOf(t.candidate) && t.at == t.candidate.occurredAt
    && t.key in Ids(s) && t.candidate.symbol == s.symbol
  }

  function PipelineTags(s: Snapshot, pipe: Pipeline, cfg: AlertConfig): seq<Tagged> {
    FlatMap(StructureTag(s), pipe.structure) + FlatMap(LiquidityTag(s), pipe.liquidity)
    + FlatMap(PoolTag(s), pipe.pools) + FlatMap(DisplacementTag(s, cfg), pipe.displacements)
    + FlatMap(PdTag(s, pipe.zones, cfg), pipe.pdEvents) + FlatMap(NoWickTag(s, cfg), pipe.noWick)
    + FlatMap(NoWickZoneTag(s), pipe.noWickZones)
  }

  /** Everything the snapshot could announce, whether new or not. */
  function Announceable(s: Snapshot, cfg: AlertConfig): seq<Tagged> {
    if s.run.None? then []
    else FlatMap(SetupTag(s), s.run.value.events)
         + if s.run.value.pipeline.Some? then PipelineTags(s, s.run.value.pipeline.value, cfg) else []
  }

  /** Tags made from single items are well tagged when every item's are. */
  lemma {:induction false} TagsOf<T>(s: Snapshot, tag: T -> seq<Tagged>, items: seq<T>)
    requires forall i :: 0 <= i < |items| ==> forall t :: t in tag(items[i]) ==> WellTagged(s, t)
    ensures forall t :: t in FlatMap(tag, items) ==> WellTagged(s, t)
  {
    forall t | t in FlatMap(tag, items) ensures WellTagged(s, t) {
      FlatMapMembers(tag, items, t);
    }
  }

  /** Every key that `derive` tests for novelty is among the ids of the same snapshot. */
  lemma TagsAreAmongIds(s: Snapshot, cfg: AlertConfig)
    ensures forall t :: t in Announceable(s, cfg) ==> WellTagged(s, t)
  {
    if s.run.Some? {
      SetupTagsAreAmongIds(s);
      if s.run.value.pipeline.Some? {
        PipelineTagsAreAmongIds(s, s.run.value.pipeline.value, cfg);
      }
    }
  }

  lemma SetupTagsAreAmongIds(s: Snapshot)
    requires s.run.Some?
    ensures forall t :: t in FlatMap(SetupTag(s), s.run.value.events) ==> WellTagged(s, t)
  {
    TagsOf(s, SetupTag(s), s.run.value.events);
  }

  ghost predicate ShowsPipeline(s: Snapshot, pipe: Pipeline) {
    s.run.Some? && s.run.value.pipeline == Some(pipe)
  }

  lemma StructureTagsAreAmongIds(s: Snapshot, pipe: Pipeline)
    requires ShowsPipeline(s, pipe)
    ensures forall t :: t in FlatMap(StructureTag(s), pipe.structure) ==> WellTagged(s, t)
  {
    TagsOf(s, StructureTag(s), pipe.structure);
  }

  lemma LiquidityTagsAreAmongIds(s: Snapshot, pipe: Pipeline)
    requires ShowsPipeline(s, pipe)
    ensures forall t :: t in FlatMap(LiquidityTag(s), pipe.liquidity) ==> WellTagged(s, t)
  {
    TagsOf(s, LiquidityTag(s), pipe.liquidity);
  }

  lemma PoolTagsAreAmongIds(s: Snapshot, pipe: Pipeline)
    requires ShowsPipeline(s, pipe)
    ensures forall t :: t in FlatMap(PoolTag(s), pipe.pools) ==> WellTagged(s, t)
  {
    TagsOf(s, PoolTag(s), pipe.pools);
  }

  lemma DisplacementTagsAreAmongIds(s: Snapshot, pipe: Pipeline, cfg: AlertConfig)
    requires ShowsPipeline(s, pipe)
    ensures forall t :: t in FlatMap(DisplacementTag(s, cfg), pipe.displacements) ==> WellTagged(s, t)
  {
    TagsOf(s, DisplacementTag(s, cfg), pipe.displacements);
  }

  lemma PdTagsAreAmongIds(s: Snapshot, pipe: Pipeline, cfg: AlertConfig)
    requires ShowsPipeline(s, pipe)
    ensures forall t :: t in FlatMap(PdTag(s, pipe.zones, cfg), pipe.pdEvents) ==> WellTagged(s, t)
  {
    TagsOf(s, PdTag(s, pipe.zones, cfg), pipe.pdEvents);
  }

  lemma NoWickTagsAreAmongIds(s: Snapshot, pipe: Pipeline, cfg: AlertConfig)
    requires ShowsPipeline(s, pipe)
    ensures forall t :: t in FlatMap(NoWickTag(s, cfg), pipe.noWick) ==> WellTagged(s, t)
  {
    TagsOf(s, NoWickTag(s, cfg), pipe.noWick);
  }

  lemma NoWickZoneTagsAreAmongIds(s: Snapshot, pipe: Pipeline)
    requires ShowsPipeline(s, pipe)
    ensures forall t :: t in FlatMap(NoWickZoneTag(s), pipe.noWickZones) ==> WellTagged(s, t)
  {
    TagsOf(s, NoWickZoneTag(s), pipe.noWickZones);
  }

  lemma PipelineTagsAreAmongIds(s: Snapshot, pipe: Pipeline, cfg: AlertConfig)
    requires ShowsPipeline(s, pipe)
    ensures forall t :: t in PipelineTags(s, pipe, cfg) ==> WellTagged(s, t)
  {
    StructureTagsAreAmongIds(s, pipe);
    LiquidityTagsAreAmongIds(s, pipe);
    PoolTagsAreAmongIds(s, pipe);
    DisplacementTagsAreAmongIds(s, pipe, cfg);
    PdTagsAreAmongIds(s, pipe, cfg);
    NoWickTagsAreAmongIds(s, pipe, cfg);
    NoWickZoneTagsAreAmongIds(s, pipe);
  }

  lemma NewOnesMembers(p: Memory, grace: Option<int>, ts: seq<Tagged>, c: AlertCandidate)
    ensures c in NewOnes(p, grace, ts)
            <==> exists i :: 0 <= i < |ts| && ts[i].candidate == c && IsNew(p, grace, ts[i].key, ts[i].at)
  {
    FlatMapMembers(WhenNew(p, grace), ts, c);
    forall i | 0 <= i < |ts|
      ensures c in WhenNew(p, grace)(ts[i]) <==> ts[i].candidate == c && IsNew(p, grace, ts[i].key, ts[i].at) {
    }
  }

  /** Alerts about pools that are not approach alerts are those of new equal levels. */
  lemma {:induction false} PoolEventAlerts(
      s: Snapshot, p: Memory, grace: Option<int>, pools: seq<Pool>, c: AlertCandidate)
    requires IsEventType(c.kind)
    ensures c in FlatMap(PoolAlerts(s, p, grace), pools) <==> c in NewOnes(p, grace, FlatMap(PoolTag(s), pools))
    decreases |pools|
  {
    if |pools| != 0 {
      var front, last := pools[..|pools| - 1], pools[|pools| - 1];
      PoolEventAlerts(s, p, grace, front, c);
      FlatMapAppend(WhenNew(p, grace), FlatMap(PoolTag(s), front), PoolTag(s)(last));
    }
  }

  predicate IsContextKind(t: AlertType) {
    t.DATA_UNAVAILABLE? || t.DATA_RESTORED? || t.NEWS_BLACKOUT? || t.NEWS_CLEARED? || t.NEWS_COUNTDOWN?
    || t.MACRO_SHIFT?
  }

  lemma ContextKinds(s: Snapshot, p: Memory, cfg: AlertConfig, c: AlertCandidate)
    requires c in ContextAlerts(s, p, cfg)
    ensures IsContextKind(c.kind) && c.symbol == s.symbol
  {
  }

  lemma ContextKindsAreNoEvents(t: AlertType)
    requires IsContextKind(t)
    ensures !IsEventType(t)
  {
  }

  lemma ContextHasNoEvents(s: Snapshot, p: Memory, cfg: AlertConfig, c: AlertCandidate)
    requires c in ContextAlerts(s, p, cfg)
    ensures !IsEventType(c.kind)
  {
    ContextKinds(s, p, cfg, c);
    ContextKindsAreNoEvents(c.kind);
  }

  lemma LocksAreNoEvents(s: Snapshot, p: Memory, c: AlertCandidate)
    requires c in LockAlerts(s, p)
    ensures c.kind == RISK_LOCK || c.kind == RISK_LOCK_CLEARED
  {
  }

  lemma WarningsAreNoEvents(s: Snapshot, p: Memory, c: AlertCandidate)
    requires s.evaluation.Some? && c in WarningAlerts(s, p)
    ensures c.kind == EARLY_ENTRY_WARNING
  {
    var setup := s.Current().value;
    FlatMapMembers(WarningAlert(s, setup, FreshWarnings(setup, s.evaluation.value.warnings, p)), WARNINGS, c);
  }

  lemma StateEvents(s: Snapshot, p: Memory, cfg: AlertConfig, c: AlertCandidate)
    requires s.run.Some? && s.evaluation.Some? && IsEventType(c.kind)
    ensures c in StateAlerts(s, p, cfg)
            <==> c in NewOnes(p, Grace(s, p, cfg), FlatMap(SetupTag(s), s.run.value.events))
  {
    if c in LockAlerts(s, p) {
      LocksAreNoEvents(s, p, c);
    }
    if c in WarningAlerts(s, p) {
      WarningsAreNoEvents(s, p, c);
    }
  }

  lemma NewOnesAppend(p: Memory, grace: Option<int>, a: seq<Tagged>, b: seq<Tagged>)
    ensures NewOnes(p, grace, a + b) == NewOnes(p, grace, a) + NewOnes(p, grace, b)
  {
    FlatMapAppend(WhenNew(p, grace), a, b);
  }

  lemma PipelineEvents(s: Snapshot, p: Memory, pipe: Pipeline, cfg: AlertConfig, c: AlertCandidate)
    requires s.run.Some? && IsEventType(c.kind)
    ensures c in PipelineAlerts(s, p, pipe, cfg)
            <==> c in NewOnes(p, Grace(s, p, cfg), PipelineTags(s, pipe, cfg))
  {
    var g := Grace(s, p, cfg);
    var t1, t2 := FlatMap(StructureTag(s), pipe.structure), FlatMap(LiquidityTag(s), pipe.liquidity);
    var t3, t4 := FlatMap(PoolTag(s), pipe.pools), FlatMap(DisplacementTag(s, cfg), pipe.displacements);
    var t5, t6 := FlatMap(PdTag(s, pipe.zones, cfg), pipe.pdEvents), FlatMap(NoWickTag(s, cfg), pipe.noWick);
    var t7 := FlatMap(NoWickZoneTag(s), pipe.noWickZones);
    PoolEventAlerts(s, p, g, pipe.pools, c);
    NewOnesAppend(p, g, t1, t2);
    NewOnesAppend(p, g, t1 + t2, t3);
    NewOnesAppend(p, g, t1 + t2 + t3, t4);
    NewOnesAppend(p, g, t1 + t2 + t3 + t4, t5);
    NewOnesAppend(p, g, t1 + t2 + t3 + t4 + t5, t6);
    NewOnesAppend(p, g, t1 + t2 + t3 + t4 + t5 + t6, t7);
  }

  lemma AlertsOfEligible(s: Snapshot, p: Memory, cfg: AlertConfig, c: AlertCandidate)
    requires Coherent(s) && s.Eligible() && IsEventType(c.kind)
    ensures c in Alerts(s, Some(p), cfg) <==> c in NewOnes(p, Grace(s, p, cfg), Announceable(s, cfg))
  {
    var grace, setups := Grace(s, p, cfg), FlatMap(SetupTag(s), s.run.value.events);
    if c in ContextAlerts(s, p, cfg) {
      ContextHasNoEvents(s, p, cfg, c);
    }
    StateEvents(s, p, cfg, c);
    if s.run.value.pipeline.Some? {
      var pipe := s.run.value.pipeline.value;
      PipelineEvents(s, p, pipe, cfg, c);
      NewOnesAppend(p, grace, setups, PipelineTags(s, pipe, cfg));
    } else {
      assert setups + [] == setups;
    }
  }

  /** Being among the new tagged alerts, told by the alert itself. */
  lemma NewByKey(s: Snapshot, p: Memory, grace: Option<int>, ts: seq<Tagged>, c: AlertCandidate)
    requires forall t :: t in ts ==> WellTagged(s, t)
    ensures c in NewOnes(p, grace, ts)
            <==> (exists t :: t in ts && t.candidate == c) && IsNew(p, grace, KeyOf(c), c.occurredAt)
  {
    NewOnesMembers(p, grace, ts, c);
    if t :| t in ts && t.candidate == c {
      var i :| 0 <= i < |ts| && ts[i] == t;
      assert WellTagged(s, ts[i]);
    }
    forall i | 0 <= i < |ts| ensures ts[i] in ts && WellTagged(s, ts[i]) {
    }
  }

  /**
   * An event alert is raised exactly when the data is eligible, the snapshot can announce it, and its key was not
   * among the ids of the previous snapshot nor its time before the grace limit.
   */
  lemma EventAlertsAreTheNewOnes(s: Snapshot, p: Memory, cfg: AlertConfig, c: AlertCandidate)
    requires Coherent(s) && IsEventType(c.kind)
    ensures c in Alerts(s, Some(p), cfg)
            <==> s.Eligible() && (exists t :: t in Announceable(s, cfg) && t.candidate == c)
                 && IsNew(p, Grace(s, p, cfg), KeyOf(c), c.occurredAt)
  {
    if s.Eligible() {
      AlertsOfEligible(s, p, cfg, c);
      TagsAreAmongIds(s, cfg);
      NewByKey(s, p, Grace(s, p, cfg), Announceable(s, cfg), c);
    } else if c in ContextAlerts(s, p, cfg) {
      ContextHasNoEvents(s, p, cfg, c);
    }
  }

  // ---------------------------------------------------------------- novelty over runs

  /** An alert for the analysis event `key` is raised at step `i`. */
  ghost predicate Announces(snaps: seq<Snapshot>, cfg: AlertConfig, i: nat, key: EventKey)
    requires i < |snaps| && CoherentRun(snaps)
  {
    exists c :: c in AlertsAt(snaps, cfg, i) && IsEventType(c.kind) && KeyOf(c) == key
  }

  /**
   * An event is announced only at the first snapshot of a stretch that shows it, on eligible data, never at the
   * baseline, and never when the previous as-of is more than the grace bars past the event's time.
   */
  lemma AnnouncedAtStartOfStretch(snaps: seq<Snapshot>, cfg: AlertConfig, i: nat, c: AlertCandidate)
    requires i < |snaps| && CoherentRun(snaps) && c in AlertsAt(snaps, cfg, i) && IsEventType(c.kind)
    ensures i > 0 && snaps[i].Eligible()
    ensures KeyOf(c) in Ids(snaps[i]) && KeyOf(c) !in Ids(snaps[i - 1])
    ensures var before := snaps[i - 1].run;
            before.Some? && before.value.asOf.Some? ==>
              before.value.asOf.value - c.occurredAt <= snaps[i].run.value.barLength * cfg.noveltyGraceBars
  {
    if i > 0 {
      MemoryShowsPrevious(snaps, cfg, i);
      EventAlertsAreTheNewOnes(snaps[i], MemoryAt(snaps, cfg, i).value, cfg, c);
      TagsAreAmongIds(snaps[i], cfg);
    }
  }

  /**
   * While an event stays visible it is announced at most at the first snapshot of the stretch; not at all when the
   * stretch starts at the baseline or on ineligible data.
   */
  lemma SilentStretch(snaps: seq<Snapshot>, cfg: AlertConfig, a: nat, b: nat, key: EventKey)
    requires a <= b < |snaps| && CoherentRun(snaps) && forall j :: a <= j <= b ==> key in Ids(snaps[j])
    ensures forall j :: a < j <= b ==> !Announces(snaps, cfg, j, key)
    ensures a == 0 || !snaps[a].Eligible() ==> !Announces(snaps, cfg, a, key)
  {
    forall j | a <= j <= b && Announces(snaps, cfg, j, key) ensures j == a && a > 0 && snaps[a].Eligible() {
      var c :| c in AlertsAt(snaps, cfg, j) && IsEventType(c.kind) && KeyOf(c) == key;
      if j > a {
        assert key in Ids(snaps[j - 1]);
      }
      AnnouncedAtStartOfStretch(snaps, cfg, j, c);
    }
  }
}
