/**
 * What each cycle raises, told by the fields of the snapshots alone: the rules compare a snapshot with a memory, the
 * law compares it with the snapshots before.
 */
module EventLaws {
  import opened Wrappers
  import opened Seqs
  import opened Text
  import opened AlertModels
  import opened AlertRules
  import opened AlertRuns
  import opened StreamTraces
  import opened StateTraces

  // ---------------------------------------------------------------- fields of a snapshot

  /** The data may be decided on. */
  predicate Decidable(s: Snapshot) {
    s.evaluation.Some? && s.evaluation.value.eligible && s.verdict != UNAVAILABLE
  }

  /** Not older than the as-of of the cycle before, give or take the grace bars. */
  predicate InTime(before: Snapshot, s: Snapshot, cfg: AlertConfig, at: int) {
    before.run.Some? && before.run.value.asOf.Some? && s.run.Some? ==>
      at >= before.run.value.asOf.value - s.run.value.barLength * cfg.noveltyGraceBars
  }

  function NewsShown(s: Snapshot): Option<News> {
    if s.evaluation.Some? then s.evaluation.value.news else None
  }

  function SetupShown(s: Snapshot): Option<Setup> {
    if s.run.Some? then s.run.value.current else None
  }

  function SetupEvents(s: Snapshot): seq<SetupEvent> {
    if s.run.Some? then s.run.value.events else []
  }

  const NO_PIPELINE := Pipeline([], [], [], [], [], [], [], [])

  function Shown(s: Snapshot): Pipeline {
    if s.run.Some? && s.run.value.pipeline.Some? then s.run.value.pipeline.value else NO_PIPELINE
  }

  // ---------------------------------------------------------------- the eight lists of analysis events

  /** The event is announced when its state means an alert, the cycle before did not show it, and it is in time. */
  function SetupTold(before: Snapshot, s: Snapshot, cfg: AlertConfig): SetupEvent -> seq<AlertCandidate> {
    (e: SetupEvent) =>
      if !InTime(before, s, cfg, e.time)
         || exists m :: 0 <= m < |SetupEvents(before)| && SetupEvents(before)[m].id == e.id then []
      else
        var told := (t: AlertType) => [AlertCandidate(t, s.symbol, e.id, e.time, Some(e.price), Some(e.direction))];
        match e.state
        case ARMED => told(SETUP_ARMED)
        case ZONE_APPROACHING => told(ENTRY_ZONE_APPROACHING)
        case ZONE_TOUCHED => told(ENTRY_ZONE_TOUCHED)
        case BLOCKED => told(ENTRY_CONFIRMED_PENDING_GATES)
        case MISSED => told(ENTRY_MISSED)
        case INVALIDATED_SETUP => told(SETUP_INVALIDATED)
        case EXPIRED_SETUP => told(SETUP_EXPIRED)
        case OTHER_STATE => []
  }

  function StructureTold(before: Snapshot, s: Snapshot, cfg: AlertConfig): StructureEvent -> seq<AlertCandidate> {
    (e: StructureEvent) =>
      if e.confirmed && InTime(before, s, cfg, e.time)
         && forall m :: 0 <= m < |Shown(before).structure| ==> Shown(before).structure[m].id != e.id
      then [AlertCandidate(STRUCTURE_BREAK, s.symbol, e.id, e.time, Some(e.price), Some(e.direction))]
      else []
  }

  const DAY_AND_WEEK: set<PoolType> := {PDH, PDL, PWH, PWL}
  const SESSION_RANGES: set<PoolType> := {
    ASIA_HIGH, ASIA_LOW, LONDON_HIGH, LONDON_LOW, NY_AM_HIGH, NY_AM_LOW, NY_PM_HIGH, NY_PM_LOW
  }

  function LiquidityTold(before: Snapshot, s: Snapshot, cfg: AlertConfig): LiquidityEvent -> seq<AlertCandidate> {
    (e: LiquidityEvent) =>
      var told := (t: AlertType) => [AlertCandidate(t, s.symbol, e.id, e.time, Some(e.price), None)];
      var swept, broken := e.kind.SWEEP?, e.kind.BREAK? || e.kind.RUN_THROUGH?;
      if !InTime(before, s, cfg, e.time)
         || exists m :: 0 <= m < |Shown(before).liquidity| && Shown(before).liquidity[m].id == e.id then []
      else if e.poolType in DAY_AND_WEEK then told(KEY_LEVEL_INTERACTION)
      else if e.poolType in SESSION_RANGES && (swept || broken) then told(SESSION_LIQUIDITY_EVENT)
      else if e.poolType !in SESSION_RANGES && swept then told(LIQUIDITY_SWEEP)
      else if e.poolType !in SESSION_RANGES && broken then told(LIQUIDITY_RUN)
      else []
  }

  function EqualLevelTold(before: Snapshot, s: Snapshot, cfg: AlertConfig): Pool -> seq<AlertCandidate> {
    (x: Pool) =>
      if (x.kind.EQH? || x.kind.EQL?) && InTime(before, s, cfg, x.knownAt)
         && forall m :: 0 <= m < |Shown(before).pools| ==> Shown(before).pools[m].id != x.id
      then [AlertCandidate(EQUAL_LEVEL_CREATED, s.symbol, x.id, x.knownAt, Some(x.price), None)]
      else []
  }

  function ApproachTold(before: Snapshot, s: Snapshot): Pool -> seq<AlertCandidate> {
    (x: Pool) =>
      if x.approaching && x.external && !x.taken
         && forall m :: 0 <= m < |Shown(before).pools| && Shown(before).pools[m].approaching ==>
              Shown(before).pools[m].id != x.id
      then [AlertCandidate(LIQUIDITY_APPROACHING, s.symbol, x.id, s.now, Some(x.price), None)]
      else []
  }

  function PoolTold(before: Snapshot, s: Snapshot, cfg: AlertConfig): Pool -> seq<AlertCandidate> {
    (x: Pool) => EqualLevelTold(before, s, cfg)(x) + ApproachTold(before, s)(x)
  }

  function DisplacementTold(before: Snapshot, s: Snapshot, cfg: AlertConfig): Displacement -> seq<AlertCandidate> {
    (d: Displacement) =>
      if d.rank >= cfg.minDisplacementRank && InTime(before, s, cfg, d.time)
         && forall m :: 0 <= m < |Shown(before).displacements| ==>
              Shown(before).displacements[m].id + ":" + Shown(before).displacements[m].grade != d.id + ":" + d.grade
      then [AlertCandidate(DISPLACEMENT, s.symbol, d.id + ":" + d.grade, d.time, None, Some(d.direction))]
      else []
  }

  /** The last zone listed under the id was born from a displacement of at least the minimum. */
  predicate BornStrong(zones: seq<Zone>, id: string, cfg: AlertConfig) {
    exists m :: 0 <= m < |zones| && zones[m].id == id && (forall n :: m < n < |zones| ==> zones[n].id != id)
                && zones[m].displacementRank.Some? && zones[m].displacementRank.value >= cfg.minDisplacementRank
  }

  function PdTold(before: Snapshot, s: Snapshot, cfg: AlertConfig): PdEvent -> seq<AlertCandidate> {
    (e: PdEvent) =>
      var told := (t: AlertType) => [AlertCandidate(t, s.symbol, e.id, e.time, Some(e.price), Some(e.direction))];
      if !InTime(before, s, cfg, e.time)
         || exists m :: 0 <= m < |Shown(before).pdEvents| && Shown(before).pdEvents[m].id == e.id then []
      else if !(SetupShown(s).Some? && e.zoneId in SetupShown(s).value.zoneIds)
              && !BornStrong(Shown(s).zones, e.zoneId, cfg) then []
      else if e.kind.CREATED? || e.kind.IFVG_CONFIRMED? then told(FVG_CREATED)
      else if e.kind.TOUCHED? then told(FVG_TOUCHED)
      else if e.kind.INVALIDATED_ZONE? then told(FVG_INVALIDATED)
      else []
  }

  function NoWickTold(before: Snapshot, s: Snapshot, cfg: AlertConfig): NoWickEvent -> seq<AlertCandidate> {
    (e: NoWickEvent) =>
      if e.rank >= cfg.minNoWickRank && InTime(before, s, cfg, e.time)
         && forall m :: 0 <= m < |Shown(before).noWick| ==> Shown(before).noWick[m].id != e.id
      then [AlertCandidate(NO_WICK_EVENT, s.symbol, e.id, e.time, Some(e.close), Some(e.direction))]
      else []
  }

  function RebalanceTold(before: Snapshot, s: Snapshot, cfg: AlertConfig): NoWickZoneEvent -> seq<AlertCandidate> {
    (e: NoWickZoneEvent) =>
      if (e.kind.FULLY_REBALANCED? || e.kind.REACTED? || e.kind.FAILED?) && InTime(before, s, cfg, e.time)
         && forall m :: 0 <= m < |Shown(before).noWickZones| ==> Shown(before).noWickZones[m].id != e.id
      then [AlertCandidate(NO_WICK_REBALANCE, s.symbol, e.id, e.time, Some(e.price), Some(e.direction))]
      else []
  }

  // ---------------------------------------------------------------- changes of state

  function Now(t: AlertType, s: Snapshot, reference: string): AlertCandidate {
    AlertCandidate(t, s.symbol, reference, s.now, None, None)
  }

  function DataTold(before: Snapshot, s: Snapshot): seq<AlertCandidate> {
    if before.verdict != UNAVAILABLE && s.verdict == UNAVAILABLE then [Now(DATA_UNAVAILABLE, s, "decision")]
    else if before.verdict == UNAVAILABLE && s.verdict != UNAVAILABLE then [Now(DATA_RESTORED, s, "decision")]
    else []
  }

  predicate InBlackout(s: Snapshot) {
    NewsShown(s).Some? && NewsShown(s).value.state.BLACKOUT?
  }

  predicate InNewsWindow(s: Snapshot) {
    NewsShown(s).Some? && (NewsShown(s).value.state.BLACKOUT? || NewsShown(s).value.state.POST_NEWS_WAIT?)
  }

  function NewsTold(before: Snapshot, s: Snapshot): seq<AlertCandidate> {
    if InBlackout(s) && !InBlackout(before) && NewsShown(s).value.activeEvent.Some?
    then [Now(NEWS_BLACKOUT, s, NewsShown(s).value.activeEvent.value.id)]
    else if NewsShown(s).Some? && InNewsWindow(before) && !InNewsWindow(s) then [Now(NEWS_CLEARED, s, "news")]
    else []
  }

  /** The news show an important event that is at most `m` minutes away. */
  predicate Within(s: Snapshot, id: string, m: int) {
    && NewsShown(s).Some? && NewsShown(s).value.nextEvent.Some?
    && var e := NewsShown(s).value.nextEvent.value;
       && e.id == id && (e.importance.HIGH_IMPORTANCE? || e.importance.EXTREME_IMPORTANCE?)
       && e.minutesToEvent <= m as real
  }

  /** One of the first `n` snapshots was that close to the event, and all since then show news. */
  ghost predicate WasWithin(snaps: seq<Snapshot>, n: nat, id: string, m: int)
    requires n <= |snaps|
  {
    exists j :: 0 <= j < n && Within(snaps[j], id, m) && forall k :: j <= k < n ==> NewsShown(snaps[k]).Some?
  }

  /** The threshold is configured, reached now, and not reached before. */
  ghost predicate NewlyWithin(snaps: seq<Snapshot>, cfg: AlertConfig, i: nat, id: string, m: int)
    requires i < |snaps|
  {
    m in cfg.countdownMinutes && Within(snaps[i], id, m) && !WasWithin(snaps, i, id, m)
  }

  ghost predicate IsCountdown(snaps: seq<Snapshot>, cfg: AlertConfig, i: nat, id: string, m: int)
    requires i < |snaps|
  {
    NewlyWithin(snaps, cfg, i, id, m) && forall x :: NewlyWithin(snaps, cfg, i, id, x) ==> m <= x
  }

  /** One countdown for the least threshold newly reached, or none when none was. */
  ghost predicate CountdownTold(snaps: seq<Snapshot>, cfg: AlertConfig, i: nat, out: seq<AlertCandidate>)
    requires i < |snaps|
  {
    || (exists id, m :: IsCountdown(snaps, cfg, i, id, m)
                        && out == [Now(NEWS_COUNTDOWN, snaps[i], id + ":" + IntText(m))])
    || (out == [] && forall id, m :: !NewlyWithin(snaps, cfg, i, id, m))
  }

  function BiasShown(s: Snapshot): Option<MacroBias> {
    if s.evaluation.Some? && s.evaluation.value.macro.Some? && s.evaluation.value.macro.value.available
    then Some(s.evaluation.value.macro.value.bias) else None
  }

  /** The bias of the last of the first `n` snapshots that shows one. */
  function LastBias(snaps: seq<Snapshot>, n: nat): Option<MacroBias>
    requires n <= |snaps|
  {
    if n == 0 then None else if BiasShown(snaps[n - 1]).Some? then BiasShown(snaps[n - 1]) else LastBias(snaps, n - 1)
  }

  function MacroTold(before: Option<MacroBias>, s: Snapshot): seq<AlertCandidate> {
    if BiasShown(s).Some? && before.Some? && BiasShown(s).value != before.value
    then [Now(MACRO_SHIFT, s, BiasName(before.value) + ">" + BiasName(BiasShown(s).value))] else []
  }

  function LocksOf(s: Snapshot): seq<RiskLock> {
    if s.evaluation.Some? && s.evaluation.value.risk.Some? then s.evaluation.value.risk.value.locks else []
  }

  function LockTold(before: Snapshot, s: Snapshot): RiskLock -> seq<AlertCandidate> {
    (l: RiskLock) => if l !in LocksOf(before) then [Now(RISK_LOCK, s, LockName(l))] else []
  }

  function LockEndTold(before: Snapshot, s: Snapshot): RiskLock -> seq<AlertCandidate> {
    (l: RiskLock) => if l in LocksOf(before) && l !in LocksOf(s) then [Now(RISK_LOCK_CLEARED, s, LockName(l))] else []
  }

  function LocksTold(before: Snapshot, s: Snapshot): seq<AlertCandidate> {
    if s.evaluation.Some? && s.evaluation.value.risk.Some?
    then FlatMap(LockTold(before, s), LocksOf(s)) + FlatMap(LockEndTold(before, s), LOCKS) else []
  }

  function SessionsOf(s: Snapshot): set<Session> {
    if s.run.Some? then s.run.value.sessions else {}
  }

  function SessionsTold(before: Snapshot, s: Snapshot): seq<AlertCandidate> {
    if SessionsOf(s) == SessionsOf(before) then []
    else [Now(SESSION_CHANGE, s, ShiftText(
           SessionShift(SessionsOf(s) - SessionsOf(before), SessionsOf(before) - SessionsOf(s))))]
  }

  /** The open setup shows the warning, and the cycle before did not show it for the same setup. */
  function WarningTold(before: Snapshot, s: Snapshot): EntryWarning -> seq<AlertCandidate> {
    (w: EntryWarning) =>
      if SetupShown(s).Some? && s.evaluation.Some? && w in s.evaluation.value.warnings
         && !(SetupShown(before).Some? && SetupShown(before).value.id == SetupShown(s).value.id
              && before.evaluation.Some? && w in before.evaluation.value.warnings)
      then [AlertCandidate(
              EARLY_ENTRY_WARNING, s.symbol, SetupShown(s).value.id + ":" + WarningName(w), s.now, None,
              Some(SetupShown(s).value.direction))]
      else []
  }

  // ---------------------------------------------------------------- the whole cycle

  function PipelineTold(before: Snapshot, s: Snapshot, cfg: AlertConfig): seq<AlertCandidate> {
    FlatMap(StructureTold(before, s, cfg), Shown(s).structure)
    + FlatMap(LiquidityTold(before, s, cfg), Shown(s).liquidity)
    + FlatMap(PoolTold(before, s, cfg), Shown(s).pools)
    + FlatMap(DisplacementTold(before, s, cfg), Shown(s).displacements)
    + FlatMap(PdTold(before, s, cfg), Shown(s).pdEvents)
    + FlatMap(NoWickTold(before, s, cfg), Shown(s).noWick)
    + FlatMap(RebalanceTold(before, s, cfg), Shown(s).noWickZones)
  }

  function MarketTold(before: Snapshot, s: Snapshot, cfg: AlertConfig): seq<AlertCandidate> {
    LocksTold(before, s) + SessionsTold(before, s) + FlatMap(SetupTold(before, s, cfg), SetupEvents(s))
    + FlatMap(WarningTold(before, s), WARNINGS) + PipelineTold(before, s, cfg)
  }

  /** The memory that one snapshot leaves, as far as it is that snapshot's alone. */
  lemma {:induction false} PreviousShown(snaps: seq<Snapshot>, cfg: AlertConfig, n: nat)
    requires 0 < n <= |snaps|
    ensures Follows(MemoryAt(snaps, cfg, n).value, snaps[n - 1])
  {
  }

  ghost predicate Follows(p: Memory, before: Snapshot) {
    && p.seenIds == Ids(before) && p.verdict == before.verdict && p.approachingPools == ApproachingPools(before)
    && p.asOf == (if before.run.Some? then before.run.value.asOf else None)
    && p.riskLocks == (if before.Risk().Some? then LockSet(before.Risk().value.locks) else {})
    && p.sessions == SessionsOf(before)
    && p.setupId == (if SetupShown(before).Some? then Some(SetupShown(before).value.id) else None)
    && p.warnings == (if before.evaluation.Some? then before.evaluation.value.warnings else {})
    && p.newsState == (if NewsShown(before).Some? then Some(NewsShown(before).value.state) else None)
  }

  lemma InTimeIs(before: Snapshot, s: Snapshot, p: Memory, cfg: AlertConfig, key: EventKey, at: int)
    requires Follows(p, before) && s.run.Some?
    ensures IsNew(p, Grace(s, p, cfg), key, at) <==> key !in Ids(before) && InTime(before, s, cfg, at)
  {
  }

  /** Alerts of new tags, item by item. */
  lemma {:induction false} NewOnesByItem<T>(
      p: Memory, grace: Option<int>, tag: T -> seq<Tagged>, told: T -> seq<AlertCandidate>, items: seq<T>)
    requires forall k :: 0 <= k < |items| ==> FlatMap(WhenNew(p, grace), tag(items[k])) == told(items[k])
    ensures NewOnes(p, grace, FlatMap(tag, items)) == FlatMap(told, items)
  {
    if |items| != 0 {
      var front, last := items[..|items| - 1], items[|items| - 1];
      NewOnesByItem(p, grace, tag, told, front);
      FlatMapAppend(WhenNew(p, grace), FlatMap(tag, front), tag(last));
    }
  }

  lemma FlatMapOne<T, U>(f: T -> seq<U>, x: T)
    ensures FlatMap(f, [x]) == f(x) && FlatMap(f, []) == []
  {
    assert [x][..0] == [];
  }

  /** The ids of a snapshot are those of its setup events and of its pipeline. */
  lemma KeysSplit(s: Snapshot, key: EventKey)
    ensures key.SetupKey? ==>
              (key in Ids(s) <==> exists m :: 0 <= m < |SetupEvents(s)| && SetupEvents(s)[m].id == key.id)
    ensures !key.SetupKey? ==> (key in Ids(s) <==> key in PipelineIds(Shown(s)))
  {
    var events := SetupEvents(s);
    if key.SetupKey? && key in Ids(s) {
      var m :| 0 <= m < |events| && SetupKey(events[m].id) == key;
    }
    if m :| 0 <= m < |events| && key.SetupKey? && events[m].id == key.id {
      assert SetupKey(events[m].id) in Ids(s);
    }
    assert PipelineIds(NO_PIPELINE) == {};
  }

  lemma StructureKeysShown(s: Snapshot, id: string)
    ensures StructureKey(id) in Ids(s) <==> exists m :: 0 <= m < |Shown(s).structure| && Shown(s).structure[m].id == id
  {
    var xs := Shown(s).structure;
    KeysSplit(s, StructureKey(id));
    if StructureKey(id) in PipelineIds(Shown(s)) {
      var m :| 0 <= m < |xs| && StructureKey(xs[m].id) == StructureKey(id);
    }
    if m :| 0 <= m < |xs| && xs[m].id == id {
      assert StructureKey(xs[m].id) in PipelineIds(Shown(s));
    }
  }

  lemma LiquidityKeysShown(s: Snapshot, id: string)
    ensures LiquidityKey(id) in Ids(s) <==> exists m :: 0 <= m < |Shown(s).liquidity| && Shown(s).liquidity[m].id == id
  {
    var xs := Shown(s).liquidity;
    KeysSplit(s, LiquidityKey(id));
    if LiquidityKey(id) in PipelineIds(Shown(s)) {
      var m :| 0 <= m < |xs| && LiquidityKey(xs[m].id) == LiquidityKey(id);
    }
    if m :| 0 <= m < |xs| && xs[m].id == id {
      assert LiquidityKey(xs[m].id) in PipelineIds(Shown(s));
    }
  }

  lemma PoolKeysShown(s: Snapshot, id: string)
    ensures PoolKey(id) in Ids(s) <==> exists m :: 0 <= m < |Shown(s).pools| && Shown(s).pools[m].id == id
  {
    var xs := Shown(s).pools;
    KeysSplit(s, PoolKey(id));
    if PoolKey(id) in PipelineIds(Shown(s)) {
      var m :| 0 <= m < |xs| && PoolKey(xs[m].id) == PoolKey(id);
    }
    if m :| 0 <= m < |xs| && xs[m].id == id {
      assert PoolKey(xs[m].id) in PipelineIds(Shown(s));
    }
  }

  lemma PdKeysShown(s: Snapshot, id: string)
    ensures PdKey(id) in Ids(s) <==> exists m :: 0 <= m < |Shown(s).pdEvents| && Shown(s).pdEvents[m].id == id
  {
    var xs := Shown(s).pdEvents;
    KeysSplit(s, PdKey(id));
    if PdKey(id) in PipelineIds(Shown(s)) {
      var m :| 0 <= m < |xs| && PdKey(xs[m].id) == PdKey(id);
    }
    if m :| 0 <= m < |xs| && xs[m].id == id {
      assert PdKey(xs[m].id) in PipelineIds(Shown(s));
    }
  }

  lemma NoWickKeysShown(s: Snapshot, id: string)
    ensures NoWickKey(id) in Ids(s) <==> exists m :: 0 <= m < |Shown(s).noWick| && Shown(s).noWick[m].id == id
  {
    var xs := Shown(s).noWick;
    KeysSplit(s, NoWickKey(id));
    if NoWickKey(id) in PipelineIds(Shown(s)) {
      var m :| 0 <= m < |xs| && NoWickKey(xs[m].id) == NoWickKey(id);
    }
    if m :| 0 <= m < |xs| && xs[m].id == id {
      assert NoWickKey(xs[m].id) in PipelineIds(Shown(s));
    }
  }

  lemma NoWickZoneKeysShown(s: Snapshot, id: string)
    ensures NoWickZoneKey(id) in Ids(s)
            <==> exists m :: 0 <= m < |Shown(s).noWickZones| && Shown(s).noWickZones[m].id == id
  {
    var xs := Shown(s).noWickZones;
    KeysSplit(s, NoWickZoneKey(id));
    if NoWickZoneKey(id) in PipelineIds(Shown(s)) {
      var m :| 0 <= m < |xs| && NoWickZoneKey(xs[m].id) == NoWickZoneKey(id);
    }
    if m :| 0 <= m < |xs| && xs[m].id == id {
      assert NoWickZoneKey(xs[m].id) in PipelineIds(Shown(s));
    }
  }

  lemma DisplacementKeysShown(s: Snapshot, id: string)
    ensures DisplacementKey(id) in Ids(s)
            <==> exists m :: 0 <= m < |Shown(s).displacements|
                             && Shown(s).displacements[m].id + ":" + Shown(s).displacements[m].grade == id
  {
    var xs := Shown(s).displacements;
    KeysSplit(s, DisplacementKey(id));
    if DisplacementKey(id) in PipelineIds(Shown(s)) {
      var m :| 0 <= m < |xs| && DisplacementKey(GradedId(xs[m])) == DisplacementKey(id);
    }
    if m :| 0 <= m < |xs| && xs[m].id + ":" + xs[m].grade == id {
      assert DisplacementKey(GradedId(xs[m])) in PipelineIds(Shown(s));
    }
  }

  lemma ApproachesShown(s: Snapshot, id: string)
    ensures id in ApproachingPools(s)
            <==> exists m :: 0 <= m < |Shown(s).pools| && Shown(s).pools[m].approaching && Shown(s).pools[m].id == id
  {
    var xs := Shown(s).pools;
    if id in ApproachingPools(s) {
      var m :| 0 <= m < |xs| && xs[m].approaching && xs[m].id == id;
    }
    if m :| 0 <= m < |xs| && xs[m].approaching && xs[m].id == id {
      assert xs[m].id in ApproachingPools(s);
    }
  }

  /** What the new ones among at most one tag are. */
  lemma {:induction false} OneTag(
      before: Snapshot, s: Snapshot, p: Memory, cfg: AlertConfig, tags: seq<Tagged>, key: EventKey, at: int)
    requires Follows(p, before) && s.run.Some?
    requires |tags| <= 1 && forall k :: 0 <= k < |tags| ==> tags[k].key == key && tags[k].at == at
    ensures FlatMap(WhenNew(p, Grace(s, p, cfg)), tags)
            == if |tags| == 1 && key !in Ids(before) && InTime(before, s, cfg, at) then [tags[0].candidate] else []
  {
    InTimeIs(before, s, p, cfg, key, at);
    if |tags| == 1 {
      assert tags == [tags[0]];
      FlatMapOne(WhenNew(p, Grace(s, p, cfg)), tags[0]);
    }
  }

  lemma {:induction false} SetupItem(before: Snapshot, s: Snapshot, p: Memory, cfg: AlertConfig, e: SetupEvent)
    requires Follows(p, before) && s.run.Some?
    ensures FlatMap(WhenNew(p, Grace(s, p, cfg)), SetupTag(s)(e)) == SetupTold(before, s, cfg)(e)
  {
    OneTag(before, s, p, cfg, SetupTag(s)(e), SetupKey(e.id), e.time);
    KeysSplit(before, SetupKey(e.id));
  }

  lemma {:induction false} SetupListTold(before: Snapshot, s: Snapshot, p: Memory, cfg: AlertConfig)
    requires Follows(p, before) && s.run.Some?
    ensures NewOnes(p, Grace(s, p, cfg), FlatMap(SetupTag(s), SetupEvents(s)))
            == FlatMap(SetupTold(before, s, cfg), SetupEvents(s))
  {
    var items := SetupEvents(s);
    forall k | 0 <= k < |items|
      ensures FlatMap(WhenNew(p, Grace(s, p, cfg)), SetupTag(s)(items[k]))
              == SetupTold(before, s, cfg)(items[k])
    {
      SetupItem(before, s, p, cfg, items[k]);
    }
    NewOnesByItem(p, Grace(s, p, cfg), SetupTag(s), SetupTold(before, s, cfg), items);
  }

  lemma {:induction false} StructureItem(before: Snapshot, s: Snapshot, p: Memory, cfg: AlertConfig, e: StructureEvent)
    requires Follows(p, before) && s.run.Some?
    ensures FlatMap(WhenNew(p, Grace(s, p, cfg)), StructureTag(s)(e)) == StructureTold(before, s, cfg)(e)
  {
    OneTag(before, s, p, cfg, StructureTag(s)(e), StructureKey(e.id), e.time);
    StructureKeysShown(before, e.id);
  }

  lemma {:induction false} StructureListTold(before: Snapshot, s: Snapshot, p: Memory, cfg: AlertConfig)
    requires Follows(p, before) && s.run.Some?
    ensures NewOnes(p, Grace(s, p, cfg), FlatMap(StructureTag(s), Shown(s).structure))
            == FlatMap(StructureTold(before, s, cfg), Shown(s).structure)
  {
    var items := Shown(s).structure;
    forall k | 0 <= k < |items|
      ensures FlatMap(WhenNew(p, Grace(s, p, cfg)), StructureTag(s)(items[k]))
              == StructureTold(before, s, cfg)(items[k])
    {
      StructureItem(before, s, p, cfg, items[k]);
    }
    NewOnesByItem(p, Grace(s, p, cfg), StructureTag(s), StructureTold(before, s, cfg), items);
  }

  lemma PoolSets(t: PoolType)
    ensures IsKeyLevel(t) <==> t in DAY_AND_WEEK
    ensures IsSessionPool(t) <==> t in SESSION_RANGES
    ensures t in DAY_AND_WEEK ==> t !in SESSION_RANGES
  {
  }

  lemma {:induction false} LiquidityItem(before: Snapshot, s: Snapshot, p: Memory, cfg: AlertConfig, e: LiquidityEvent)
    requires Follows(p, before) && s.run.Some?
    ensures FlatMap(WhenNew(p, Grace(s, p, cfg)), LiquidityTag(s)(e)) == LiquidityTold(before, s, cfg)(e)
  {
    PoolSets(e.poolType);
    OneTag(before, s, p, cfg, LiquidityTag(s)(e), LiquidityKey(e.id), e.time);
    LiquidityKeysShown(before, e.id);
  }

  lemma {:induction false} LiquidityListTold(before: Snapshot, s: Snapshot, p: Memory, cfg: AlertConfig)
    requires Follows(p, before) && s.run.Some?
    ensures NewOnes(p, Grace(s, p, cfg), FlatMap(LiquidityTag(s), Shown(s).liquidity))
            == FlatMap(LiquidityTold(before, s, cfg), Shown(s).liquidity)
  {
    var items := Shown(s).liquidity;
    forall k | 0 <= k < |items|
      ensures FlatMap(WhenNew(p, Grace(s, p, cfg)), LiquidityTag(s)(items[k]))
              == LiquidityTold(before, s, cfg)(items[k])
    {
      LiquidityItem(before, s, p, cfg, items[k]);
    }
    NewOnesByItem(p, Grace(s, p, cfg), LiquidityTag(s), LiquidityTold(before, s, cfg), items);
  }

  lemma {:induction false} EqualLevelItem(before: Snapshot, s: Snapshot, p: Memory, cfg: AlertConfig, x: Pool)
    requires Follows(p, before) && s.run.Some?
    ensures FlatMap(WhenNew(p, Grace(s, p, cfg)), PoolTag(s)(x)) == EqualLevelTold(before, s, cfg)(x)
  {
    OneTag(before, s, p, cfg, PoolTag(s)(x), PoolKey(x.id), x.knownAt);
    PoolKeysShown(before, x.id);
  }

  lemma {:induction false} DisplacementItem(before: Snapshot, s: Snapshot, p: Memory, cfg: AlertConfig, d: Displacement)
    requires Follows(p, before) && s.run.Some?
    ensures FlatMap(WhenNew(p, Grace(s, p, cfg)), DisplacementTag(s, cfg)(d)) == DisplacementTold(before, s, cfg)(d)
  {
    OneTag(before, s, p, cfg, DisplacementTag(s, cfg)(d), DisplacementKey(GradedId(d)), d.time);
    DisplacementKeysShown(before, GradedId(d));
  }

  lemma {:induction false} DisplacementListTold(before: Snapshot, s: Snapshot, p: Memory, cfg: AlertConfig)
    requires Follows(p, before) && s.run.Some?
    ensures NewOnes(p, Grace(s, p, cfg), FlatMap(DisplacementTag(s, cfg), Shown(s).displacements))
            == FlatMap(DisplacementTold(before, s, cfg), Shown(s).displacements)
  {
    var items := Shown(s).displacements;
    forall k | 0 <= k < |items|
      ensures FlatMap(WhenNew(p, Grace(s, p, cfg)), DisplacementTag(s, cfg)(items[k]))
              == DisplacementTold(before, s, cfg)(items[k])
    {
      DisplacementItem(before, s, p, cfg, items[k]);
    }
    NewOnesByItem(p, Grace(s, p, cfg), DisplacementTag(s, cfg), DisplacementTold(before, s, cfg), items);
  }

  lemma {:induction false} ZoneOfIsLast(zones: seq<Zone>, id: string, cfg: AlertConfig)
    ensures BornStrong(zones, id, cfg)
            <==> ZoneOf(zones, id).Some? && ZoneOf(zones, id).value.displacementRank.Some?
                 && ZoneOf(zones, id).value.displacementRank.value >= cfg.minDisplacementRank
  {
    if |zones| != 0 && zones[|zones| - 1].id != id {
      var front := zones[..|zones| - 1];
      ZoneOfIsLast(front, id, cfg);
      if BornStrong(front, id, cfg) {
        var m :| 0 <= m < |front| && front[m].id == id && (forall n :: m < n < |front| ==> front[n].id != id)
                 && front[m].displacementRank.Some? && front[m].displacementRank.value >= cfg.minDisplacementRank;
        assert zones[m] == front[m];
        assert forall n :: m < n < |zones| ==> zones[n].id != id;
      }
      if BornStrong(zones, id, cfg) {
        var m :| 0 <= m < |zones| && zones[m].id == id && (forall n :: m < n < |zones| ==> zones[n].id != id)
                 && zones[m].displacementRank.Some? && zones[m].displacementRank.value >= cfg.minDisplacementRank;
        assert front[m] == zones[m];
      }
    }
  }

  lemma ZoneMattersIff(s: Snapshot, id: string, cfg: AlertConfig)
    ensures ZoneMatters(s.Current(), Shown(s).zones, id, cfg)
            <==> (SetupShown(s).Some? && id in SetupShown(s).value.zoneIds) || BornStrong(Shown(s).zones, id, cfg)
  {
    ZoneOfIsLast(Shown(s).zones, id, cfg);
  }

  lemma {:induction false} PdItem(before: Snapshot, s: Snapshot, p: Memory, cfg: AlertConfig, e: PdEvent)
    requires Follows(p, before) && s.run.Some?
    ensures FlatMap(WhenNew(p, Grace(s, p, cfg)), PdTag(s, Shown(s).zones, cfg)(e)) == PdTold(before, s, cfg)(e)
  {
    OneTag(before, s, p, cfg, PdTag(s, Shown(s).zones, cfg)(e), PdKey(e.id), e.time);
    PdKeysShown(before, e.id);
    ZoneMattersIff(s, e.zoneId, cfg);
  }

  lemma {:induction false} PdListTold(before: Snapshot, s: Snapshot, p: Memory, cfg: AlertConfig)
    requires Follows(p, before) && s.run.Some?
    ensures NewOnes(p, Grace(s, p, cfg), FlatMap(PdTag(s, Shown(s).zones, cfg), Shown(s).pdEvents))
            == FlatMap(PdTold(before, s, cfg), Shown(s).pdEvents)
  {
    var items := Shown(s).pdEvents;
    forall k | 0 <= k < |items|
      ensures FlatMap(WhenNew(p, Grace(s, p, cfg)), PdTag(s, Shown(s).zones, cfg)(items[k]))
              == PdTold(before, s, cfg)(items[k])
    {
      PdItem(before, s, p, cfg, items[k]);
    }
    NewOnesByItem(p, Grace(s, p, cfg), PdTag(s, Shown(s).zones, cfg), PdTold(before, s, cfg), items);
  }

  lemma {:induction false} NoWickItem(before: Snapshot, s: Snapshot, p: Memory, cfg: AlertConfig, e: NoWickEvent)
    requires Follows(p, before) && s.run.Some?
    ensures FlatMap(WhenNew(p, Grace(s, p, cfg)), NoWickTag(s, cfg)(e)) == NoWickTold(before, s, cfg)(e)
  {
    OneTag(before, s, p, cfg, NoWickTag(s, cfg)(e), NoWickKey(e.id), e.time);
    NoWickKeysShown(before, e.id);
  }

  lemma {:induction false} NoWickListTold(before: Snapshot, s: Snapshot, p: Memory, cfg: AlertConfig)
    requires Follows(p, before) && s.run.Some?
    ensures NewOnes(p, Grace(s, p, cfg), FlatMap(NoWickTag(s, cfg), Shown(s).noWick))
            == FlatMap(NoWickTold(before, s, cfg), Shown(s).noWick)
  {
    var items := Shown(s).noWick;
    forall k | 0 <= k < |items|
      ensures FlatMap(WhenNew(p, Grace(s, p, cfg)), NoWickTag(s, cfg)(items[k]))
              == NoWickTold(before, s, cfg)(items[k])
    {
      NoWickItem(before, s, p, cfg, items[k]);
    }
    NewOnesByItem(p, Grace(s, p, cfg), NoWickTag(s, cfg), NoWickTold(before, s, cfg), items);
  }

  lemma {:induction false} RebalanceItem(before: Snapshot, s: Snapshot, p: Memory, cfg: AlertConfig, e: NoWickZoneEvent)
    requires Follows(p, before) && s.run.Some?
    ensures FlatMap(WhenNew(p, Grace(s, p, cfg)), NoWickZoneTag(s)(e)) == RebalanceTold(before, s, cfg)(e)
  {
    OneTag(before, s, p, cfg, NoWickZoneTag(s)(e), NoWickZoneKey(e.id), e.time);
    NoWickZoneKeysShown(before, e.id);
  }

  lemma {:induction false} RebalanceListTold(before: Snapshot, s: Snapshot, p: Memory, cfg: AlertConfig)
    requires Follows(p, before) && s.run.Some?
    ensures NewOnes(p, Grace(s, p, cfg), FlatMap(NoWickZoneTag(s), Shown(s).noWickZones))
            == FlatMap(RebalanceTold(before, s, cfg), Shown(s).noWickZones)
  {
    var items := Shown(s).noWickZones;
    forall k | 0 <= k < |items|
      ensures FlatMap(WhenNew(p, Grace(s, p, cfg)), NoWickZoneTag(s)(items[k]))
              == RebalanceTold(before, s, cfg)(items[k])
    {
      RebalanceItem(before, s, p, cfg, items[k]);
    }
    NewOnesByItem(p, Grace(s, p, cfg), NoWickZoneTag(s), RebalanceTold(before, s, cfg), items);
  }

  /** A pool is told as a new equal level, as approached, or as both. */
  lemma {:induction false} PoolsListTold(before: Snapshot, s: Snapshot, p: Memory, cfg: AlertConfig, pools: seq<Pool>)
    requires Follows(p, before) && s.run.Some?
    ensures FlatMap(PoolAlerts(s, p, Grace(s, p, cfg)), pools) == FlatMap(PoolTold(before, s, cfg), pools)
  {
    if |pools| != 0 {
      PoolsListTold(before, s, p, cfg, pools[..|pools| - 1]);
      EqualLevelItem(before, s, p, cfg, pools[|pools| - 1]);
      ApproachesShown(before, pools[|pools| - 1].id);
    }
  }

  lemma {:induction false} PipelineIsTold(before: Snapshot, s: Snapshot, p: Memory, cfg: AlertConfig)
    requires Follows(p, before) && s.run.Some? && s.run.value.pipeline.Some?
    ensures PipelineAlerts(s, p, s.run.value.pipeline.value, cfg) == PipelineTold(before, s, cfg)
  {
    StructureListTold(before, s, p, cfg);
    LiquidityListTold(before, s, p, cfg);
    PoolsListTold(before, s, p, cfg, Shown(s).pools);
    DisplacementListTold(before, s, p, cfg);
    PdListTold(before, s, p, cfg);
    NoWickListTold(before, s, p, cfg);
    RebalanceListTold(before, s, p, cfg);
  }

  lemma {:induction false} NoPipelineTold(before: Snapshot, s: Snapshot, cfg: AlertConfig)
    requires s.run.Some? && s.run.value.pipeline.None?
    ensures PipelineTold(before, s, cfg) == []
  {
  }

  // ---------------------------------------------------------------- locks, sessions, warnings

  lemma LockSetIs(locks: seq<RiskLock>, l: RiskLock)
    ensures l in LockSet(locks) <==> l in locks
  {
  }

  lemma {:induction false} MapOfFlatMap<T, U, V>(g: U -> V, f: T -> seq<U>, told: T -> seq<V>, xs: seq<T>)
    requires forall x :: x in xs ==> Map(g, f(x)) == told(x)
    ensures Map(g, FlatMap(f, xs)) == FlatMap(told, xs)
  {
    if |xs| != 0 {
      var front, last := xs[..|xs| - 1], xs[|xs| - 1];
      MapOfFlatMap(g, f, told, front);
      MapAppend(g, FlatMap(f, front), f(last));
      assert last in xs;
    }
  }

  lemma {:induction false} LocksAreTold(before: Snapshot, s: Snapshot, p: Memory)
    requires Follows(p, before)
    ensures LockAlerts(s, p) == LocksTold(before, s)
  {
    if s.Risk().Some? {
      var locks := s.Risk().value.locks;
      var now := LockSet(locks);
      forall l: RiskLock
        ensures Map(LockAlert(s), NewLock(p)(l)) == LockTold(before, s)(l)
        ensures Map(LockAlert(s), GoneLock(p, now)(l)) == LockEndTold(before, s)(l)
      {
        LockSetIs(locks, l);
        LockSetIs(LocksOf(before), l);
      }
      MapOfFlatMap(LockAlert(s), NewLock(p), LockTold(before, s), locks);
      MapOfFlatMap(LockAlert(s), GoneLock(p, now), LockEndTold(before, s), LOCKS);
      MapAppend(LockAlert(s), FlatMap(NewLock(p), locks), FlatMap(GoneLock(p, now), LOCKS));
    }
  }

  lemma {:induction false} SameFlatMap<T, U>(f: T -> seq<U>, g: T -> seq<U>, xs: seq<T>)
    requires forall x :: x in xs ==> f(x) == g(x)
    ensures FlatMap(f, xs) == FlatMap(g, xs)
  {
    if |xs| != 0 {
      SameFlatMap(f, g, xs[..|xs| - 1]);
      assert xs[|xs| - 1] in xs;
    }
  }

  lemma {:induction false} NothingTold<T, U>(f: T -> seq<U>, xs: seq<T>)
    requires forall x :: x in xs ==> f(x) == []
    ensures FlatMap(f, xs) == []
  {
    if |xs| != 0 {
      NothingTold(f, xs[..|xs| - 1]);
      assert xs[|xs| - 1] in xs;
    }
  }

  lemma {:induction false} WarningsAreTold(before: Snapshot, s: Snapshot, p: Memory)
    requires Follows(p, before) && s.evaluation.Some?
    ensures WarningAlerts(s, p) == FlatMap(WarningTold(before, s), WARNINGS)
  {
    if s.Current().Some? {
      var setup := s.Current().value;
      var unseen := FreshWarnings(setup, s.evaluation.value.warnings, p);
      forall w: EntryWarning ensures WarningAlert(s, setup, unseen)(w) == WarningTold(before, s)(w) {
      }
      SameFlatMap(WarningAlert(s, setup, unseen), WarningTold(before, s), WARNINGS);
    } else {
      NothingTold(WarningTold(before, s), WARNINGS);
    }
  }

  lemma {:induction false} StateIsTold(before: Snapshot, s: Snapshot, p: Memory, cfg: AlertConfig)
    requires Follows(p, before) && s.run.Some? && s.evaluation.Some?
    ensures StateAlerts(s, p, cfg)
            == LocksTold(before, s) + SessionsTold(before, s) + FlatMap(SetupTold(before, s, cfg), SetupEvents(s))
               + FlatMap(WarningTold(before, s), WARNINGS)
  {
    LocksAreTold(before, s, p);
    SessionIsTold(before, s, p);
    SetupListTold(before, s, p, cfg);
    WarningsAreTold(before, s, p);
  }

  lemma {:induction false} SessionIsTold(before: Snapshot, s: Snapshot, p: Memory)
    requires Follows(p, before) && s.run.Some?
    ensures SessionAlerts(s, p) == SessionsTold(before, s)
  {
  }

  lemma {:induction false} MarketIsTold(before: Snapshot, s: Snapshot, p: Memory, cfg: AlertConfig)
    requires Follows(p, before) && Coherent(s) && Decidable(s)
    ensures StateAlerts(s, p, cfg)
            + (if s.run.value.pipeline.Some? then PipelineAlerts(s, p, s.run.value.pipeline.value, cfg) else [])
            == MarketTold(before, s, cfg)
  {
    StateIsTold(before, s, p, cfg);
    if s.run.value.pipeline.Some? {
      PipelineIsTold(before, s, p, cfg);
    } else {
      NoPipelineTold(before, s, cfg);
    }
  }

  // ---------------------------------------------------------------- news and macro bias

  lemma {:induction false} BiasRemembered(snaps: seq<Snapshot>, cfg: AlertConfig, n: nat)
    requires 0 < n <= |snaps|
    ensures MemoryAt(snaps, cfg, n).value.macroBias == LastBias(snaps, n)
  {
    if n > 1 {
      BiasRemembered(snaps, cfg, n - 1);
    }
  }

  lemma CrossedIff(news: News, minutes: seq<int>, id: string, m: int, s: Snapshot)
    requires NewsShown(s) == Some(news)
    ensures (id, m) in Crossed(news, minutes) <==> m in minutes && Within(s, id, m)
  {
    if m in minutes && Within(s, id, m) {
      var i :| 0 <= i < |minutes| && minutes[i] == m;
      assert (news.nextEvent.value.id, minutes[i]) in Crossed(news, minutes);
    }
  }

  /** What is remembered of countdowns: the thresholds reached since news have been shown without a gap. */
  lemma {:induction false} CountdownsRemembered(snaps: seq<Snapshot>, cfg: AlertConfig, n: nat, id: string, m: int)
    requires 0 < n <= |snaps|
    ensures (id, m) in MemoryAt(snaps, cfg, n).value.countdowns
            <==> m in cfg.countdownMinutes && WasWithin(snaps, n, id, m)
  {
    WasWithinStep(snaps, n - 1, id, m);
    var s := snaps[n - 1];
    if s.News().Some? {
      CrossedIff(s.News().value, cfg.countdownMinutes, id, m, s);
    }
    if n > 1 {
      CountdownsRemembered(snaps, cfg, n - 1, id, m);
    }
  }

  lemma {:induction false} WasWithinStep(snaps: seq<Snapshot>, n: nat, id: string, m: int)
    requires n < |snaps|
    ensures WasWithin(snaps, n + 1, id, m)
            <==> NewsShown(snaps[n]).Some? && (Within(snaps[n], id, m) || WasWithin(snaps, n, id, m))
  {
    if WasWithin(snaps, n, id, m) && NewsShown(snaps[n]).Some? {
      var j :| 0 <= j < n && Within(snaps[j], id, m) && forall k :: j <= k < n ==> NewsShown(snaps[k]).Some?;
      assert Within(snaps[j], id, m) && forall k :: j <= k < n + 1 ==> NewsShown(snaps[k]).Some?;
    }
    if Within(snaps[n], id, m) {
      assert forall k :: n <= k < n + 1 ==> NewsShown(snaps[k]).Some?;
    }
  }

  lemma {:induction false} CountdownIsTold(snaps: seq<Snapshot>, cfg: AlertConfig, i: nat)
    requires 0 < i < |snaps|
    ensures CountdownTold(snaps, cfg, i, CountdownAlerts(snaps[i], MemoryAt(snaps, cfg, i).value, cfg))
  {
    var s, p := snaps[i], MemoryAt(snaps, cfg, i).value;
    var keys := NewCountdowns(s, p, cfg);
    forall id, m ensures (id, m) in keys <==> NewlyWithin(snaps, cfg, i, id, m) {
      NewCountdownIff(snaps, cfg, i, id, m);
    }
    if keys != {} {
      var k :| k in keys;
      var id := s.News().value.nextEvent.value.id;
      assert NewlyWithin(snaps, cfg, i, k.0, k.1) && k.0 == id;
      LeastThresholdIsLeast(id, cfg.countdownMinutes, keys);
      var m := LeastThreshold(id, cfg.countdownMinutes, keys).0;
      assert k.1 in cfg.countdownMinutes && (id, k.1) in keys;
      assert IsCountdown(snaps, cfg, i, id, m);
    }
  }

  lemma {:induction false} NewCountdownIff(snaps: seq<Snapshot>, cfg: AlertConfig, i: nat, id: string, m: int)
    requires 0 < i < |snaps|
    ensures (id, m) in NewCountdowns(snaps[i], MemoryAt(snaps, cfg, i).value, cfg)
            <==> NewlyWithin(snaps, cfg, i, id, m)
  {
    CountdownsRemembered(snaps, cfg, i, id, m);
    if snaps[i].News().Some? {
      CrossedIff(snaps[i].News().value, cfg.countdownMinutes, id, m, snaps[i]);
    }
  }

  lemma {:induction false} NewsIsTold(before: Snapshot, s: Snapshot, p: Memory)
    requires Follows(p, before)
    ensures DataAlerts(s, p) == DataTold(before, s)
    ensures BlackoutAlerts(s, p) + ClearedAlerts(s, p) == NewsTold(before, s)
  {
  }

  // ---------------------------------------------------------------- the law

  /**
   * Every cycle after the baseline raises exactly the listed alerts, in this order and each once: those of the changes
   * of verdict and news, one countdown, those of the last bias, and, on data that may be decided on, those of locks,
   * sessions, setups, warnings and the seven lists of the pipeline. The baseline raises none.
   */
  lemma {:induction false} CycleIsTold(snaps: seq<Snapshot>, cfg: AlertConfig, i: nat)
    returns (countdown: seq<AlertCandidate>)
    requires i < |snaps| && CoherentRun(snaps)
    ensures i == 0 ==> AlertsAt(snaps, cfg, i) == []
    ensures i > 0 ==> CountdownTold(snaps, cfg, i, countdown)
    ensures i > 0 ==> AlertsAt(snaps, cfg, i)
                      == DataTold(snaps[i - 1], snaps[i]) + NewsTold(snaps[i - 1], snaps[i]) + countdown
                         + MacroTold(LastBias(snaps, i), snaps[i])
                         + if Decidable(snaps[i]) then MarketTold(snaps[i - 1], snaps[i], cfg) else []
  {
    countdown := [];
    if i > 0 {
      var s, before, p := snaps[i], snaps[i - 1], MemoryAt(snaps, cfg, i).value;
      PreviousShown(snaps, cfg, i);
      countdown := CountdownAlerts(s, p, cfg);
      CountdownIsTold(snaps, cfg, i);
      BiasRemembered(snaps, cfg, i);
      CycleOf(before, s, p, LastBias(snaps, i), cfg);
    }
  }

  lemma {:induction false} CycleOf(
      before: Snapshot, s: Snapshot, p: Memory, bias: Option<MacroBias>, cfg: AlertConfig)
    requires Follows(p, before) && Coherent(s) && p.macroBias == bias
    ensures Alerts(s, Some(p), cfg)
            == DataTold(before, s) + NewsTold(before, s) + CountdownAlerts(s, p, cfg) + MacroTold(bias, s)
               + if Decidable(s) then MarketTold(before, s, cfg) else []
  {
    NewsIsTold(before, s, p);
    ContextIsTold(before, s, p, bias, cfg);
    if Decidable(s) {
      MarketIsTold(before, s, p, cfg);
    }
  }

  lemma {:induction false} ContextIsTold(
      before: Snapshot, s: Snapshot, p: Memory, bias: Option<MacroBias>, cfg: AlertConfig)
    requires Follows(p, before) && p.macroBias == bias
    ensures ContextAlerts(s, p, cfg)
            == DataTold(before, s) + NewsTold(before, s) + CountdownAlerts(s, p, cfg) + MacroTold(bias, s)
  {
    NewsIsTold(before, s, p);
    Regroup(
      DataAlerts(s, p), BlackoutAlerts(s, p), ClearedAlerts(s, p), CountdownAlerts(s, p, cfg), MacroAlerts(s, p));
  }

  lemma Regroup(
      a: seq<AlertCandidate>, b: seq<AlertCandidate>, c: seq<AlertCandidate>, d: seq<AlertCandidate>,
      e: seq<AlertCandidate>)
    ensures a + b + c + d + e == a + (b + c) + d + e
  {
  }

  // ---------------------------------------------------------------- the law, event by event

  /** The list of a snapshot that alerts of the type come from: one of the eight, or none of them. */
  function ListOf(t: AlertType): nat {
    match t
    case SETUP_ARMED => 1
    case ENTRY_ZONE_APPROACHING => 1
    case ENTRY_ZONE_TOUCHED => 1
    case ENTRY_CONFIRMED_PENDING_GATES => 1
    case ENTRY_MISSED => 1
    case SETUP_INVALIDATED => 1
    case SETUP_EXPIRED => 1
    case STRUCTURE_BREAK => 2
    case KEY_LEVEL_INTERACTION => 3
    case SESSION_LIQUIDITY_EVENT => 3
    case LIQUIDITY_SWEEP => 3
    case LIQUIDITY_RUN => 3
    case EQUAL_LEVEL_CREATED => 4
    case LIQUIDITY_APPROACHING => 4
    case DISPLACEMENT => 5
    case FVG_CREATED => 6
    case FVG_TOUCHED => 6
    case FVG_INVALIDATED => 6
    case NO_WICK_EVENT => 7
    case NO_WICK_REBALANCE => 8
    case _ => 0
  }

  ghost predicate AllFrom(place: nat, cs: seq<AlertCandidate>) {
    forall k :: 0 <= k < |cs| ==> ListOf(cs[k].kind) == place
  }

  lemma {:induction false} AllFromItems<T(!new)>(place: nat, told: T -> seq<AlertCandidate>, xs: seq<T>)
    requires forall x :: AllFrom(place, told(x))
    ensures AllFrom(place, FlatMap(told, xs))
  {
    if |xs| != 0 {
      AllFromItems(place, told, xs[..|xs| - 1]);
      AllFromAppend(place, FlatMap(told, xs[..|xs| - 1]), told(xs[|xs| - 1]));
    }
  }

  lemma {:induction false} NewsFromNoList(before: Snapshot, s: Snapshot, bias: Option<MacroBias>)
    ensures AllFrom(0, DataTold(before, s)) && AllFrom(0, NewsTold(before, s)) && AllFrom(0, MacroTold(bias, s))
  {
  }

  lemma {:induction false} CountdownFromNoList(
      snaps: seq<Snapshot>, cfg: AlertConfig, i: nat, countdown: seq<AlertCandidate>)
    requires i < |snaps| && CountdownTold(snaps, cfg, i, countdown)
    ensures AllFrom(0, countdown)
  {
  }

  lemma {:induction false} ContextFromNoList(
      snaps: seq<Snapshot>, cfg: AlertConfig, i: nat, countdown: seq<AlertCandidate>)
    requires 0 < i < |snaps| && CountdownTold(snaps, cfg, i, countdown)
    ensures AllFrom(0, DataTold(snaps[i - 1], snaps[i]) + NewsTold(snaps[i - 1], snaps[i]) + countdown)
    ensures AllFrom(0, MacroTold(LastBias(snaps, i), snaps[i]))
  {
    var data, news := DataTold(snaps[i - 1], snaps[i]), NewsTold(snaps[i - 1], snaps[i]);
    NewsFromNoList(snaps[i - 1], snaps[i], LastBias(snaps, i));
    CountdownFromNoList(snaps, cfg, i, countdown);
    AllFromAppend(0, data, news);
    AllFromAppend(0, data + news, countdown);
  }

  lemma AllFromAppend(place: nat, a: seq<AlertCandidate>, b: seq<AlertCandidate>)
    requires AllFrom(place, a) && AllFrom(place, b)
    ensures AllFrom(place, a + b)
  {
  }

  /** At most one alert, and of that kind. */
  ghost predicate AtMost(kind: AlertType, cs: seq<AlertCandidate>) {
    |cs| == 0 || (|cs| == 1 && cs[0].kind == kind)
  }

  lemma AtMostFrom(kind: AlertType, cs: seq<AlertCandidate>)
    requires AtMost(kind, cs)
    ensures AllFrom(ListOf(kind), cs)
  {
  }

  lemma LockAtMost(before: Snapshot, s: Snapshot, l: RiskLock)
    ensures AtMost(RISK_LOCK, LockTold(before, s)(l)) && AtMost(RISK_LOCK_CLEARED, LockEndTold(before, s)(l))
  {
  }

  lemma LockFromNoList(before: Snapshot, s: Snapshot, l: RiskLock)
    ensures AllFrom(0, LockTold(before, s)(l)) && AllFrom(0, LockEndTold(before, s)(l))
  {
    LockAtMost(before, s, l);
    AtMostFrom(RISK_LOCK, LockTold(before, s)(l));
    AtMostFrom(RISK_LOCK_CLEARED, LockEndTold(before, s)(l));
  }

  lemma {:induction false} LocksOfFromNoList(
      before: Snapshot, s: Snapshot, locks: seq<RiskLock>, listed: seq<RiskLock>)
    ensures AllFrom(0, FlatMap(LockTold(before, s), locks) + FlatMap(LockEndTold(before, s), listed))
  {
    forall l: RiskLock ensures AllFrom(0, LockTold(before, s)(l)) && AllFrom(0, LockEndTold(before, s)(l)) {
      LockFromNoList(before, s, l);
    }
    AllFromItems(0, LockTold(before, s), locks);
    AllFromItems(0, LockEndTold(before, s), listed);
    AllFromAppend(0, FlatMap(LockTold(before, s), locks), FlatMap(LockEndTold(before, s), listed));
  }

  lemma {:induction false} LocksFromNoList(before: Snapshot, s: Snapshot)
    ensures AllFrom(0, LocksTold(before, s))
  {
    LocksOfFromNoList(before, s, LocksOf(s), LOCKS);
  }

  lemma {:induction false} WarningsFromNoList(before: Snapshot, s: Snapshot, ws: seq<EntryWarning>)
    ensures AllFrom(0, FlatMap(WarningTold(before, s), ws))
  {
    AllFromItems(0, WarningTold(before, s), ws);
  }

  lemma {:induction false} SessionsFromNoList(before: Snapshot, s: Snapshot)
    ensures AllFrom(0, SessionsTold(before, s))
  {
  }

  lemma {:induction false} PoolsFromTheirList(before: Snapshot, s: Snapshot, cfg: AlertConfig)
    ensures AllFrom(4, FlatMap(PoolTold(before, s, cfg), Shown(s).pools))
  {
    forall x: Pool ensures AllFrom(4, PoolTold(before, s, cfg)(x)) {
      AllFromAppend(4, EqualLevelTold(before, s, cfg)(x), ApproachTold(before, s)(x));
    }
    AllFromItems(4, PoolTold(before, s, cfg), Shown(s).pools);
  }

  lemma {:induction false} FirstListsFromTheirList(before: Snapshot, s: Snapshot, cfg: AlertConfig)
    ensures AllFrom(1, FlatMap(SetupTold(before, s, cfg), SetupEvents(s)))
    ensures AllFrom(2, FlatMap(StructureTold(before, s, cfg), Shown(s).structure))
    ensures AllFrom(3, FlatMap(LiquidityTold(before, s, cfg), Shown(s).liquidity))
  {
    AllFromItems(1, SetupTold(before, s, cfg), SetupEvents(s));
    AllFromItems(2, StructureTold(before, s, cfg), Shown(s).structure);
    AllFromItems(3, LiquidityTold(before, s, cfg), Shown(s).liquidity);
  }

  lemma {:induction false} LastListsFromTheirList(before: Snapshot, s: Snapshot, cfg: AlertConfig)
    ensures AllFrom(5, FlatMap(DisplacementTold(before, s, cfg), Shown(s).displacements))
    ensures AllFrom(6, FlatMap(PdTold(before, s, cfg), Shown(s).pdEvents))
    ensures AllFrom(7, FlatMap(NoWickTold(before, s, cfg), Shown(s).noWick))
    ensures AllFrom(8, FlatMap(RebalanceTold(before, s, cfg), Shown(s).noWickZones))
  {
    AllFromItems(5, DisplacementTold(before, s, cfg), Shown(s).displacements);
    AllFromItems(6, PdTold(before, s, cfg), Shown(s).pdEvents);
    AllFromItems(7, NoWickTold(before, s, cfg), Shown(s).noWick);
    AllFromItems(8, RebalanceTold(before, s, cfg), Shown(s).noWickZones);
  }

  /** The list of a type, as the alerts that its items tell. */
  function ToldFrom(place: nat, before: Snapshot, s: Snapshot, cfg: AlertConfig): seq<AlertCandidate> {
    match place
    case 1 => FlatMap(SetupTold(before, s, cfg), SetupEvents(s))
    case 2 => FlatMap(StructureTold(before, s, cfg), Shown(s).structure)
    case 3 => FlatMap(LiquidityTold(before, s, cfg), Shown(s).liquidity)
    case 4 => FlatMap(PoolTold(before, s, cfg), Shown(s).pools)
    case 5 => FlatMap(DisplacementTold(before, s, cfg), Shown(s).displacements)
    case 6 => FlatMap(PdTold(before, s, cfg), Shown(s).pdEvents)
    case 7 => FlatMap(NoWickTold(before, s, cfg), Shown(s).noWick)
    case 8 => FlatMap(RebalanceTold(before, s, cfg), Shown(s).noWickZones)
    case _ => []
  }

  lemma {:induction false} NotAmong(place: nat, cs: seq<AlertCandidate>, c: AlertCandidate)
    requires AllFrom(place, cs) && ListOf(c.kind) != place
    ensures c !in cs
  {
  }

  lemma {:induction false} OutsideOtherLists(before: Snapshot, s: Snapshot, cfg: AlertConfig, c: AlertCandidate, r: nat)
    requires r != ListOf(c.kind)
    ensures c !in ToldFrom(r, before, s, cfg)
  {
    FirstListsFromTheirList(before, s, cfg);
    PoolsFromTheirList(before, s, cfg);
    LastListsFromTheirList(before, s, cfg);
    if 1 <= r <= 8 {
      NotAmong(r, ToldFrom(r, before, s, cfg), c);
    }
  }

  lemma {:induction false} InPipelineIff(before: Snapshot, s: Snapshot, cfg: AlertConfig, c: AlertCandidate)
    ensures c in PipelineTold(before, s, cfg)
            <==> exists r: nat :: 2 <= r <= 8 && c in ToldFrom(r, before, s, cfg)
  {
    var t2, t3, t4 := ToldFrom(2, before, s, cfg), ToldFrom(3, before, s, cfg), ToldFrom(4, before, s, cfg);
    var t5, t6, t7 := ToldFrom(5, before, s, cfg), ToldFrom(6, before, s, cfg), ToldFrom(7, before, s, cfg);
    var t8 := ToldFrom(8, before, s, cfg);
    assert PipelineTold(before, s, cfg) == t2 + t3 + t4 + t5 + t6 + t7 + t8;
    if r: nat :| 2 <= r <= 8 && c in ToldFrom(r, before, s, cfg) {
      assert r == 2 || r == 3 || r == 4 || r == 5 || r == 6 || r == 7 || r == 8;
    }
  }

  lemma InThirdOrFifth(
      a: seq<AlertCandidate>, b: seq<AlertCandidate>, x: seq<AlertCandidate>, d: seq<AlertCandidate>,
      e: seq<AlertCandidate>, c: AlertCandidate)
    requires c !in a && c !in b && c !in d
    ensures c in a + b + x + d + e <==> c in x || c in e
  {
  }

  lemma {:induction false} InMarketIff(before: Snapshot, s: Snapshot, cfg: AlertConfig, c: AlertCandidate)
    requires ListOf(c.kind) != 0
    ensures c in MarketTold(before, s, cfg) <==> c in ToldFrom(ListOf(c.kind), before, s, cfg)
  {
    LocksFromNoList(before, s);
    SessionsFromNoList(before, s);
    WarningsFromNoList(before, s, WARNINGS);
    NotAmong(0, LocksTold(before, s), c);
    NotAmong(0, SessionsTold(before, s), c);
    NotAmong(0, FlatMap(WarningTold(before, s), WARNINGS), c);
    InThirdOrFifth(
      LocksTold(before, s), SessionsTold(before, s), FlatMap(SetupTold(before, s, cfg), SetupEvents(s)),
      FlatMap(WarningTold(before, s), WARNINGS), PipelineTold(before, s, cfg), c);
    InOwnList(before, s, cfg, c);
  }

  lemma {:induction false} InOwnList(before: Snapshot, s: Snapshot, cfg: AlertConfig, c: AlertCandidate)
    requires ListOf(c.kind) != 0
    ensures c in ToldFrom(1, before, s, cfg) || c in PipelineTold(before, s, cfg)
            <==> c in ToldFrom(ListOf(c.kind), before, s, cfg)
  {
    InPipelineIff(before, s, cfg, c);
    forall r: nat | r != ListOf(c.kind) ensures c !in ToldFrom(r, before, s, cfg) {
      OutsideOtherLists(before, s, cfg, c, r);
    }
    assert 1 <= ListOf(c.kind) <= 8;
  }

  /**
   * Over every run, an alert of one of the eight lists is raised if and only if the data may be decided on and an item
   * of its list tells it: the item passes the filter of its list, the cycle before did not show its id, and it is in
   * time.
   */
  lemma {:induction false} EventAnnouncedIff(snaps: seq<Snapshot>, cfg: AlertConfig, i: nat, c: AlertCandidate)
    requires 0 < i < |snaps| && CoherentRun(snaps) && ListOf(c.kind) != 0
    ensures c in AlertsAt(snaps, cfg, i)
            <==> Decidable(snaps[i]) && c in ToldFrom(ListOf(c.kind), snaps[i - 1], snaps[i], cfg)
  {
    var countdown := CycleIsTold(snaps, cfg, i);
    ContextFromNoList(snaps, cfg, i, countdown);
    NotAmong(0, DataTold(snaps[i - 1], snaps[i]) + NewsTold(snaps[i - 1], snaps[i]) + countdown, c);
    NotAmong(0, MacroTold(LastBias(snaps, i), snaps[i]), c);
    InMarketIff(snaps[i - 1], snaps[i], cfg, c);
  }

  // ---------------------------------------------------------------- references

  /** The lock whose name has the length and the seventh letter. */
  function LockNamed(n: nat, b: char): RiskLock {
    if n == 10 then VOLATILITY
    else if n == 12 then INVALID_STOP
    else if n == 13 then (if b == 'E' then MAX_OPEN_RISK else if b == 'S' then MAX_POSITIONS else UNSAFE_SPREAD)
    else if n == 15 then ADDING_TO_LOSER
    else if n == 16 then (if b == 'L' then DAILY_LOSS_LIMIT else BELOW_MIN_VOLUME)
    else if n == 17 then WEEKLY_LOSS_LIMIT
    else if n == 18 then (if b == 'A' then MAX_TRADES_PER_DAY else CONSECUTIVE_LOSSES)
    else if b == 'T' then ACCOUNT_STATE_STALE
    else if b == 'A' then PROP_DAILY_DRAWDOWN
    else if b == 'O' then PROP_TOTAL_DRAWDOWN
    else INSUFFICIENT_MARGIN
  }

  lemma LockNameTells(l: RiskLock)
    ensures |LockName(l)| > 6 && LockNamed(|LockName(l)|, LockName(l)[6]) == l
  {
  }

  /** The text of a lock alert names its lock. */
  lemma LockNameInjective(l: RiskLock, m: RiskLock)
    requires LockName(l) == LockName(m)
    ensures l == m
  {
    LockNameTells(l);
    LockNameTells(m);
  }

  lemma WarningNameTells(w: EntryWarning)
    ensures |WarningName(w)| == match w
                                case AGAINST_HTF => 11 case BEFORE_CLOSE => 12 case BEFORE_MAJOR_NEWS => 17
                                case BEFORE_RETRACEMENT => 18 case DURING_SWEEP => 12 case EARLY_BEFORE_MSS => 16
                                case INSIDE_DISPLACEMENT => 19 case WEAK_FVG => 8
    ensures WarningName(w)[0] == 'D' <==> w == DURING_SWEEP
  {
  }

  /** The text of a warning alert names its warning. */
  lemma WarningNameInjective(w: EntryWarning, v: EntryWarning)
    requires WarningName(w) == WarningName(v)
    ensures w == v
  {
    WarningNameTells(w);
    WarningNameTells(v);
  }

  /** The names of the four biases, by length and first letter. */
  lemma BiasNameTells(b: MacroBias)
    ensures |BiasName(b)| == if b.UNAVAILABLE_MACRO? then 11 else 7
    ensures match b
            case BULLISH_MACRO => BiasName(b)[..2] == "BU"
            case BEARISH_MACRO => BiasName(b)[..2] == "BE"
            case NEUTRAL_MACRO => BiasName(b)[..2] == "NE"
            case UNAVAILABLE_MACRO => BiasName(b)[..2] == "UN"
  {
  }

  /** The text of a macro shift names both biases: the old one up to the sign, the new one behind it. */
  lemma ShiftNamesInjective(a: MacroBias, b: MacroBias, c: MacroBias, d: MacroBias)
    requires BiasName(a) + ">" + BiasName(b) == BiasName(c) + ">" + BiasName(d)
    ensures a == c && b == d
  {
    BiasNameTells(a);
    BiasNameTells(b);
    BiasNameTells(c);
    BiasNameTells(d);
    var s, t := BiasName(a) + ">" + BiasName(b), BiasName(c) + ">" + BiasName(d);
    assert s[..2] == BiasName(a)[..2] && t[..2] == BiasName(c)[..2];
    assert s[|BiasName(a)| + 1..][..2] == BiasName(b)[..2] && t[|BiasName(c)| + 1..][..2] == BiasName(d)[..2];
  }
}
