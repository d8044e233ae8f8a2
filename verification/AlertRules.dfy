/** The alert rules: one symbol's snapshot against the memory of the previous cycle. */
module AlertRules {
  import opened Wrappers
  import opened Domain
  import opened Seqs
  import opened Text
  import opened AlertModels

  // ---------------------------------------------------------------- snapshots

  datatype Verdict = LONG | SHORT | WAIT | NO_TRADE | UNAVAILABLE
  datatype NewsState = CLEAR | CAUTION | BLACKOUT | POST_NEWS_WAIT | NORMALIZED | NEWS_UNAVAILABLE
  datatype Importance = LOW_IMPORTANCE | MEDIUM_IMPORTANCE | HIGH_IMPORTANCE | EXTREME_IMPORTANCE
  datatype MacroBias = BULLISH_MACRO | BEARISH_MACRO | NEUTRAL_MACRO | UNAVAILABLE_MACRO
  datatype SetupState =
    | ARMED | ZONE_APPROACHING | ZONE_TOUCHED | BLOCKED | MISSED | INVALIDATED_SETUP | EXPIRED_SETUP | OTHER_STATE
  datatype PoolType =
    | SWING_HIGH | SWING_LOW | EQH | EQL | PDH | PDL | PWH | PWL | ASIA_HIGH | ASIA_LOW | LONDON_HIGH | LONDON_LOW
    | NY_AM_HIGH | NY_AM_LOW | NY_PM_HIGH | NY_PM_LOW
  datatype LiquidityEventType = TOUCH | SWEEP | BREAK | RUN_THROUGH | RECLAIM | SWEEP_FAILED
  datatype PdEventType =
    | CREATED | TOUCHED | PARTIAL_FILL | HALF_FILL | FULL_FILL | INVALIDATED_ZONE | IFVG_POTENTIAL | IFVG_CONFIRMED
    | IFVG_FAILED | IMR_CREATED | REVERSAL_FVG_CREATED
  datatype NoWickZoneEventType =
    | ZONE_TOUCH | REBALANCE_25 | REBALANCE_50 | REBALANCE_75 | FULLY_REBALANCED | REACTED | FAILED | ZONE_INVALIDATED
  datatype Session = ASIA | LONDON | LONDON_CLOSE | NY_AM | NY_PM
  datatype RiskLock =
    | ACCOUNT_STATE_STALE | DAILY_LOSS_LIMIT | WEEKLY_LOSS_LIMIT | MAX_OPEN_RISK | MAX_POSITIONS | MAX_TRADES_PER_DAY
    | CONSECUTIVE_LOSSES | PROP_DAILY_DRAWDOWN | PROP_TOTAL_DRAWDOWN | VOLATILITY | INVALID_STOP | ADDING_TO_LOSER
    | UNSAFE_SPREAD | INSUFFICIENT_MARGIN | BELOW_MIN_VOLUME
  datatype EntryWarning =
    | AGAINST_HTF | BEFORE_CLOSE | BEFORE_MAJOR_NEWS | BEFORE_RETRACEMENT | DURING_SWEEP | EARLY_BEFORE_MSS
    | INSIDE_DISPLACEMENT | WEAK_FVG

  datatype EventView = EventView(id: string, importance: Importance, minutesToEvent: real)
  datatype News = News(
    state: NewsState, activeEvent: Option<EventView>, nextEvent: Option<EventView>, hasBlockers: bool)
  datatype Macro = Macro(bias: MacroBias, available: bool)
  datatype Risk = Risk(withinLimits: bool, locks: seq<RiskLock>)
  datatype Evaluation = Evaluation(
    risk: Option<Risk>, news: Option<News>, macro: Option<Macro>, warnings: set<EntryWarning>, eligible: bool)

  datatype SetupEvent = SetupEvent(id: string, state: SetupState, time: int, price: real, direction: Direction)
  datatype StepName =
    | HTF_BIAS | DOL_TARGET | LIQUIDITY_EVENT | DISPLACEMENT_STEP | MSS | PD_ARRAY | RETRACEMENT | LTF_CONFIRMATION
    | RISK_STEP
  datatype StepStatus = DONE | PENDING_STEP | STEP_NOT_EVALUATED
  datatype SetupStep = SetupStep(name: StepName, status: StepStatus)
  datatype Setup = Setup(id: string, direction: Direction, zoneIds: seq<string>, steps: seq<SetupStep>)
  datatype StructureEvent = StructureEvent(
    id: string, confirmed: bool, time: int, price: real, direction: Direction)
  datatype LiquidityEvent = LiquidityEvent(
    id: string, poolType: PoolType, kind: LiquidityEventType, time: int, price: real)
  datatype Pool = Pool(
    id: string, kind: PoolType, knownAt: int, price: real, approaching: bool, external: bool, taken: bool)
  datatype Displacement = Displacement(id: string, grade: string, rank: int, time: int, direction: Direction)
  datatype Zone = Zone(id: string, displacementRank: Option<int>)
  datatype PdEvent = PdEvent(
    id: string, zoneId: string, kind: PdEventType, time: int, price: real, direction: Direction)
  datatype NoWickEvent = NoWickEvent(id: string, rank: int, time: int, close: real, direction: Direction)
  datatype NoWickZoneEvent = NoWickZoneEvent(
    id: string, kind: NoWickZoneEventType, time: int, price: real, direction: Direction)

  datatype Pipeline = Pipeline(
    structure: seq<StructureEvent>, liquidity: seq<LiquidityEvent>, pools: seq<Pool>,
    displacements: seq<Displacement>, pdEvents: seq<PdEvent>, zones: seq<Zone>, noWick: seq<NoWickEvent>,
    noWickZones: seq<NoWickZoneEvent>)

  datatype Run = Run(
    asOf: Option<int>, barLength: int, events: seq<SetupEvent>, current: Option<Setup>, sessions: set<Session>,
    pipeline: Option<Pipeline>)

  datatype Snapshot = Snapshot(
    symbol: string, now: int, verdict: Verdict, evaluation: Option<Evaluation>, run: Option<Run>)
  {
    function News(): Option<News> {
      if evaluation.Some? then evaluation.value.news else None
    }

    function Macro(): Option<Macro> {
      if evaluation.Some? then evaluation.value.macro else None
    }

    function Risk(): Option<Risk> {
      if evaluation.Some? then evaluation.value.risk else None
    }

    function Current(): Option<Setup> {
      if run.Some? then run.value.current else None
    }

    function Pipe(): Option<Pipeline> {
      if run.Some? then run.value.pipeline else None
    }

    /** Market-event alerts come only from data eligible for a decision. */
    predicate Eligible() {
      evaluation.Some? && evaluation.value.eligible && verdict != UNAVAILABLE
    }
  }

  // ---------------------------------------------------------------- memory

  /** Identity of an analysis event. The kinds are the prefixes of the program's id strings. */
  datatype EventKey =
    | SetupKey(id: string) | StructureKey(id: string) | LiquidityKey(id: string) | PoolKey(id: string)
    | DisplacementKey(id: string) | PdKey(id: string) | NoWickKey(id: string) | NoWickZoneKey(id: string)

  function GradedId(d: Displacement): string {
    d.id + ":" + d.grade
  }

  function PipelineIds(p: Pipeline): set<EventKey> {
    (set i | 0 <= i < |p.structure| :: StructureKey(p.structure[i].id))
    + (set i | 0 <= i < |p.liquidity| :: LiquidityKey(p.liquidity[i].id))
    + (set i | 0 <= i < |p.pools| :: PoolKey(p.pools[i].id))
    + (set i | 0 <= i < |p.displacements| :: DisplacementKey(GradedId(p.displacements[i])))
    + (set i | 0 <= i < |p.pdEvents| :: PdKey(p.pdEvents[i].id))
    + (set i | 0 <= i < |p.noWick| :: NoWickKey(p.noWick[i].id))
    + (set i | 0 <= i < |p.noWickZones| :: NoWickZoneKey(p.noWickZones[i].id))
  }

  /** The ids of all events a snapshot shows. */
  function Ids(s: Snapshot): set<EventKey> {
    if s.run.None? then {}
    else
      (set i | 0 <= i < |s.run.value.events| :: SetupKey(s.run.value.events[i].id))
      + (if s.run.value.pipeline.Some? then PipelineIds(s.run.value.pipeline.value) else {})
  }

  function ApproachingPools(s: Snapshot): set<string> {
    if s.Pipe().None? then {}
    else
      var pools := s.Pipe().value.pools;
      set i | 0 <= i < |pools| && pools[i].approaching :: pools[i].id
  }

  function LockSet(locks: seq<RiskLock>): set<RiskLock> {
    set i | 0 <= i < |locks| :: locks[i]
  }

  /** Countdown keys of the next important event whose threshold has been reached. */
  function Crossed(news: News, countdownMinutes: seq<int>): set<(string, int)> {
    match news.nextEvent
    case None => {}
    case Some(e) =>
      if e.importance == HIGH_IMPORTANCE || e.importance == EXTREME_IMPORTANCE
      then set i | 0 <= i < |countdownMinutes| && e.minutesToEvent <= countdownMinutes[i] as real
                 :: (e.id, countdownMinutes[i])
      else {}
  }

  datatype Memory = Memory(
    asOf: Option<int>, seenIds: set<EventKey>, approachingPools: set<string>, verdict: Verdict,
    riskLocks: set<RiskLock>, warnings: set<EntryWarning>, setupId: Option<string>, sessions: set<Session>,
    eligible: bool, newsState: Option<NewsState>, macroBias: Option<MacroBias>, countdowns: set<(string, int)>)

  /** The bias a snapshot shows, while macro data is available. */
  function BiasOf(s: Snapshot): Option<MacroBias> {
    if s.Macro().Some? && s.Macro().value.available then Some(s.Macro().value.bias) else None
  }

  /** What a snapshot alone leaves in memory. */
  function MemoryOf(s: Snapshot, cfg: AlertConfig): Memory {
    Memory(
      if s.run.Some? then s.run.value.asOf else None, Ids(s), ApproachingPools(s), s.verdict,
      if s.Risk().Some? then LockSet(s.Risk().value.locks) else {},
      if s.evaluation.Some? then s.evaluation.value.warnings else {},
      if s.Current().Some? then Some(s.Current().value.id) else None,
      if s.run.Some? then s.run.value.sessions else {}, s.Eligible(),
      if s.News().Some? then Some(s.News().value.state) else None, BiasOf(s),
      if s.News().Some? then Crossed(s.News().value, cfg.countdownMinutes) else {})
  }

  /** What `derive` remembers: announced countdowns add up, and an outage does not reset the last macro bias. */
  function NextMemory(s: Snapshot, previous: Option<Memory>, cfg: AlertConfig): Memory {
    var m := MemoryOf(s, cfg);
    if previous.None? then m
    else
      var p := previous.value;
      m.(countdowns := if s.News().Some? then m.countdowns + p.countdowns else m.countdowns,
         macroBias := if m.macroBias.None? then p.macroBias else m.macroBias)
  }

  // ---------------------------------------------------------------- changes of state

  /** A change of state raises one alert at the time of the cycle. */
  function Change(t: AlertType, s: Snapshot, reference: string): AlertCandidate {
    AlertCandidate(t, s.symbol, reference, s.now, None, None)
  }

  function DataChange(s: Snapshot, p: Memory): Option<AlertType> {
    if s.verdict == UNAVAILABLE && p.verdict != UNAVAILABLE then Some(DATA_UNAVAILABLE)
    else if s.verdict != UNAVAILABLE && p.verdict == UNAVAILABLE then Some(DATA_RESTORED)
    else None
  }

  function DataAlerts(s: Snapshot, p: Memory): seq<AlertCandidate> {
    match DataChange(s, p) case Some(t) => [Change(t, s, "decision")] case None => []
  }

  /** The countdown keys crossed now and not announced before. */
  function NewCountdowns(s: Snapshot, p: Memory, cfg: AlertConfig): set<(string, int)> {
    if s.News().Some? then Crossed(s.News().value, cfg.countdownMinutes) - p.countdowns else {}
  }

  /** The smallest listed threshold among the given keys of an event; 0 when there is none. */
  function LeastThreshold(id: string, minutes: seq<int>, keys: set<(string, int)>): (int, bool) {
    if |minutes| == 0 then (0, false)
    else
      var (m, found) := LeastThreshold(id, minutes[..|minutes| - 1], keys);
      var last := minutes[|minutes| - 1];
      if (id, last) in keys && (!found || last < m) then (last, true) else (m, found)
  }

  /** Event and threshold of the countdown announced at this step. */
  function Announced(s: Snapshot, p: Memory, cfg: AlertConfig): Option<(string, int)> {
    if s.News().Some? && s.News().value.nextEvent.Some? && NewCountdowns(s, p, cfg) != {}
    then
      var id := s.News().value.nextEvent.value.id;
      Some((id, LeastThreshold(id, cfg.countdownMinutes, NewCountdowns(s, p, cfg)).0))
    else None
  }

  predicate Blocking(n: Option<NewsState>) {
    n == Some(BLACKOUT) || n == Some(POST_NEWS_WAIT)
  }

  function BlackoutAlerts(s: Snapshot, p: Memory): seq<AlertCandidate> {
    match s.News()
    case None => []
    case Some(news) =>
      if news.state == BLACKOUT && p.newsState != Some(BLACKOUT) && news.activeEvent.Some?
      then [Change(NEWS_BLACKOUT, s, news.activeEvent.value.id)] else []
  }

  function ClearedAlerts(s: Snapshot, p: Memory): seq<AlertCandidate> {
    match s.News()
    case None => []
    case Some(news) =>
      if Blocking(p.newsState) && !Blocking(Some(news.state)) then [Change(NEWS_CLEARED, s, "news")] else []
  }

  function CountdownAlerts(s: Snapshot, p: Memory, cfg: AlertConfig): seq<AlertCandidate> {
    match Announced(s, p, cfg)
    case Some((id, threshold)) => [Change(NEWS_COUNTDOWN, s, id + ":" + IntText(threshold))]
    case None => []
  }

  function BiasName(b: MacroBias): string {
    match b
    case BULLISH_MACRO => "BULLISH"
    case BEARISH_MACRO => "BEARISH"
    case NEUTRAL_MACRO => "NEUTRAL"
    case UNAVAILABLE_MACRO => "UNAVAILABLE"
  }

  /** The old and the new bias when an available bias differs from the last one. */
  function MacroShift(s: Snapshot, p: Memory): Option<(MacroBias, MacroBias)> {
    if BiasOf(s).Some? && p.macroBias.Some? && BiasOf(s) != p.macroBias
    then Some((p.macroBias.value, BiasOf(s).value)) else None
  }

  function MacroAlerts(s: Snapshot, p: Memory): seq<AlertCandidate> {
    match MacroShift(s, p)
    case Some((old', new')) => [Change(MACRO_SHIFT, s, BiasName(old') + ">" + BiasName(new'))]
    case None => []
  }

  const LOCKS: seq<RiskLock> := [
    ACCOUNT_STATE_STALE, DAILY_LOSS_LIMIT, WEEKLY_LOSS_LIMIT, MAX_OPEN_RISK, MAX_POSITIONS, MAX_TRADES_PER_DAY,
    CONSECUTIVE_LOSSES, PROP_DAILY_DRAWDOWN, PROP_TOTAL_DRAWDOWN, VOLATILITY, INVALID_STOP, ADDING_TO_LOSER,
    UNSAFE_SPREAD, INSUFFICIENT_MARGIN, BELOW_MIN_VOLUME
  ]

  function LockName(l: RiskLock): string {
    match l
    case ACCOUNT_STATE_STALE => "ACCOUNT_STATE_STALE"
    case DAILY_LOSS_LIMIT => "DAILY_LOSS_LIMIT"
    case WEEKLY_LOSS_LIMIT => "WEEKLY_LOSS_LIMIT"
    case MAX_OPEN_RISK => "MAX_OPEN_RISK"
    case MAX_POSITIONS => "MAX_POSITIONS"
    case MAX_TRADES_PER_DAY => "MAX_TRADES_PER_DAY"
    case CONSECUTIVE_LOSSES => "CONSECUTIVE_LOSSES"
    case PROP_DAILY_DRAWDOWN => "PROP_DAILY_DRAWDOWN"
    case PROP_TOTAL_DRAWDOWN => "PROP_TOTAL_DRAWDOWN"
    case VOLATILITY => "VOLATILITY"
    case INVALID_STOP => "INVALID_STOP"
    case ADDING_TO_LOSER => "ADDING_TO_LOSER"
    case UNSAFE_SPREAD => "UNSAFE_SPREAD"
    case INSUFFICIENT_MARGIN => "INSUFFICIENT_MARGIN"
    case BELOW_MIN_VOLUME => "BELOW_MIN_VOLUME"
  }

  datatype LockChange = Locked(lock: RiskLock) | Cleared(lock: RiskLock)

  function NewLock(p: Memory): RiskLock -> seq<LockChange> {
    (l: RiskLock) => if l !in p.riskLocks then [Locked(l)] else []
  }

  function GoneLock(p: Memory, now: set<RiskLock>): RiskLock -> seq<LockChange> {
    (l: RiskLock) => if l in p.riskLocks && l !in now then [Cleared(l)] else []
  }

  /** New locks in the order of the assessment, then the locks that no longer apply. */
  function LockChanges(risk: Risk, p: Memory): seq<LockChange> {
    FlatMap(NewLock(p), risk.locks) + FlatMap(GoneLock(p, LockSet(risk.locks)), LOCKS)
  }

  function LockAlert(s: Snapshot): LockChange -> AlertCandidate {
    (c: LockChange) => Change(if c.Locked? then RISK_LOCK else RISK_LOCK_CLEARED, s, LockName(c.lock))
  }

  function LockAlerts(s: Snapshot, p: Memory): seq<AlertCandidate> {
    if s.Risk().Some? then Map(LockAlert(s), LockChanges(s.Risk().value, p)) else []
  }

  const SESSIONS: seq<Session> := [ASIA, LONDON, LONDON_CLOSE, NY_AM, NY_PM]

  function SessionText(x: Session): string {
    match x
    case ASIA => "ASIA"
    case LONDON => "LONDON"
    case LONDON_CLOSE => "LONDON_CLOSE"
    case NY_AM => "NY_AM"
    case NY_PM => "NY_PM"
  }

  function Mentions(xs: set<Session>, suffix: string): Session -> seq<string> {
    (x: Session) => if x in xs then [SessionText(x) + suffix] else []
  }

  function Join(parts: seq<string>): string {
    if |parts| == 0 then ""
    else if |parts| == 1 then parts[0]
    else Join(parts[..|parts| - 1]) + "; " + parts[|parts| - 1]
  }

  /** Started sessions, then ended ones, each sorted by name. */
  function SessionAlerts(s: Snapshot, p: Memory): seq<AlertCandidate>
    requires s.run.Some?
  {
    var now := s.run.value.sessions;
    if now == p.sessions then []
    else [Change(SESSION_CHANGE, s, Join(
           FlatMap(Mentions(now - p.sessions, " started"), SESSIONS)
           + FlatMap(Mentions(p.sessions - now, " ended"), SESSIONS)))]
  }

  const WARNINGS: seq<EntryWarning> := [
    AGAINST_HTF, BEFORE_CLOSE, BEFORE_MAJOR_NEWS, BEFORE_RETRACEMENT, DURING_SWEEP, EARLY_BEFORE_MSS,
    INSIDE_DISPLACEMENT, WEAK_FVG
  ]

  function WarningName(w: EntryWarning): string {
    match w
    case AGAINST_HTF => "AGAINST_HTF"
    case BEFORE_CLOSE => "BEFORE_CLOSE"
    case BEFORE_MAJOR_NEWS => "BEFORE_MAJOR_NEWS"
    case BEFORE_RETRACEMENT => "BEFORE_RETRACEMENT"
    case DURING_SWEEP => "DURING_SWEEP"
    case EARLY_BEFORE_MSS => "EARLY_BEFORE_MSS"
    case INSIDE_DISPLACEMENT => "INSIDE_DISPLACEMENT"
    case WEAK_FVG => "WEAK_FVG"
  }

  /** Warnings of the open setup that the previous cycle did not show for the same setup. */
  function FreshWarnings(current: Setup, warnings: set<EntryWarning>, p: Memory): set<EntryWarning> {
    if p.setupId == Some(current.id) then warnings - p.warnings else warnings
  }

  function WarningAlert(s: Snapshot, current: Setup, unseen: set<EntryWarning>): EntryWarning -> seq<AlertCandidate> {
    (w: EntryWarning) => if w in unseen
         then [AlertCandidate(EARLY_ENTRY_WARNING, s.symbol, current.id + ":" + WarningName(w), s.now, None,
                 Some(current.direction))]
         else []
  }

  function WarningAlerts(s: Snapshot, p: Memory): seq<AlertCandidate>
    requires s.evaluation.Some?
  {
    match s.Current()
    case None => []
    case Some(c) => FlatMap(WarningAlert(s, c, FreshWarnings(c, s.evaluation.value.warnings, p)), WARNINGS)
  }

  // ---------------------------------------------------------------- analysis events

  /** An event that deserves an alert when it is new: its key, its time and the alert. */
  datatype Tagged = Tagged(key: EventKey, at: int, candidate: AlertCandidate)

  /** Bars before the previous as-of that still count as new; no limit without a previous as-of. */
  function Grace(s: Snapshot, p: Memory, cfg: AlertConfig): Option<int>
    requires s.run.Some?
  {
    if p.asOf.Some? then Some(p.asOf.value - s.run.value.barLength * cfg.noveltyGraceBars) else None
  }

  /** Not seen in the previous cycle, and not older than the grace time. */
  predicate IsNew(p: Memory, grace: Option<int>, key: EventKey, at: int) {
    key !in p.seenIds && (grace.None? || at >= grace.value)
  }

  function WhenNew(p: Memory, grace: Option<int>): Tagged -> seq<AlertCandidate> {
    (t: Tagged) => if IsNew(p, grace, t.key, t.at) then [t.candidate] else []
  }

  function EventAlert(
    t: AlertType, symbol: string, id: string, at: int, price: Option<real>, d: Option<Direction>): AlertCandidate
  {
    AlertCandidate(t, symbol, id, at, price, d)
  }

  function SetupAlertType(state: SetupState): Option<AlertType> {
    match state
    case ARMED => Some(SETUP_ARMED)
    case ZONE_APPROACHING => Some(ENTRY_ZONE_APPROACHING)
    case ZONE_TOUCHED => Some(ENTRY_ZONE_TOUCHED)
    case BLOCKED => Some(ENTRY_CONFIRMED_PENDING_GATES)
    case MISSED => Some(ENTRY_MISSED)
    case INVALIDATED_SETUP => Some(SETUP_INVALIDATED)
    case EXPIRED_SETUP => Some(SETUP_EXPIRED)
    case OTHER_STATE => None
  }

  function SetupTag(s: Snapshot): SetupEvent -> seq<Tagged> {
    (e: SetupEvent) => match SetupAlertType(e.state)
      case None => []
      case Some(t) =>
        [Tagged(SetupKey(e.id), e.time, EventAlert(t, s.symbol, e.id, e.time, Some(e.price), Some(e.direction)))]
  }

  function StructureTag(s: Snapshot): StructureEvent -> seq<Tagged> {
    (e: StructureEvent) => if e.confirmed
         then [Tagged(StructureKey(e.id), e.time,
                 EventAlert(STRUCTURE_BREAK, s.symbol, e.id, e.time, Some(e.price), Some(e.direction)))]
         else []
  }

  predicate IsKeyLevel(t: PoolType) {
    t == PDH || t == PDL || t == PWH || t == PWL
  }

  predicate IsSessionPool(t: PoolType) {
    t == ASIA_HIGH || t == ASIA_LOW || t == LONDON_HIGH || t == LONDON_LOW || t == NY_AM_HIGH || t == NY_AM_LOW
    || t == NY_PM_HIGH || t == NY_PM_LOW
  }

  function LiquidityAlertType(e: LiquidityEvent): Option<AlertType> {
    if IsKeyLevel(e.poolType) then Some(KEY_LEVEL_INTERACTION)
    else if IsSessionPool(e.poolType) then
      if e.kind == SWEEP || e.kind == RUN_THROUGH || e.kind == BREAK then Some(SESSION_LIQUIDITY_EVENT) else None
    else if e.kind == SWEEP then Some(LIQUIDITY_SWEEP)
    else if e.kind == RUN_THROUGH || e.kind == BREAK then Some(LIQUIDITY_RUN)
    else None
  }

  function LiquidityTag(s: Snapshot): LiquidityEvent -> seq<Tagged> {
    (e: LiquidityEvent) => match LiquidityAlertType(e)
      case None => []
      case Some(t) => [Tagged(LiquidityKey(e.id), e.time, EventAlert(t, s.symbol, e.id, e.time, Some(e.price), None))]
  }

  function PoolTag(s: Snapshot): Pool -> seq<Tagged> {
    (x: Pool) => if x.kind == EQH || x.kind == EQL
         then [Tagged(PoolKey(x.id), x.knownAt,
                 EventAlert(EQUAL_LEVEL_CREATED, s.symbol, x.id, x.knownAt, Some(x.price), None))]
         else []
  }

  function DisplacementTag(s: Snapshot, cfg: AlertConfig): Displacement -> seq<Tagged> {
    (d: Displacement) => if d.rank >= cfg.minDisplacementRank
         then [Tagged(DisplacementKey(GradedId(d)), d.time,
                 EventAlert(DISPLACEMENT, s.symbol, GradedId(d), d.time, None, Some(d.direction)))]
         else []
  }

  /** The last zone listed under an id. */
  function ZoneOf(zones: seq<Zone>, id: string): Option<Zone> {
    if |zones| == 0 then None
    else if zones[|zones| - 1].id == id then Some(zones[|zones| - 1])
    else ZoneOf(zones[..|zones| - 1], id)
  }

  /** The zone belongs to the open setup, or was born from a strong displacement. */
  predicate ZoneMatters(current: Option<Setup>, zones: seq<Zone>, id: string, cfg: AlertConfig) {
    || (current.Some? && id in current.value.zoneIds)
    || (ZoneOf(zones, id).Some? && ZoneOf(zones, id).value.displacementRank.Some?
        && ZoneOf(zones, id).value.displacementRank.value >= cfg.minDisplacementRank)
  }

  function PdAlertType(t: PdEventType): Option<AlertType> {
    match t
    case CREATED => Some(FVG_CREATED)
    case IFVG_CONFIRMED => Some(FVG_CREATED)
    case TOUCHED => Some(FVG_TOUCHED)
    case INVALIDATED_ZONE => Some(FVG_INVALIDATED)
    case _ => None
  }

  function PdTag(s: Snapshot, zones: seq<Zone>, cfg: AlertConfig): PdEvent -> seq<Tagged> {
    (e: PdEvent) => match PdAlertType(e.kind)
      case None => []
      case Some(t) =>
        if ZoneMatters(s.Current(), zones, e.zoneId, cfg)
        then [Tagged(PdKey(e.id), e.time,
                EventAlert(t, s.symbol, e.id, e.time, Some(e.price), Some(e.direction)))]
        else []
  }

  function NoWickTag(s: Snapshot, cfg: AlertConfig): NoWickEvent -> seq<Tagged> {
    (e: NoWickEvent) => if e.rank >= cfg.minNoWickRank
         then [Tagged(NoWickKey(e.id), e.time,
                 EventAlert(NO_WICK_EVENT, s.symbol, e.id, e.time, Some(e.close), Some(e.direction)))]
         else []
  }

  function NoWickZoneTag(s: Snapshot): NoWickZoneEvent -> seq<Tagged> {
    (e: NoWickZoneEvent) => if e.kind == FULLY_REBALANCED || e.kind == REACTED || e.kind == FAILED
         then [Tagged(NoWickZoneKey(e.id), e.time,
                 EventAlert(NO_WICK_REBALANCE, s.symbol, e.id, e.time, Some(e.price), Some(e.direction)))]
         else []
  }

  predicate NewlyApproaching(p: Memory, x: Pool) {
    x.approaching && x.id !in p.approachingPools && x.external && !x.taken
  }

  /** A pool may be announced twice in one cycle: as a new equal level and as approached. */
  function PoolAlerts(s: Snapshot, p: Memory, grace: Option<int>): Pool -> seq<AlertCandidate> {
    (x: Pool) => FlatMap(WhenNew(p, grace), PoolTag(s)(x))
         + if NewlyApproaching(p, x)
           then [AlertCandidate(LIQUIDITY_APPROACHING, s.symbol, x.id, s.now, Some(x.price), None)] else []
  }

  // ---------------------------------------------------------------- derive

  function ContextAlerts(s: Snapshot, p: Memory, cfg: AlertConfig): seq<AlertCandidate> {
    DataAlerts(s, p) + BlackoutAlerts(s, p) + ClearedAlerts(s, p) + CountdownAlerts(s, p, cfg) + MacroAlerts(s, p)
  }

  function NewOnes(p: Memory, grace: Option<int>, ts: seq<Tagged>): seq<AlertCandidate> {
    FlatMap(WhenNew(p, grace), ts)
  }

  function StateAlerts(s: Snapshot, p: Memory, cfg: AlertConfig): seq<AlertCandidate>
    requires s.run.Some? && s.evaluation.Some?
  {
    LockAlerts(s, p) + SessionAlerts(s, p)
    + NewOnes(p, Grace(s, p, cfg), FlatMap(SetupTag(s), s.run.value.events)) + WarningAlerts(s, p)
  }

  function PipelineAlerts(s: Snapshot, p: Memory, pipe: Pipeline, cfg: AlertConfig): seq<AlertCandidate>
    requires s.run.Some?
  {
    var grace := Grace(s, p, cfg);
    NewOnes(p, grace, FlatMap(StructureTag(s), pipe.structure))
    + NewOnes(p, grace, FlatMap(LiquidityTag(s), pipe.liquidity))
    + FlatMap(PoolAlerts(s, p, grace), pipe.pools)
    + NewOnes(p, grace, FlatMap(DisplacementTag(s, cfg), pipe.displacements))
    + NewOnes(p, grace, FlatMap(PdTag(s, pipe.zones, cfg), pipe.pdEvents))
    + NewOnes(p, grace, FlatMap(NoWickTag(s, cfg), pipe.noWick))
    + NewOnes(p, grace, FlatMap(NoWickZoneTag(s), pipe.noWickZones))
  }

  /** Eligible data always comes with a setup run; `derive` asserts it. */
  predicate Coherent(s: Snapshot) {
    s.Eligible() ==> s.run.Some?
  }

  /** All alerts of one cycle. The first snapshot of a symbol is a silent baseline. */
  function Alerts(s: Snapshot, previous: Option<Memory>, cfg: AlertConfig): seq<AlertCandidate>
    requires Coherent(s)
  {
    if previous.None? then []
    else
      var p := previous.value;
      ContextAlerts(s, p, cfg)
      + if !s.Eligible() then []
        else StateAlerts(s, p, cfg)
             + if s.run.value.pipeline.Some? then PipelineAlerts(s, p, s.run.value.pipeline.value, cfg) else []
  }

  /** Appends the outputs of one loop, item by item. */
  method AppendEach<T, U>(out: seq<U>, f: T -> seq<U>, items: seq<T>) returns (r: seq<U>)
    ensures r == out + FlatMap(f, items)
  {
    r := out;
    for i := 0 to |items|
      invariant r == out + FlatMap(f, items[..i])
    {
      FlatMapStep(f, items, i);
      r := r + f(items[i]);
    }
    assert items[..|items|] == items;
  }

  /** The alerts of one kind of analysis event: tag each item, keep the new ones. */
  method NewOf<T>(tag: T -> seq<Tagged>, items: seq<T>, p: Memory, grace: Option<int>)
    returns (r: seq<AlertCandidate>)
    ensures r == NewOnes(p, grace, FlatMap(tag, items))
  {
    r := [];
    for i := 0 to |items|
      invariant r == NewOnes(p, grace, FlatMap(tag, items[..i]))
    {
      FlatMapStep(tag, items, i);
      FlatMapAppend(WhenNew(p, grace), FlatMap(tag, items[..i]), tag(items[i]));
      r := AppendEach(r, WhenNew(p, grace), tag(items[i]));
    }
    assert items[..|items|] == items;
  }

  method Derive(s: Snapshot, previous: Option<Memory>, cfg: AlertConfig)
    returns (out: seq<AlertCandidate>, memory: Memory)
    requires Coherent(s)
    ensures out == Alerts(s, previous, cfg)
    ensures memory == NextMemory(s, previous, cfg)
  {
    memory := MemoryOf(s, cfg);
    if previous.None? {
      return [], memory;
    }
    var p := previous.value;
    out := DeriveContext(s, p, cfg);
    if s.News().Some? {
      memory := memory.(countdowns := memory.countdowns + p.countdowns);
    }
    if memory.macroBias.None? && p.macroBias.Some? {
      memory := memory.(macroBias := p.macroBias);
    }
    if !memory.eligible {
      return out, memory;
    }
    var market := DeriveState(s, p, cfg);
    if s.run.value.pipeline.Some? {
      var events := DerivePipeline(s, p, s.run.value.pipeline.value, cfg);
      market := market + events;
    }
    out := out + market;
  }

  method DeriveContext(s: Snapshot, p: Memory, cfg: AlertConfig) returns (out: seq<AlertCandidate>)
    ensures out == ContextAlerts(s, p, cfg)
  {
    out := DeriveData(s, p);
    var news := DeriveNews(s, p, cfg);
    var macro := DeriveMacro(s, p);
    out := out + news + macro;
  }

  method DeriveData(s: Snapshot, p: Memory) returns (out: seq<AlertCandidate>)
    ensures out == DataAlerts(s, p)
  {
    out := [];
    if s.verdict == UNAVAILABLE && p.verdict != UNAVAILABLE {
      out := out + [Change(DATA_UNAVAILABLE, s, "decision")];
    } else if s.verdict != UNAVAILABLE && p.verdict == UNAVAILABLE {
      out := out + [Change(DATA_RESTORED, s, "decision")];
    }
  }

  method DeriveNews(s: Snapshot, p: Memory, cfg: AlertConfig) returns (out: seq<AlertCandidate>)
    ensures out == BlackoutAlerts(s, p) + ClearedAlerts(s, p) + CountdownAlerts(s, p, cfg)
  {
    out := [];
    if s.News().Some? {
      out := out + BlackoutAlerts(s, p);
      out := out + ClearedAlerts(s, p);
      out := out + CountdownAlerts(s, p, cfg);
    }
  }

  method DeriveMacro(s: Snapshot, p: Memory) returns (out: seq<AlertCandidate>)
    ensures out == MacroAlerts(s, p)
  {
    out := [];
    var bias := BiasOf(s);
    if bias.Some? && p.macroBias.Some? && bias != p.macroBias {
      out := out + [Change(MACRO_SHIFT, s, BiasName(p.macroBias.value) + ">" + BiasName(bias.value))];
    }
  }

  method DeriveLocks(s: Snapshot, p: Memory) returns (out: seq<AlertCandidate>)
    ensures out == LockAlerts(s, p)
  {
    out := [];
    if s.Risk().Some? {
      var locks := s.Risk().value.locks;
      var changes := AppendEach([], NewLock(p), locks);
      changes := AppendEach(changes, GoneLock(p, LockSet(locks)), LOCKS);
      out := Map(LockAlert(s), changes);
    }
  }

  method DeriveWarnings(s: Snapshot, p: Memory) returns (out: seq<AlertCandidate>)
    requires s.evaluation.Some?
    ensures out == WarningAlerts(s, p)
  {
    out := [];
    if s.Current().Some? {
      var current := s.Current().value;
      out := AppendEach(
        [], WarningAlert(s, current, FreshWarnings(current, s.evaluation.value.warnings, p)), WARNINGS);
    }
  }

  method DeriveState(s: Snapshot, p: Memory, cfg: AlertConfig) returns (out: seq<AlertCandidate>)
    requires s.Eligible() && s.run.Some?
    ensures out == StateAlerts(s, p, cfg)
  {
    out := DeriveLocks(s, p);
    out := out + SessionAlerts(s, p);
    var setups := NewOf(SetupTag(s), s.run.value.events, p, Grace(s, p, cfg));
    var warnings := DeriveWarnings(s, p);
    out := out + setups + warnings;
  }

  method DerivePipeline(s: Snapshot, p: Memory, pipe: Pipeline, cfg: AlertConfig) returns (out: seq<AlertCandidate>)
    requires s.run.Some?
    ensures out == PipelineAlerts(s, p, pipe, cfg)
  {
    var grace := Grace(s, p, cfg);
    out := NewOf(StructureTag(s), pipe.structure, p, grace);
    var liquidity := NewOf(LiquidityTag(s), pipe.liquidity, p, grace);
    out := AppendEach(out + liquidity, PoolAlerts(s, p, grace), pipe.pools);
    var displacements := NewOf(DisplacementTag(s, cfg), pipe.displacements, p, grace);
    var pdEvents := NewOf(PdTag(s, pipe.zones, cfg), pipe.pdEvents, p, grace);
    var noWick := NewOf(NoWickTag(s, cfg), pipe.noWick, p, grace);
    var noWickZones := NewOf(NoWickZoneTag(s), pipe.noWickZones, p, grace);
    out := out + displacements + pdEvents + noWick + noWickZones;
  }
}
