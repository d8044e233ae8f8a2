/** Alert vocabulary: types, categories, candidates, stored alerts and the configuration. */
module AlertModels {
  import opened Wrappers
  import opened Domain
  import opened Text

  datatype AlertCategory = INFORMATIONAL | WATCH | SETUP | ENTRY | RISK | MANAGEMENT | CRITICAL_CATEGORY
  datatype AlertPriority = LOW | MEDIUM | HIGH | CRITICAL

  function PriorityOrder(p: AlertPriority): nat {
    match p case LOW => 0 case MEDIUM => 1 case HIGH => 2 case CRITICAL => 3
  }

  datatype AlertType =
    | LIQUIDITY_APPROACHING | LIQUIDITY_SWEEP | LIQUIDITY_RUN | EQUAL_LEVEL_CREATED | KEY_LEVEL_INTERACTION
    | SESSION_LIQUIDITY_EVENT | STRUCTURE_BREAK | DISPLACEMENT | NO_WICK_EVENT | NO_WICK_REBALANCE | FVG_CREATED
    | FVG_TOUCHED | FVG_INVALIDATED | SETUP_ARMED | ENTRY_ZONE_APPROACHING | ENTRY_ZONE_TOUCHED
    | ENTRY_CONFIRMED_PENDING_GATES | ENTRY_MISSED | EARLY_ENTRY_WARNING | SETUP_INVALIDATED | SETUP_EXPIRED
    | SESSION_CHANGE | RISK_LOCK | RISK_LOCK_CLEARED | DATA_UNAVAILABLE | DATA_RESTORED | MONITOR_FAILURE | READY
    | NEWS_COUNTDOWN | NEWS_BLACKOUT | NEWS_CLEARED | MACRO_SHIFT

  function TypeName(t: AlertType): string {
    match t
    case LIQUIDITY_APPROACHING => "LIQUIDITY_APPROACHING"
    case LIQUIDITY_SWEEP => "LIQUIDITY_SWEEP"
    case LIQUIDITY_RUN => "LIQUIDITY_RUN"
    case EQUAL_LEVEL_CREATED => "EQUAL_LEVEL_CREATED"
    case KEY_LEVEL_INTERACTION => "KEY_LEVEL_INTERACTION"
    case SESSION_LIQUIDITY_EVENT => "SESSION_LIQUIDITY_EVENT"
    case STRUCTURE_BREAK => "STRUCTURE_BREAK"
    case DISPLACEMENT => "DISPLACEMENT"
    case NO_WICK_EVENT => "NO_WICK_EVENT"
    case NO_WICK_REBALANCE => "NO_WICK_REBALANCE"
    case FVG_CREATED => "FVG_CREATED"
    case FVG_TOUCHED => "FVG_TOUCHED"
    case FVG_INVALIDATED => "FVG_INVALIDATED"
    case SETUP_ARMED => "SETUP_ARMED"
    case ENTRY_ZONE_APPROACHING => "ENTRY_ZONE_APPROACHING"
    case ENTRY_ZONE_TOUCHED => "ENTRY_ZONE_TOUCHED"
    case ENTRY_CONFIRMED_PENDING_GATES => "ENTRY_CONFIRMED_PENDING_GATES"
    case ENTRY_MISSED => "ENTRY_MISSED"
    case EARLY_ENTRY_WARNING => "EARLY_ENTRY_WARNING"
    case SETUP_INVALIDATED => "SETUP_INVALIDATED"
    case SETUP_EXPIRED => "SETUP_EXPIRED"
    case SESSION_CHANGE => "SESSION_CHANGE"
    case RISK_LOCK => "RISK_LOCK"
    case RISK_LOCK_CLEARED => "RISK_LOCK_CLEARED"
    case DATA_UNAVAILABLE => "DATA_UNAVAILABLE"
    case DATA_RESTORED => "DATA_RESTORED"
    case MONITOR_FAILURE => "MONITOR_FAILURE"
    case READY => "READY"
    case NEWS_COUNTDOWN => "NEWS_COUNTDOWN"
    case NEWS_BLACKOUT => "NEWS_BLACKOUT"
    case NEWS_CLEARED => "NEWS_CLEARED"
    case MACRO_SHIFT => "MACRO_SHIFT"
  }

  predicate IsSetupType(t: AlertType) {
    || t.SETUP_ARMED? || t.ENTRY_ZONE_APPROACHING? || t.ENTRY_ZONE_TOUCHED? || t.ENTRY_CONFIRMED_PENDING_GATES?
    || t.ENTRY_MISSED? || t.SETUP_INVALIDATED? || t.SETUP_EXPIRED?
  }

  /** The types that announce one event of the analysis, once, by its id. */
  predicate IsEventType(t: AlertType) {
    || IsSetupType(t) || t.STRUCTURE_BREAK? || t.LIQUIDITY_SWEEP? || t.LIQUIDITY_RUN?
    || t.KEY_LEVEL_INTERACTION? || t.SESSION_LIQUIDITY_EVENT? || t.EQUAL_LEVEL_CREATED?
    || t.DISPLACEMENT? || t.FVG_CREATED? || t.FVG_TOUCHED? || t.FVG_INVALIDATED? || t.NO_WICK_EVENT?
    || t.NO_WICK_REBALANCE?
  }

  /** A state change worth an alert. The reference is the dedupe key inside symbol and type. */
  datatype AlertCandidate = AlertCandidate(
    kind: AlertType, symbol: string, reference: string, occurredAt: int, price: Option<real>,
    direction: Option<Direction>)

  datatype Alert = Alert(
    id: string, number: nat, dedupeKey: string, symbol: string, kind: AlertType, category: AlertCategory,
    priority: AlertPriority, direction: Option<Direction>, price: Option<real>, occurredAt: int, createdAt: int)

  /** Every type has a category and a priority, every category a cooldown: loading the configuration checks it. */
  datatype AlertConfig = AlertConfig(
    monitoredSymbols: seq<string>, maxMonitoredSymbols: nat, maxReadyWatches: int, bufferSize: nat,
    noveltyGraceBars: int, minDisplacementRank: int, minNoWickRank: int, countdownMinutes: seq<int>,
    cooldown: AlertCategory -> int, category: AlertType -> AlertCategory, priority: AlertType -> AlertPriority)

  const CATEGORIES: seq<AlertCategory> := [INFORMATIONAL, WATCH, SETUP, ENTRY, RISK, MANAGEMENT, CRITICAL_CATEGORY]

  function Cooldown(cfg: AlertConfig, t: AlertType): int {
    cfg.cooldown(cfg.category(t))
  }

  /** The largest cooldown of the first categories. */
  function MaxCooldownOf(cooldown: AlertCategory -> int, cs: seq<AlertCategory>): int
    requires |cs| > 0
  {
    if |cs| == 1 then cooldown(cs[0])
    else
      var m := MaxCooldownOf(cooldown, cs[1..]);
      if cooldown(cs[0]) > m then cooldown(cs[0]) else m
  }

  function Horizon(cfg: AlertConfig): int {
    MaxCooldownOf(cfg.cooldown, CATEGORIES)
  }

  lemma {:induction false} MaxCooldownBounds(cooldown: AlertCategory -> int, cs: seq<AlertCategory>, c: AlertCategory)
    requires c in cs
    ensures cooldown(c) <= MaxCooldownOf(cooldown, cs)
  {
    if |cs| > 1 && c in cs[1..] {
      MaxCooldownBounds(cooldown, cs[1..], c);
    }
  }

  lemma HorizonBounds(cfg: AlertConfig, t: AlertType)
    ensures cfg.cooldown(cfg.category(t)) <= Horizon(cfg)
  {
    var c := cfg.category(t);
    assert c == CATEGORIES[CategoryIndex(c)];
    MaxCooldownBounds(cfg.cooldown, CATEGORIES, c);
  }

  lemma {:induction false} MaxCooldownIsOne(cooldown: AlertCategory -> int, cs: seq<AlertCategory>)
    returns (c: AlertCategory)
    requires |cs| > 0
    ensures c in cs && cooldown(c) == MaxCooldownOf(cooldown, cs)
  {
    c := cs[0];
    if |cs| > 1 {
      var rest := MaxCooldownIsOne(cooldown, cs[1..]);
      if cooldown(c) != MaxCooldownOf(cooldown, cs) {
        c := rest;
      }
    }
  }

  /** The horizon is the cooldown of a category. */
  lemma HorizonIsAttained(cfg: AlertConfig) returns (c: AlertCategory)
    ensures Horizon(cfg) == cfg.cooldown(c)
  {
    c := MaxCooldownIsOne(cfg.cooldown, CATEGORIES);
  }

  function CategoryIndex(c: AlertCategory): nat {
    match c
    case INFORMATIONAL => 0
    case WATCH => 1
    case SETUP => 2
    case ENTRY => 3
    case RISK => 4
    case MANAGEMENT => 5
    case CRITICAL_CATEGORY => 6
  }

  function DedupeKey(c: AlertCandidate): string {
    c.symbol + ":" + TypeName(c.kind) + ":" + c.reference
  }

  function AlertId(n: nat): string {
    "ALERT:" + Decimal(n)
  }

  lemma AlertIdInjective(a: nat, b: nat)
    requires AlertId(a) == AlertId(b)
    ensures a == b
  {
    assert AlertId(a)[6..] == Decimal(a) && AlertId(b)[6..] == Decimal(b);
    DecimalInjective(a, b);
  }

  /** No two alerts of symbols without a colon share a dedupe key unless symbol, type and reference agree. */
  lemma DedupeKeyInjective(c: AlertCandidate, d: AlertCandidate)
    requires ':' !in c.symbol && ':' !in d.symbol && DedupeKey(c) == DedupeKey(d)
    ensures c.symbol == d.symbol && c.kind == d.kind && c.reference == d.reference
  {
    assert DedupeKey(c) == c.symbol + ":" + (TypeName(c.kind) + ":" + c.reference);
    assert DedupeKey(d) == d.symbol + ":" + (TypeName(d.kind) + ":" + d.reference);
    ColonSplit(c.symbol, TypeName(c.kind) + ":" + c.reference, d.symbol, TypeName(d.kind) + ":" + d.reference);
    NoColonInTypeName(c.kind);
    NoColonInTypeName(d.kind);
    ColonSplit(TypeName(c.kind), c.reference, TypeName(d.kind), d.reference);
    TypeNameInjective(c.kind, d.kind);
  }

  lemma NoColonInTypeName(t: AlertType)
    ensures ':' !in TypeName(t)
  {
    if IsSetupType(t) {
      NoColonInSetupName(t);
    } else if IsEventType(t) {
      NoColonInEventName(t);
    } else {
      NoColonInStateName(t);
    }
  }

  lemma NoColonInSetupName(t: AlertType)
    requires IsSetupType(t)
    ensures ':' !in TypeName(t)
  {
    if t.ENTRY_ZONE_APPROACHING? || t.ENTRY_ZONE_TOUCHED? || t.ENTRY_CONFIRMED_PENDING_GATES? {
      NoColonInEntryName(t);
    }
  }

  lemma NoColonInEntryName(t: AlertType)
    requires t.ENTRY_ZONE_APPROACHING? || t.ENTRY_ZONE_TOUCHED? || t.ENTRY_CONFIRMED_PENDING_GATES?
    ensures ':' !in TypeName(t)
  {
  }

  lemma NoColonInEventName(t: AlertType)
    requires IsEventType(t) && !IsSetupType(t)
    ensures ':' !in TypeName(t)
  {
    if t.LIQUIDITY_SWEEP? || t.LIQUIDITY_RUN? || t.KEY_LEVEL_INTERACTION? || t.SESSION_LIQUIDITY_EVENT? {
      NoColonInLiquidityName(t);
    }
  }

  lemma NoColonInLiquidityName(t: AlertType)
    requires t.LIQUIDITY_SWEEP? || t.LIQUIDITY_RUN? || t.KEY_LEVEL_INTERACTION? || t.SESSION_LIQUIDITY_EVENT?
    ensures ':' !in TypeName(t)
  {
  }

  lemma NoColonInStateName(t: AlertType)
    requires !IsEventType(t)
    ensures ':' !in TypeName(t)
  {
    if t.SESSION_CHANGE? || t.RISK_LOCK? || t.RISK_LOCK_CLEARED? || t.DATA_UNAVAILABLE? || t.DATA_RESTORED? {
      NoColonInChangeName(t);
    }
  }

  lemma NoColonInChangeName(t: AlertType)
    requires t.SESSION_CHANGE? || t.RISK_LOCK? || t.RISK_LOCK_CLEARED? || t.DATA_UNAVAILABLE? || t.DATA_RESTORED?
    ensures ':' !in TypeName(t)
  {
  }

  /** The type whose name has the length, the first and the fifth letter. */
  function TypeNamed(n: nat, a: char, b: char): AlertType {
    if n == 5 then READY
    else if n == 9 then RISK_LOCK
    else if n == 11 then
      (if b == 'C' then FVG_CREATED else if b == 'T' then FVG_TOUCHED else if a == 'S' then SETUP_ARMED
       else MACRO_SHIFT)
    else if n == 12 then (if a == 'D' then DISPLACEMENT else if a == 'E' then ENTRY_MISSED else NEWS_CLEARED)
    else if n == 13 then
      (if a == 'L' then LIQUIDITY_RUN else if a == 'S' then SETUP_EXPIRED else if a == 'D' then DATA_RESTORED
       else if b == 'I' then NO_WICK_EVENT else NEWS_BLACKOUT)
    else if n == 14 then (if a == 'S' then SESSION_CHANGE else NEWS_COUNTDOWN)
    else if n == 15 then
      (if a == 'L' then LIQUIDITY_SWEEP else if a == 'S' then STRUCTURE_BREAK else if a == 'F' then FVG_INVALIDATED
       else MONITOR_FAILURE)
    else if n == 16 then DATA_UNAVAILABLE
    else if n == 17 then
      (if a == 'N' then NO_WICK_REBALANCE else if a == 'S' then SETUP_INVALIDATED else RISK_LOCK_CLEARED)
    else if n == 18 then ENTRY_ZONE_TOUCHED
    else if n == 19 then (if b == 'L' then EQUAL_LEVEL_CREATED else EARLY_ENTRY_WARNING)
    else if n == 21 then (if a == 'L' then LIQUIDITY_APPROACHING else KEY_LEVEL_INTERACTION)
    else if n == 22 then ENTRY_ZONE_APPROACHING
    else if n == 23 then SESSION_LIQUIDITY_EVENT
    else ENTRY_CONFIRMED_PENDING_GATES
  }

  lemma EventNameTells(t: AlertType)
    requires IsEventType(t) && !IsSetupType(t)
    ensures |TypeName(t)| > 4 && TypeNamed(|TypeName(t)|, TypeName(t)[0], TypeName(t)[4]) == t
  {
  }

  lemma SetupNameTells(t: AlertType)
    requires IsSetupType(t)
    ensures |TypeName(t)| > 4 && TypeNamed(|TypeName(t)|, TypeName(t)[0], TypeName(t)[4]) == t
  {
  }

  lemma StateNameTells(t: AlertType)
    requires !IsEventType(t)
    ensures |TypeName(t)| > 4 && TypeNamed(|TypeName(t)|, TypeName(t)[0], TypeName(t)[4]) == t
  {
  }

  /** No two alert types have the same name. */
  lemma TypeNameInjective(t: AlertType, u: AlertType)
    requires TypeName(t) == TypeName(u)
    ensures t == u
  {
    NameTells(t);
    NameTells(u);
  }

  lemma NameTells(t: AlertType)
    ensures |TypeName(t)| > 4 && TypeNamed(|TypeName(t)|, TypeName(t)[0], TypeName(t)[4]) == t
  {
    if IsSetupType(t) {
      SetupNameTells(t);
    } else if IsEventType(t) {
      EventNameTells(t);
    } else {
      StateNameTells(t);
    }
  }
}
