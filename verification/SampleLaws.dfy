/** What becomes of each exported record, and what a report says, told by the fields of the records. */
module SampleLaws {
  import opened Wrappers
  import opened Rounding
  import opened AnalyticsModels
  import opened AnalyticsEngine
  import opened AnalyticsService
  import opened DrawdownEngine
  import opened GroupLaws

  // ---------------------------------------------------------------- samples

  predicate Won(c: Classification) {
    c.VALID_WIN? || c.BAD_PROCESS_WIN?
  }

  /** Called even, or with an R within the tolerance. */
  predicate BreaksEven(result: string, r: Option<real>, tol: real) {
    result == "BREAK_EVEN" || (r.Some? && -tol <= r.value && r.value <= tol)
  }

  predicate Labelled(text: string, given: string, otherwise: string) {
    (given != "" && text == given) || (given == "" && text == otherwise)
  }

  /** The labels that both kinds of record take from their snapshot. */
  predicate HasLabels(s: Sample, summary: Summary) {
    && s.session == summary.session && s.dayOfWeek == summary.dayOfWeek && s.noWick == summary.noWick
    && s.liquidityEvent == summary.liquidityEvent
  }

  /** The journal entry is a closed trade with an outcome and a direction. */
  predicate JournalCloses(e: JournalEntry) {
    e.kind.TRADE? && e.closed && e.outcome.Some? && e.direction.Some?
  }

  predicate JournalTold(e: JournalEntry, tol: real, s: Sample)
    requires JournalCloses(e)
  {
    var o := e.outcome.value;
    && s.id == e.id && s.symbol == e.symbol && s.direction == e.direction.value && s.closedAt == o.exitedAt
    && s.r == o.r && (s.win <==> Won(o.classification)) && (s.breakeven <==> BreaksEven(o.result, o.r, tol))
    && s.result == o.result && HasLabels(s, e.summary) && Labelled(s.setupType, e.summary.setupType, "NONE")
    && Labelled(s.timeframe, e.summary.executionTimeframe, "UNKNOWN")
    && (s.synthetic <==> e.summary.isSynthetic || o.extremesSynthetic) && s.strategyVersion == e.strategyVersion
  }

  predicate PaperCloses(p: PaperSim) {
    p.closed && p.result.Some? && p.filled && p.exitedAt.Some?
  }

  predicate PaperTold(p: PaperSim, tol: real, s: Sample)
    requires PaperCloses(p)
  {
    var r := p.result.value;
    && s.id == p.id && s.symbol == p.symbol && s.direction == p.direction && s.closedAt == p.exitedAt.value
    && s.r == r.netR && (s.win <==> Won(r.classification)) && (s.breakeven <==> BreaksEven(r.result, r.netR, tol))
    && s.result == r.result && HasLabels(s, p.summary)
    && Labelled(s.setupType, p.summary.setupType, if p.enginePlan then "ENGINE_PLAN" else "NONE")
    && Labelled(s.timeframe, p.summary.executionTimeframe, "M5") && (s.synthetic <==> p.isSynthetic)
    && s.strategyVersion == p.strategyVersion
  }

  predicate Closes(r: Record) {
    match r case Journal(e) => JournalCloses(e) case Paper(p) => PaperCloses(p)
  }

  predicate Told(r: Record, tol: real, s: Sample)
    requires Closes(r)
  {
    match r case Journal(e) => JournalTold(e, tol, s) case Paper(p) => PaperTold(p, tol, s)
  }

  /** A record gives a sample exactly when it has closed, and the sample says what the record says. */
  lemma SamplesAreTold(r: Record, tol: real)
    ensures SampleOf(r, tol).Some? <==> Closes(r)
    ensures Closes(r) ==> Told(r, tol, SampleOf(r, tol).value)
  {
  }

  // ---------------------------------------------------------------- fates

  predicate IsAsked(asked: Option<string>, given: string) {
    asked.None? || asked.value == "" || asked.value == given
  }

  predicate OfSymbol(r: Record, f: Filters) {
    IsAsked(f.symbol, match r case Journal(e) => e.symbol case Paper(p) => p.symbol)
  }

  predicate IsTrade(r: Record) {
    r.Journal? ==> r.entry.kind.TRADE?
  }

  predicate Untampered(r: Record) {
    match r
    case Journal(e) => e.snapshotVerified && false !in e.revisionsVerified
    case Paper(p) => p.verified
  }

  /** The record reaches the second pass. */
  predicate Passes(r: Record, f: Filters) {
    OfSymbol(r, f) && IsTrade(r) && Untampered(r) && Closes(r)
  }

  /** From the start on, before the end, and of the version asked for. */
  predicate InRange(s: Sample, f: Filters) {
    && (f.start.Some? ==> f.start.value <= s.closedAt) && (f.end.Some? ==> s.closedAt < f.end.value)
    && IsAsked(f.strategyVersion, s.strategyVersion)
  }

  predicate IsFate(r: Record, f: Filters, s: Option<Sample>, fate: Fate) {
    match fate
    case DecisionRecord(kind) => OfSymbol(r, f) && !IsTrade(r) && r.entry.kind == kind
    case Tampered => OfSymbol(r, f) && IsTrade(r) && !Untampered(r)
    case NotClosed => OfSymbol(r, f) && IsTrade(r) && Untampered(r) && !Closes(r)
    case Filtered => !OfSymbol(r, f) || (Passes(r, f) && s.Some? && !InRange(s.value, f))
    case Synthetic => Passes(r, f) && s.Some? && InRange(s.value, f) && s.value.synthetic && !f.includeSynthetic
    case Counted => Passes(r, f) && s.Some? && InRange(s.value, f) && (s.value.synthetic ==> f.includeSynthetic)
  }

  /** The fate of every record: the one that its fields and the filters give, and no other. */
  lemma FatesAreTold(r: Record, f: Filters, tol: real, fate: Fate)
    ensures FateOf(r, f, tol) == fate <==> IsFate(r, f, SampleOf(r, tol), fate)
  {
    SamplesAreTold(r, tol);
    if r.Journal? && Verified(r) {
      assert false !in r.entry.revisionsVerified;
    }
  }

  // ---------------------------------------------------------------- the report

  /** What a dimension groups by. */
  ghost predicate GroupsBy(d: (string, Sample -> string), name: string, text: Sample -> string) {
    d.0 == name && forall s: Sample :: d.1(s) == text(s)
  }

  predicate IsNamed(text: string, given: Option<string>) {
    if given.None? || given.value == "" then text == "NONE" else text == given.value
  }

  /** The nine dimensions of a report and the field each one groups by. */
  lemma {:induction false} DimensionsAreTold()
    ensures |DIMENSIONS| == 9
    ensures GroupsBy(DIMENSIONS[0], "ASSET", (s: Sample) => s.symbol)
    ensures GroupsBy(DIMENSIONS[1], "SESSION", (s: Sample) => s.session)
    ensures GroupsBy(DIMENSIONS[2], "SETUP_TYPE", (s: Sample) => s.setupType)
    ensures GroupsBy(DIMENSIONS[3], "TIMEFRAME", (s: Sample) => s.timeframe)
    ensures GroupsBy(DIMENSIONS[4], "DAY_OF_WEEK", (s: Sample) => s.dayOfWeek)
    ensures DIMENSIONS[5].0 == "NO_WICK" && forall s: Sample :: IsNamed(DIMENSIONS[5].1(s), s.noWick)
    ensures DIMENSIONS[6].0 == "LIQUIDITY_EVENT" && forall s: Sample :: IsNamed(DIMENSIONS[6].1(s), s.liquidityEvent)
    ensures GroupsBy(
              DIMENSIONS[7], "DIRECTION",
              (s: Sample) => match s.direction case BULLISH => "BULLISH" case BEARISH => "BEARISH")
    ensures GroupsBy(DIMENSIONS[8], "RESULT", (s: Sample) => s.result)
  {
  }

  /** The breakdown of a dimension: its groups are those of the records, and its best group is the best of them. */
  ghost predicate BreakdownTold(
    b: Breakdown, d: (string, Sample -> string), samples: seq<Sample>, cfg: AnalyticsConfig)
  {
    && b.dimension == d.0 && InGroupOrder(b.groups)
    && (forall g :: g in b.groups ==> IsGroup(d.1, samples, cfg, g))
    && (forall k: string :: HasGroup(b.groups, k) <==> HasRecord(samples, d.1, k))
    && (b.best.Some? <==> |b.groups| >= 2 && !NoneMayBeBest(b.groups, cfg.bestGroupMinLabel))
    && (b.best.Some? ==>
          exists k: nat :: IsBestAt(b.groups, cfg.bestGroupMinLabel, k) && b.best.value == b.groups[k].key)
  }

  lemma {:induction false} BreakdownIsTold(d: (string, Sample -> string), samples: seq<Sample>, cfg: AnalyticsConfig)
    requires cfg.Valid()
    ensures BreakdownTold(BreakdownFor(samples, cfg)(d), d, samples, cfg)
  {
    GroupsAreTold(d.1, samples, cfg);
    BestGroupIsBest(d.0, Groups(d.1, samples, cfg), cfg);
  }

  /** When the store cannot be read, the report says so, counts nothing and shows nothing. */
  lemma {:induction false} EmptyReportIsTold(r: Report, f: Filters, tol: real, cfg: AnalyticsConfig)
    requires IsReport(r, StoreUnavailable, f, tol, cfg) && cfg.Valid()
    ensures !r.available && IsFigures(r.overall, "ALL", [], cfg) && r.breakdowns == [] && r.equityCurve == []
    ensures r.noTrades == r.missedEntries == 0 && r.excluded == Excluded(0, 0, 0, 0)
    ensures r.drawdown == Drawdown(0.0, None, None, None, None) && r.disclaimer == cfg.disclaimer
  {
    FiguresAreTold("ALL", [], cfg);
    Round4Keeps(0.0);
  }

  /** The figures of a report are those of the counted records, in every one of its sections. */
  ghost predicate ReportTold(r: Report, samples: seq<Sample>, cfg: AnalyticsConfig) {
    && IsFigures(r.overall, "ALL", samples, cfg) && |r.breakdowns| == |DIMENSIONS|
    && (forall i :: 0 <= i < |DIMENSIONS| ==> BreakdownTold(r.breakdowns[i], DIMENSIONS[i], samples, cfg))
    && exists peak: nat, trough: nat :: DrawdownTold(Ordered(samples), r.drawdown, peak, trough)
  }

  ghost predicate DrawdownTold(o: seq<Sample>, d: Drawdown, peak: nat, trough: nat) {
    && WorstFall(o, peak, trough)
    && Tells(o, d, peak, trough, Round4(Equity(o, peak) - Equity(o, trough)), Regains(o, Equity(o, peak)))
  }

  lemma {:induction false} ReportIsTold(
      r: Report, source: Export, f: Filters, tol: real, cfg: AnalyticsConfig)
    requires IsReport(r, source, f, tol, cfg) && cfg.Valid() && !source.StoreUnavailable?
    ensures ReportTold(r, CountedSamples(RecordsOf(source), f, tol), cfg)
  {
    var samples := CountedSamples(RecordsOf(source), f, tol);
    FiguresAreTold("ALL", samples, cfg);
    forall i | 0 <= i < |DIMENSIONS| ensures BreakdownTold(r.breakdowns[i], DIMENSIONS[i], samples, cfg) {
      BreakdownIsTold(DIMENSIONS[i], samples, cfg);
    }
    var o := Ordered(samples);
    var peak: nat, trough: nat :| WorstFall(o, peak, trough) && r.drawdown == DrawdownEngine.Report(o, peak, trough);
    DrawdownEngine.ReportIsTold(o, r.drawdown, peak, trough);
    assert DrawdownTold(o, r.drawdown, peak, trough);
  }
}
