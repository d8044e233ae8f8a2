/** Normalising journal and paper records into samples, and the analytics report built from them. */
module AnalyticsService {
  import opened Wrappers
  import opened Domain
  import opened Seqs
  import opened Rounding
  import opened AnalyticsModels
  import opened AnalyticsEngine
  import opened AnalyticsLaws
  import opened DrawdownEngine

  datatype EntryKind = TRADE | NO_TRADE | MISSED_ENTRY
  datatype Classification = VALID_WIN | BAD_PROCESS_WIN | VALID_LOSS | PROCESS_ERROR

  /** The labels taken from a record's snapshot, already derived from its text. */
  datatype Summary = Summary(
    session: string, setupType: string, executionTimeframe: string, dayOfWeek: string, noWick: Option<string>,
    liquidityEvent: Option<string>, isSynthetic: bool)

  datatype Outcome = Outcome(
    exitedAt: int, r: Option<real>, result: string, classification: Classification, extremesSynthetic: bool)

  datatype JournalEntry = JournalEntry(
    id: string, kind: EntryKind, closed: bool, symbol: string, direction: Option<Direction>, summary: Summary,
    outcome: Option<Outcome>, snapshotVerified: bool, revisionsVerified: seq<bool>, strategyVersion: string)

  datatype PaperResult = PaperResult(netR: Option<real>, result: string, classification: Classification)

  datatype PaperSim = PaperSim(
    id: string, closed: bool, symbol: string, direction: Direction, summary: Summary, result: Option<PaperResult>,
    filled: bool, exitedAt: Option<int>, enginePlan: bool, isSynthetic: bool, verified: bool, strategyVersion: string)

  predicate InWins(c: Classification) {
    c == VALID_WIN || c == BAD_PROCESS_WIN
  }

  predicate NearZero(r: Option<real>, tol: real) {
    r.Some? && -tol <= r.value <= tol
  }

  function OrElse(x: string, fallback: string): string {
    if x == "" then fallback else x
  }

  /** A closed trade with outcome and fill, as a sample. */
  function JournalSample(e: JournalEntry, tol: real): Option<Sample> {
    if e.kind != TRADE || !e.closed || e.outcome.None? || e.direction.None? then None
    else
      var o, s := e.outcome.value, e.summary;
      Some(Sample(
        e.id, e.symbol, e.direction.value, o.exitedAt, o.r, InWins(o.classification),
        o.result == "BREAK_EVEN" || NearZero(o.r, tol), o.result, s.session, OrElse(s.setupType, "NONE"),
        OrElse(s.executionTimeframe, "UNKNOWN"), s.dayOfWeek, s.noWick, s.liquidityEvent,
        s.isSynthetic || o.extremesSynthetic, e.strategyVersion))
  }

  function PaperSample(p: PaperSim, tol: real): Option<Sample> {
    if !p.closed || p.result.None? || !p.filled || p.exitedAt.None? then None
    else
      var r, s := p.result.value, p.summary;
      Some(Sample(
        p.id, p.symbol, p.direction, p.exitedAt.value, r.netR, InWins(r.classification),
        r.result == "BREAK_EVEN" || NearZero(r.netR, tol), r.result, s.session,
        OrElse(s.setupType, if p.enginePlan then "ENGINE_PLAN" else "NONE"),
        OrElse(s.executionTimeframe, "M5"), s.dayOfWeek, s.noWick, s.liquidityEvent, p.isSynthetic,
        p.strategyVersion))
  }

  datatype Filters = Filters(
    symbol: Option<string>, start: Option<int>, end: Option<int>, includeSynthetic: bool,
    strategyVersion: Option<string>)

  datatype Record = Journal(entry: JournalEntry) | Paper(sim: PaperSim)

  /** Where a record ends up. */
  datatype Fate =
    | Filtered
    | DecisionRecord(kind: EntryKind)
    | Tampered
    | NotClosed
    | Synthetic
    | Counted

  function SymbolOf(r: Record): string {
    match r case Journal(e) => e.symbol case Paper(p) => p.symbol
  }

  predicate Verified(r: Record) {
    match r
    case Journal(e) => e.snapshotVerified && forall i :: 0 <= i < |e.revisionsVerified| ==> e.revisionsVerified[i]
    case Paper(p) => p.verified
  }

  function SampleOf(r: Record, tol: real): Option<Sample> {
    match r case Journal(e) => JournalSample(e, tol) case Paper(p) => PaperSample(p, tol)
  }

  predicate OtherSymbol(r: Record, f: Filters) {
    f.symbol.Some? && f.symbol.value != "" && SymbolOf(r) != f.symbol.value
  }

  predicate OutOfRange(s: Sample, f: Filters) {
    || (f.start.Some? && s.closedAt < f.start.value)
    || (f.end.Some? && s.closedAt >= f.end.value)
    || (f.strategyVersion.Some? && f.strategyVersion.value != "" && s.strategyVersion != f.strategyVersion.value)
  }

  /** The fate of one record, decided by its own data and the filters alone. */
  function FateOf(r: Record, f: Filters, tol: real): Fate {
    if OtherSymbol(r, f) then Filtered
    else if r.Journal? && r.entry.kind != TRADE then DecisionRecord(r.entry.kind)
    else if !Verified(r) then Tampered
    else
      match SampleOf(r, tol)
      case None => NotClosed
      case Some(s) =>
        if OutOfRange(s, f) then Filtered
        else if s.synthetic && !f.includeSynthetic then Synthetic
        else Counted
  }

  function HasFate(fate: Fate, f: Filters, tol: real): Record -> bool {
    r => FateOf(r, f, tol) == fate
  }

  /** The samples of the counted records, in the order of the export. */
  function CountedSamples(rs: seq<Record>, f: Filters, tol: real): seq<Sample> {
    if |rs| == 0 then []
    else
      var front, last := CountedSamples(rs[..|rs| - 1], f, tol), rs[|rs| - 1];
      if FateOf(last, f, tol) == Counted then front + [SampleOf(last, tol).value] else front
  }

  // ---------------------------------------------------------------- the two passes of the report

  /** The record survives the first pass: right symbol, a trade, untampered, closed. */
  predicate IsCandidate(r: Record, f: Filters, tol: real) {
    !OtherSymbol(r, f) && !(r.Journal? && r.entry.kind != TRADE) && Verified(r) && SampleOf(r, tol).Some?
  }

  function Candidates(rs: seq<Record>, f: Filters, tol: real): seq<Sample> {
    if |rs| == 0 then []
    else
      var front, last := Candidates(rs[..|rs| - 1], f, tol), rs[|rs| - 1];
      if IsCandidate(last, f, tol) then front + [SampleOf(last, tol).value] else front
  }

  function FilteredEarly(f: Filters): Record -> bool {
    r => OtherSymbol(r, f)
  }

  function FilteredLate(f: Filters): Sample -> bool {
    s => OutOfRange(s, f)
  }

  function DroppedSynthetic(f: Filters): Sample -> bool {
    s => !OutOfRange(s, f) && s.synthetic && !f.includeSynthetic
  }

  function Kept(f: Filters): Sample -> bool {
    s => !OutOfRange(s, f) && !(s.synthetic && !f.includeSynthetic)
  }

  /** What the two passes count and keep is what the fates of the records say. */
  lemma {:induction false} PassesFollowFates(rs: seq<Record>, f: Filters, tol: real)
    ensures |Filter(HasFate(Filtered, f, tol), rs)|
            == |Filter(FilteredEarly(f), rs)| + |Filter(FilteredLate(f), Candidates(rs, f, tol))|
    ensures |Filter(HasFate(Synthetic, f, tol), rs)| == |Filter(DroppedSynthetic(f), Candidates(rs, f, tol))|
    ensures CountedSamples(rs, f, tol) == Filter(Kept(f), Candidates(rs, f, tol))
  {
    if |rs| != 0 {
      var front, last := rs[..|rs| - 1], rs[|rs| - 1];
      PassesFollowFates(front, f, tol);
      if IsCandidate(last, f, tol) {
        var c, s := Candidates(front, f, tol), SampleOf(last, tol).value;
        FilterSnoc(FilteredLate(f), c, s);
        FilterSnoc(DroppedSynthetic(f), c, s);
        FilterSnoc(Kept(f), c, s);
      }
    }
  }

  /** Every record has exactly one fate: nothing is lost and nothing is counted twice. */
  lemma {:induction false} FatesPartition(rs: seq<Record>, f: Filters, tol: real)
    ensures |rs| == |Filter(HasFate(Filtered, f, tol), rs)| + |Filter(HasFate(DecisionRecord(NO_TRADE), f, tol), rs)|
                    + |Filter(HasFate(DecisionRecord(MISSED_ENTRY), f, tol), rs)|
                    + |Filter(HasFate(Tampered, f, tol), rs)| + |Filter(HasFate(NotClosed, f, tol), rs)|
                    + |Filter(HasFate(Synthetic, f, tol), rs)| + |CountedSamples(rs, f, tol)|
  {
    if |rs| != 0 {
      var front, last := rs[..|rs| - 1], rs[|rs| - 1];
      FatesPartition(front, f, tol);
      assert last.Journal? || last.Paper?;
    }
  }

  datatype Excluded = Excluded(tampered: nat, synthetic: nat, notClosed: nat, filtered: nat)

  datatype Report = Report(
    available: bool, overall: GroupStats, drawdown: Drawdown, breakdowns: seq<Breakdown>, noTrades: nat,
    missedEntries: nat, excluded: Excluded, equityCurve: seq<EquityPoint>, disclaimer: string, authority: string)

  /** What a store exports, or that it cannot be read. */
  datatype Export = JournalExport(entries: seq<JournalEntry>) | PaperExport(sims: seq<PaperSim>) | StoreUnavailable

  function JournalRecords(es: seq<JournalEntry>): seq<Record> {
    Map((e: JournalEntry) => Journal(e), es)
  }

  function PaperRecords(ps: seq<PaperSim>): seq<Record> {
    Map((p: PaperSim) => Paper(p), ps)
  }

  /** One more record in the first pass. */
  lemma {:induction false} PassStep(rs: seq<Record>, i: nat, f: Filters, tol: real)
    requires i < |rs|
    ensures var r, before := rs[i], Candidates(rs[..i], f, tol);
            Candidates(rs[..i + 1], f, tol)
            == if IsCandidate(r, f, tol) then before + [SampleOf(r, tol).value] else before
    ensures |Filter(FilteredEarly(f), rs[..i + 1])|
            == |Filter(FilteredEarly(f), rs[..i])| + if OtherSymbol(rs[i], f) then 1 else 0
    ensures forall fate: Fate ::
              |Filter(HasFate(fate, f, tol), rs[..i + 1])|
              == |Filter(HasFate(fate, f, tol), rs[..i])| + if FateOf(rs[i], f, tol) == fate then 1 else 0
  {
    assert rs[..i + 1][..i] == rs[..i];
    FilterStep(FilteredEarly(f), rs, i);
    forall fate: Fate
      ensures |Filter(HasFate(fate, f, tol), rs[..i + 1])|
              == |Filter(HasFate(fate, f, tol), rs[..i])| + if FateOf(rs[i], f, tol) == fate then 1 else 0
    {
      FilterStep(HasFate(fate, f, tol), rs, i);
    }
  }

  /** The first pass over journal entries. */
  method JournalCandidates(es: seq<JournalEntry>, f: Filters, tol: real)
    returns (filtered: nat, noTrades: nat, missed: nat, tampered: nat, notClosed: nat, candidates: seq<Sample>)
    ensures var rs := JournalRecords(es);
            && filtered == |Filter(FilteredEarly(f), rs)| && candidates == Candidates(rs, f, tol)
            && noTrades == |Filter(HasFate(DecisionRecord(NO_TRADE), f, tol), rs)|
            && missed == |Filter(HasFate(DecisionRecord(MISSED_ENTRY), f, tol), rs)|
            && tampered == |Filter(HasFate(Tampered, f, tol), rs)|
            && notClosed == |Filter(HasFate(NotClosed, f, tol), rs)|
  {
    ghost var rs := JournalRecords(es);
    filtered, noTrades, missed, tampered, notClosed, candidates := 0, 0, 0, 0, 0, [];
    for i := 0 to |es|
      invariant filtered == |Filter(FilteredEarly(f), rs[..i])| && candidates == Candidates(rs[..i], f, tol)
      invariant noTrades == |Filter(HasFate(DecisionRecord(NO_TRADE), f, tol), rs[..i])|
      invariant missed == |Filter(HasFate(DecisionRecord(MISSED_ENTRY), f, tol), rs[..i])|
      invariant tampered == |Filter(HasFate(Tampered, f, tol), rs[..i])|
      invariant notClosed == |Filter(HasFate(NotClosed, f, tol), rs[..i])|
    {
      var e := es[i];
      assert rs[i] == Journal(e);
      PassStep(rs, i, f, tol);
      if f.symbol.Some? && f.symbol.value != "" && e.symbol != f.symbol.value {
        filtered := filtered + 1;
      } else if e.kind != TRADE {
        if e.kind == NO_TRADE {
          noTrades := noTrades + 1;
        } else {
          missed := missed + 1;
        }
      } else if !(e.snapshotVerified && forall k :: 0 <= k < |e.revisionsVerified| ==> e.revisionsVerified[k]) {
        tampered := tampered + 1;
      } else {
        var sample := JournalSample(e, tol);
        if sample.None? {
          notClosed := notClosed + 1;
        } else {
          candidates := candidates + [sample.value];
        }
      }
    }
    assert rs[..|es|] == rs;
  }

  /** The first pass over paper simulations, which know no decision records. */
  method PaperCandidates(ps: seq<PaperSim>, f: Filters, tol: real)
    returns (filtered: nat, tampered: nat, notClosed: nat, candidates: seq<Sample>)
    ensures var rs := PaperRecords(ps);
            && filtered == |Filter(FilteredEarly(f), rs)| && candidates == Candidates(rs, f, tol)
            && tampered == |Filter(HasFate(Tampered, f, tol), rs)|
            && notClosed == |Filter(HasFate(NotClosed, f, tol), rs)|
            && 0 == |Filter(HasFate(DecisionRecord(NO_TRADE), f, tol), rs)|
            && 0 == |Filter(HasFate(DecisionRecord(MISSED_ENTRY), f, tol), rs)|
  {
    ghost var rs := PaperRecords(ps);
    filtered, tampered, notClosed, candidates := 0, 0, 0, [];
    for i := 0 to |ps|
      invariant filtered == |Filter(FilteredEarly(f), rs[..i])| && candidates == Candidates(rs[..i], f, tol)
      invariant tampered == |Filter(HasFate(Tampered, f, tol), rs[..i])|
      invariant notClosed == |Filter(HasFate(NotClosed, f, tol), rs[..i])|
    {
      var p := ps[i];
      assert rs[i] == Paper(p);
      PassStep(rs, i, f, tol);
      if f.symbol.Some? && f.symbol.value != "" && p.symbol != f.symbol.value {
        filtered := filtered + 1;
      } else if !p.verified {
        tampered := tampered + 1;
      } else {
        var sample := PaperSample(p, tol);
        if sample.None? {
          notClosed := notClosed + 1;
        } else {
          candidates := candidates + [sample.value];
        }
      }
    }
    assert rs[..|ps|] == rs;
    PaperKnowsNoDecisions(ps, f, tol);
  }

  lemma PaperKnowsNoDecisions(ps: seq<PaperSim>, f: Filters, tol: real)
    ensures Filter(HasFate(DecisionRecord(NO_TRADE), f, tol), PaperRecords(ps)) == []
    ensures Filter(HasFate(DecisionRecord(MISSED_ENTRY), f, tol), PaperRecords(ps)) == []
  {
    FilterNonePass(HasFate(DecisionRecord(NO_TRADE), f, tol), PaperRecords(ps));
    FilterNonePass(HasFate(DecisionRecord(MISSED_ENTRY), f, tol), PaperRecords(ps));
  }

  /** The second pass: date range, strategy version and synthetic data. */
  method KeepSamples(candidates: seq<Sample>, f: Filters)
    returns (filtered: nat, synthetic: nat, samples: seq<Sample>)
    ensures filtered == |Filter(FilteredLate(f), candidates)|
    ensures synthetic == |Filter(DroppedSynthetic(f), candidates)|
    ensures samples == Filter(Kept(f), candidates)
  {
    filtered, synthetic, samples := 0, 0, [];
    for i := 0 to |candidates|
      invariant filtered == |Filter(FilteredLate(f), candidates[..i])|
      invariant synthetic == |Filter(DroppedSynthetic(f), candidates[..i])|
      invariant samples == Filter(Kept(f), candidates[..i])
    {
      var s := candidates[i];
      assert candidates[..i + 1][..i] == candidates[..i];
      if (f.start.Some? && s.closedAt < f.start.value) || (f.end.Some? && s.closedAt >= f.end.value)
         || (f.strategyVersion.Some? && f.strategyVersion.value != ""
             && s.strategyVersion != f.strategyVersion.value) {
        filtered := filtered + 1;
      } else if s.synthetic && !f.includeSynthetic {
        synthetic := synthetic + 1;
      } else {
        samples := samples + [s];
      }
    }
    assert candidates[..|candidates|] == candidates;
  }

  function RecordsOf(source: Export): seq<Record> {
    match source
    case JournalExport(es) => JournalRecords(es)
    case PaperExport(ps) => PaperRecords(ps)
    case StoreUnavailable => []
  }

  /** The counters equal the numbers of records with the corresponding fates. */
  ghost predicate CountsFates(rs: seq<Record>, f: Filters, tol: real, e: Excluded, noTrades: nat, missed: nat) {
    && e.filtered == |Filter(HasFate(Filtered, f, tol), rs)| && e.tampered == |Filter(HasFate(Tampered, f, tol), rs)|
    && e.notClosed == |Filter(HasFate(NotClosed, f, tol), rs)|
    && e.synthetic == |Filter(HasFate(Synthetic, f, tol), rs)|
    && noTrades == |Filter(HasFate(DecisionRecord(NO_TRADE), f, tol), rs)|
    && missed == |Filter(HasFate(DecisionRecord(MISSED_ENTRY), f, tol), rs)|
  }

  /** Both passes: the counters, and the samples that the report describes. */
  method CollectSamples(source: Export, f: Filters, tol: real)
    returns (e: Excluded, noTrades: nat, missed: nat, samples: seq<Sample>)
    requires !source.StoreUnavailable?
    ensures CountsFates(RecordsOf(source), f, tol, e, noTrades, missed)
    ensures samples == CountedSamples(RecordsOf(source), f, tol)
  {
    var early, tampered, notClosed, candidates;
    noTrades, missed := 0, 0;
    if source.JournalExport? {
      early, noTrades, missed, tampered, notClosed, candidates := JournalCandidates(source.entries, f, tol);
    } else {
      early, tampered, notClosed, candidates := PaperCandidates(source.sims, f, tol);
    }
    var late, synthetic;
    late, synthetic, samples := KeepSamples(candidates, f);
    PassesFollowFates(RecordsOf(source), f, tol);
    e := Excluded(tampered, synthetic, notClosed, early + late);
  }

  /** The figures describe exactly the given samples. */
  ghost predicate Describes(r: Report, samples: seq<Sample>, cfg: AnalyticsConfig) {
    && r.overall == GroupStatsOf("ALL", samples, cfg)
    && IsDrawdown(Ordered(samples), r.drawdown)
    && Downsample(Curve(Ordered(samples)), cfg.equityCurveMaxPoints) == Success(r.equityCurve)
    && r.breakdowns == Map(BreakdownFor(samples, cfg), DIMENSIONS)
  }

  function BreakdownFor(samples: seq<Sample>, cfg: AnalyticsConfig): ((string, Sample -> string)) -> Breakdown {
    (d: (string, Sample -> string)) => BreakdownOf(d.0, samples, d.1, cfg)
  }

  method ComputeBreakdowns(dims: seq<(string, Sample -> string)>, samples: seq<Sample>, cfg: AnalyticsConfig)
    returns (bs: seq<Breakdown>)
    ensures bs == Map(BreakdownFor(samples, cfg), dims)
  {
    bs := [];
    for i := 0 to |dims|
      invariant bs == Map(BreakdownFor(samples, cfg), dims[..i])
    {
      var b := ComputeBreakdown(dims[i].0, samples, dims[i].1, cfg);
      MapStep(BreakdownFor(samples, cfg), dims, i);
      bs := bs + [b];
    }
    assert dims[..|dims|] == dims;
  }

  /** The report when the store cannot be read: nothing recorded, nothing counted. */
  function EmptyReport(cfg: AnalyticsConfig): Report {
    Report(
      false, GroupStatsOf("ALL", [], cfg), Drawdown(Round4(0.0), None, None, None, None), [], 0, 0,
      Excluded(0, 0, 0, 0), [], cfg.disclaimer, "DESCRIPTIVE_ONLY")
  }

  /** The counters are the fates of the exported records, and the figures describe exactly the counted ones. */
  ghost predicate IsReport(r: Report, source: Export, f: Filters, tol: real, cfg: AnalyticsConfig) {
    if source.StoreUnavailable? then r == EmptyReport(cfg)
    else
      && r.available && r.disclaimer == cfg.disclaimer && r.authority == "DESCRIPTIVE_ONLY"
      && Describes(r, CountedSamples(RecordsOf(source), f, tol), cfg)
      && CountsFates(RecordsOf(source), f, tol, r.excluded, r.noTrades, r.missedEntries)
  }

  /** Builds the report; the only failure is a curve that cannot be downsampled to the configured size. */
  method BuildReport(source: Export, f: Filters, tol: real, cfg: AnalyticsConfig)
    returns (res: Result<Report, SampleError>)
    ensures res.Success? ==> IsReport(res.value, source, f, tol, cfg)
    ensures res.Failure? ==> cfg.equityCurveMaxPoints <= 0
  {
    if source.StoreUnavailable? {
      return Success(EmptyReport(cfg));
    }
    var excluded, noTrades, missed, samples := CollectSamples(source, f, tol);
    var dd, points := ComputeDrawdown(samples);
    var breakdowns := ComputeBreakdowns(DIMENSIONS, samples, cfg);
    var curve := Downsample(points, cfg.equityCurveMaxPoints);
    if curve.Failure? {
      return Failure(curve.error);
    }
    res := Success(Report(
      true, GroupStatsOf("ALL", samples, cfg), dd, breakdowns, noTrades, missed, excluded, curve.value,
      cfg.disclaimer, "DESCRIPTIVE_ONLY"));
  }

  /**
   * Conservation: in every report each exported record is excluded for exactly one reason, is a decision record, or
   * is counted in the overall group.
   */
  lemma ReportConservesRecords(r: Report, source: Export, f: Filters, tol: real, cfg: AnalyticsConfig)
    requires IsReport(r, source, f, tol, cfg)
    ensures |RecordsOf(source)| == r.excluded.filtered + r.excluded.tampered + r.excluded.notClosed
                                   + r.excluded.synthetic + r.noTrades + r.missedEntries + r.overall.count
  {
    FatesPartition(RecordsOf(source), f, tol);
  }

  /**
   * The published curve has at most the configured number of points and, when there is any R, ends at the total R
   * of the overall group.
   */
  lemma ReportCurveEndsAtTotal(r: Report, source: Export, f: Filters, tol: real, cfg: AnalyticsConfig)
    requires IsReport(r, source, f, tol, cfg) && cfg.equityCurveMaxPoints > 0
    ensures |r.equityCurve| <= cfg.equityCurveMaxPoints
    ensures |r.equityCurve| > 0 <==> r.overall.totalR.Some?
    ensures |r.equityCurve| > 0 ==> r.overall.totalR == Some(r.equityCurve[|r.equityCurve| - 1].cumulativeR)
  {
    var samples := CountedSamples(RecordsOf(source), f, tol);
    if source.StoreUnavailable? {
      CurveEndsAtTotal("ALL", [], cfg);
    } else {
      CurveEndsAtTotal("ALL", samples, cfg);
      DownsampleKeepsOrder(Curve(Ordered(samples)), cfg.equityCurveMaxPoints);
    }
  }
}
