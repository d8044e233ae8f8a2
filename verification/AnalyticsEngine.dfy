/** The analytics computations: group figures and breakdowns. */
module AnalyticsEngine {
  import opened Wrappers
  import opened Domain
  import opened Seqs
  import opened Ordering
  import opened Rounding
  import opened AnalyticsModels

  function LabelFor(count: int, cfg: AnalyticsConfig): SampleSizeLabel {
    if count >= cfg.strongerFrom then STRONGER_EVIDENCE
    else if count >= cfg.moderateFrom then MODERATE
    else if count >= cfg.limitedFrom then LIMITED
    else INSUFFICIENT
  }

  function Sum(rs: seq<real>): real {
    if |rs| == 0 then 0.0 else Sum(rs[..|rs| - 1]) + rs[|rs| - 1]
  }

  /** The rounded mean of `n` values with the given total. */
  function Mean(total: real, n: nat): Option<real> {
    if n == 0 then None else Some(Round4(total / n as real))
  }

  function OrZero(x: Option<real>): real {
    if x.Some? then x.value else 0.0
  }

  predicate Any(s: Sample) { true }
  predicate IsWin(s: Sample) { s.win }
  predicate IsNotWin(s: Sample) { !s.win }
  predicate IsBreakeven(s: Sample) { !s.win && s.breakeven }
  predicate IsLoss(s: Sample) { !s.win && !s.breakeven }
  predicate HasR(s: Sample) { s.r.Some? }
  function RValue(s: Sample): real { OrZero(s.r) }

  predicate IsPositive(r: real) { r > 0.0 }
  predicate IsNegative(r: real) { r < 0.0 }

  /** The defined R values of the samples that satisfy `p`, in the order of the samples. */
  function Rs(p: Sample -> bool, samples: seq<Sample>): seq<real> {
    Map(RValue, Filter(p, Filter(HasR, samples)))
  }

  /** Numbers and totals of a list of samples, from which all its figures follow. */
  datatype Tally = Tally(
    count: nat, wins: nat, breakeven: nat, rCount: nat, rTotal: real, winCount: nat, winTotal: real,
    otherCount: nat, otherTotal: real, gains: real, falls: real)

  function TallyOf(samples: seq<Sample>): Tally {
    var rs, winRs, otherRs := Rs(Any, samples), Rs(IsWin, samples), Rs(IsNotWin, samples);
    Tally(
      |samples|, |Filter(IsWin, samples)|, |Filter(IsBreakeven, samples)|, |rs|, Sum(rs), |winRs|, Sum(winRs),
      |otherRs|, Sum(otherRs), Sum(Filter(IsPositive, rs)), -Sum(Filter(IsNegative, rs)))
  }

  function FromTally(key: string, t: Tally, cfg: AnalyticsConfig): GroupStats {
    GroupStats(
      key, t.count, LabelFor(t.count, cfg), t.wins, t.count - t.wins - t.breakeven, t.breakeven,
      if t.count > 0 then Some(Round4(t.wins as real / t.count as real)) else None,
      t.rCount, Mean(t.rTotal, t.rCount), if t.rCount > 0 then Some(Round4(t.rTotal)) else None,
      Mean(t.winTotal, t.winCount), Mean(t.otherTotal, t.otherCount),
      if t.rCount > 0
      then Some(Expectancy(
        t.winCount as real / t.rCount as real, OrZero(Mean(t.winTotal, t.winCount)),
        OrZero(Mean(t.otherTotal, t.otherCount))))
      else None,
      if t.falls > 0.0 then Some(Round4(t.gains / t.falls)) else None)
  }

  /** The win share times the rounded average win plus the remaining share times the rounded average non-win. */
  function Expectancy(p: real, avgWin: real, avgOther: real): real {
    Round4(p * avgWin + (1.0 - p) * avgOther)
  }

  function GroupStatsOf(key: string, samples: seq<Sample>, cfg: AnalyticsConfig): GroupStats {
    FromTally(key, TallyOf(samples), cfg)
  }

  // ---------------------------------------------------------------- breakdown

  function KeyIs(key: Sample -> string, k: string): Sample -> bool {
    s => key(s) == k
  }

  /** The samples of one bucket, in the order of the input. */
  function Bucket(key: Sample -> string, k: string, samples: seq<Sample>): seq<Sample> {
    Filter(KeyIs(key, k), samples)
  }

  /** The keys in the order of their first sample: the insertion order of the buckets. */
  function Keys(key: Sample -> string, samples: seq<Sample>): seq<string> {
    if |samples| == 0 then []
    else
      var ks := Keys(key, samples[..|samples| - 1]);
      var k := key(samples[|samples| - 1]);
      if k in ks then ks else ks + [k]
  }

  function GroupOf(key: Sample -> string, samples: seq<Sample>, cfg: AnalyticsConfig): string -> GroupStats {
    k => GroupStatsOf(k, Bucket(key, k, samples), cfg)
  }

  /** Larger groups first, ties by key. */
  predicate GroupLeq(g: GroupStats, h: GroupStats) {
    g.count > h.count || (g.count == h.count && StringLeq(g.key, h.key))
  }

  function Groups(key: Sample -> string, samples: seq<Sample>, cfg: AnalyticsConfig): seq<GroupStats> {
    Sort(GroupLeq, Map(GroupOf(key, samples, cfg), Keys(key, samples)))
  }

  predicate IsEligible(floor: SampleSizeLabel, g: GroupStats) {
    LabelOrder(g.sizeLabel) >= LabelOrder(floor) && g.expectancyR.Some?
  }

  function Eligible(floor: SampleSizeLabel): GroupStats -> bool {
    g => IsEligible(floor, g)
  }

  /** `g` is strictly better than `h`: higher expectancy, ties by count. */
  predicate Better(g: GroupStats, h: GroupStats) {
    OrZero(g.expectancyR) > OrZero(h.expectancyR)
    || (OrZero(g.expectancyR) == OrZero(h.expectancyR) && g.count > h.count)
  }

  /** The first element that no other one is better than. */
  function MaxGroup(gs: seq<GroupStats>): GroupStats
    requires |gs| > 0
  {
    if |gs| == 1 then gs[0]
    else
      var top, last := MaxGroup(gs[..|gs| - 1]), gs[|gs| - 1];
      if Better(last, top) then last else top
  }

  function BreakdownOfGroups(dimension: string, groups: seq<GroupStats>, cfg: AnalyticsConfig): Breakdown {
    var eligible := Filter(Eligible(cfg.bestGroupMinLabel), groups);
    if |groups| < 2 then Breakdown(dimension, groups, None, FEWER_THAN_TWO_GROUPS)
    else if |eligible| == 0 then Breakdown(dimension, groups, None, NO_GROUP_REACHES_THE_FLOOR)
    else Breakdown(dimension, groups, Some(MaxGroup(eligible).key), HIGHEST_EXPECTANCY)
  }

  function BreakdownOf(
    dimension: string, samples: seq<Sample>, key: Sample -> string, cfg: AnalyticsConfig): Breakdown
  {
    BreakdownOfGroups(dimension, Groups(key, samples, cfg), cfg)
  }

  /** Fills the buckets in one pass, then orders the groups and picks the best one. */
  method ComputeBreakdown(
      dimension: string, samples: seq<Sample>, key: Sample -> string, cfg: AnalyticsConfig)
    returns (b: Breakdown)
    ensures b == BreakdownOf(dimension, samples, key, cfg)
  {
    var buckets: map<string, seq<Sample>> := map[];
    var order: seq<string> := [];
    for i := 0 to |samples|
      invariant order == Keys(key, samples[..i])
      invariant forall k :: k in buckets <==> k in order
      invariant forall k :: k in buckets ==> buckets[k] == Bucket(key, k, samples[..i])
      invariant forall k :: k !in buckets ==> Bucket(key, k, samples[..i]) == []
    {
      var s := samples[i];
      var k := key(s);
      assert samples[..i + 1][..i] == samples[..i];
      forall k' ensures Bucket(key, k', samples[..i + 1])
                        == if key(s) == k' then Bucket(key, k', samples[..i]) + [s]
                           else Bucket(key, k', samples[..i]) {
        FilterStep(KeyIs(key, k'), samples, i);
      }
      if k in buckets {
        buckets := buckets[k := buckets[k] + [s]];
      } else {
        buckets := buckets[k := [s]];
        order := order + [k];
      }
    }
    assert samples[..|samples|] == samples;
    var groups: seq<GroupStats> := [];
    for i := 0 to |order|
      invariant groups == Map(GroupOf(key, samples, cfg), order[..i])
    {
      MapStep(GroupOf(key, samples, cfg), order, i);
      groups := groups + [GroupStatsOf(order[i], buckets[order[i]], cfg)];
    }
    assert order[..|order|] == order;
    b := BreakdownOfGroups(dimension, Sort(GroupLeq, groups), cfg);
  }

  // ---------------------------------------------------------------- downsample

  datatype SampleError = DIVISION_BY_ZERO | NO_LAST_POINT

  /** Index of the i-th picked point: the integer part of i times points / limit. */
  function Pick(n: nat, limit: nat, i: nat): (k: nat)
    requires limit > 0
  {
    i * n / limit
  }

  function Downsample(points: seq<EquityPoint>, limit: int): Result<seq<EquityPoint>, SampleError> {
    if |points| <= limit then Success(points)
    else if limit == 0 then Failure(DIVISION_BY_ZERO)
    else if |points| == 0 then Failure(NO_LAST_POINT)
    else if limit < 0 then Success([points[|points| - 1]])
    else
      Success(
        seq(limit - 1, i requires 0 <= i < limit - 1 => PickBelow(|points|, limit, i); points[Pick(|points|, limit, i)])
        + [points[|points| - 1]])
  }

  lemma PickBelow(n: nat, limit: nat, i: nat)
    requires 0 < limit < n && i < limit - 1
    ensures Pick(n, limit, i) < n - 1
    ensures Pick(n, limit, i) < Pick(n, limit, i + 1)
  {
    var q := Pick(n, limit, i);
    assert q * limit <= i * n by {
      assert i * n == q * limit + i * n % limit;
    }
    assert (i + 1) * n > (q + 1) * limit by {
      assert i * n == q * limit + i * n % limit;
      assert (i + 1) * n == i * n + n && (q + 1) * limit == q * limit + limit;
    }
    DivAtLeast((i + 1) * n, limit, q + 1);
    MulLeq(i + 2, limit, n);
    assert (i + 2) * n == i * n + 2 * n && (n - 2) * limit == limit * n - 2 * limit;
    MulLess(q, n - 2, limit);
  }

  lemma MulLeq(a: nat, b: nat, c: nat)
    requires a <= b
    ensures a * c <= b * c
  {
  }

  lemma MulLess(a: nat, b: nat, c: nat)
    requires a * c < b * c
    ensures a < b
  {
    if b <= a {
      MulLeq(b, a, c);
    }
  }

  lemma DivAtLeast(x: nat, d: nat, q: nat)
    requires d > 0 && x >= q * d
    ensures x / d >= q
  {
    assert x < (x / d + 1) * d by {
      assert x == (x / d) * d + x % d;
    }
    MulLess(q, x / d + 1, d);
  }

  // ---------------------------------------------------------------- dimensions

  function OrNone(x: Option<string>): string {
    if x.Some? && x.value != "" then x.value else "NONE"
  }

  function SymbolKey(s: Sample): string { s.symbol }
  function SessionKey(s: Sample): string { s.session }
  function SetupTypeKey(s: Sample): string { s.setupType }
  function TimeframeKey(s: Sample): string { s.timeframe }
  function DayOfWeekKey(s: Sample): string { s.dayOfWeek }
  function NoWickKey(s: Sample): string { OrNone(s.noWick) }
  function LiquidityEventKey(s: Sample): string { OrNone(s.liquidityEvent) }
  function DirectionKey(s: Sample): string { if s.direction == BULLISH then "BULLISH" else "BEARISH" }
  function ResultKey(s: Sample): string { s.result }

  const DIMENSIONS: seq<(string, Sample -> string)> := [
    ("ASSET", SymbolKey), ("SESSION", SessionKey), ("SETUP_TYPE", SetupTypeKey), ("TIMEFRAME", TimeframeKey),
    ("DAY_OF_WEEK", DayOfWeekKey), ("NO_WICK", NoWickKey), ("LIQUIDITY_EVENT", LiquidityEventKey),
    ("DIRECTION", DirectionKey), ("RESULT", ResultKey)
  ]
}
