/** What the figures of a group and of a breakdown are, told by the records themselves. */
module GroupLaws {
  import opened Wrappers
  import opened Seqs
  import opened Ordering
  import opened Rounding
  import opened AnalyticsModels
  import opened AnalyticsEngine
  import opened AnalyticsLaws

  // ---------------------------------------------------------------- figures of a group

  /** How many records satisfy the test. */
  function Number(p: Sample -> bool, samples: seq<Sample>): nat {
    if |samples| == 0 then 0
    else Number(p, samples[..|samples| - 1]) + if p(samples[|samples| - 1]) then 1 else 0
  }

  /** The R values of the records that satisfy the test, added up. */
  function Total(p: Sample -> bool, samples: seq<Sample>): real {
    if |samples| == 0 then 0.0
    else
      var last := samples[|samples| - 1];
      Total(p, samples[..|samples| - 1]) + if last.r.Some? && p(last) then last.r.value else 0.0
  }

  function WithR(p: Sample -> bool): Sample -> bool {
    (s: Sample) => s.r.Some? && p(s)
  }

  const ALL: Sample -> bool := (s: Sample) => true
  const WON: Sample -> bool := (s: Sample) => s.win
  const NOT_WON: Sample -> bool := (s: Sample) => !s.win
  const EVEN: Sample -> bool := (s: Sample) => !s.win && s.breakeven
  const LOST: Sample -> bool := (s: Sample) => !s.win && !s.breakeven
  const GAINED: Sample -> bool := (s: Sample) => s.r.Some? && s.r.value > 0.0
  const FELL: Sample -> bool := (s: Sample) => s.r.Some? && s.r.value < 0.0

  /** The figure is the total over the number, rounded; none when there is nothing to divide by. */
  predicate IsMean(figure: Option<real>, total: real, number: nat) {
    if number == 0 then figure.None? else figure == Some(Round4(total / number as real))
  }

  /** The label says which thresholds the number reaches. */
  predicate IsLabel(size: SampleSizeLabel, number: int, cfg: AnalyticsConfig) {
    match size
    case STRONGER_EVIDENCE => number >= cfg.strongerFrom
    case MODERATE => cfg.moderateFrom <= number < cfg.strongerFrom
    case LIMITED => cfg.limitedFrom <= number < cfg.moderateFrom
    case INSUFFICIENT => number < cfg.limitedFrom
  }

  function ValueOrZero(figure: Option<real>): real {
    if figure.Some? then figure.value else 0.0
  }

  function Weighted(p: real, x: real, y: real): real {
    p * x + (1.0 - p) * y
  }

  /** The share of wins times the average win, plus the other share times the other average, rounded. */
  predicate IsExpectancy(figure: Option<real>, wins: nat, number: nat, won: Option<real>, other: Option<real>) {
    if number == 0 then figure.None?
    else
      var p := wins as real / number as real;
      figure == Some(Round4(Weighted(p, ValueOrZero(won), ValueOrZero(other))))
  }

  /** What was gained over what was lost, rounded; none when nothing was lost. */
  predicate IsProfitFactor(figure: Option<real>, gained: real, lost: real) {
    if lost > 0.0 then figure == Some(Round4(gained / lost)) else figure.None?
  }

  /** Counts, label, rates, averages, expectancy and profit factor of the records. */
  predicate IsFigures(g: GroupStats, key: string, samples: seq<Sample>, cfg: AnalyticsConfig) {
    && g.key == key && g.count == |samples| && IsLabel(g.sizeLabel, |samples|, cfg)
    && g.wins == Number(WON, samples) && g.breakeven == Number(EVEN, samples) && g.losses == Number(LOST, samples)
    && IsMean(g.winRate, g.wins as real, |samples|) && g.rCount == Number(WithR(ALL), samples)
    && IsMean(g.avgR, Total(ALL, samples), Number(WithR(ALL), samples))
    && g.totalR == (if Number(WithR(ALL), samples) == 0 then None else Some(Round4(Total(ALL, samples))))
    && IsMean(g.avgWinR, Total(WON, samples), Number(WithR(WON), samples))
    && IsMean(g.avgLossR, Total(NOT_WON, samples), Number(WithR(NOT_WON), samples))
    && IsExpectancy(
         g.expectancyR, Number(WithR(WON), samples), Number(WithR(ALL), samples), g.avgWinR, g.avgLossR)
    && IsProfitFactor(g.profitFactor, Total(GAINED, samples), -Total(FELL, samples))
  }

  lemma {:induction false} NumberIs(p: Sample -> bool, q: Sample -> bool, samples: seq<Sample>)
    requires forall s: Sample :: p(s) == q(s)
    ensures |Filter(p, samples)| == Number(q, samples)
  {
    if |samples| != 0 {
      NumberIs(p, q, samples[..|samples| - 1]);
    }
  }

  lemma {:induction false} RsAre(p: Sample -> bool, q: Sample -> bool, samples: seq<Sample>)
    requires forall s: Sample :: p(s) == q(s)
    ensures |Rs(p, samples)| == Number(WithR(q), samples) && Sum(Rs(p, samples)) == Total(q, samples)
  {
    if |samples| != 0 {
      var front, last := samples[..|samples| - 1], samples[|samples| - 1];
      RsAre(p, q, front);
      FrontLast(samples);
      FilterSnoc(HasR, front, last);
      if last.r.Some? {
        FilterSnoc(p, Filter(HasR, front), last);
        SumWhereSnoc(p, Filter(HasR, front), last);
      }
    }
  }

  lemma {:induction false} SignedSum(sign: real -> bool, q: Sample -> bool, samples: seq<Sample>)
    requires forall s: Sample :: q(s) <==> s.r.Some? && sign(s.r.value)
    ensures Sum(Filter(sign, Rs(Any, samples))) == Total(q, samples)
  {
    if |samples| != 0 {
      var front, last := samples[..|samples| - 1], samples[|samples| - 1];
      SignedSum(sign, q, front);
      FrontLast(samples);
      FilterSnoc(HasR, front, last);
      if last.r.Some? {
        var hs := Filter(HasR, front);
        FilterSnoc(Any, hs, last);
        MapSnoc(RValue, Filter(Any, hs), last);
        FilterSnoc(sign, Rs(Any, front), last.r.value);
        SumSnoc(Filter(sign, Rs(Any, front)), last.r.value);
      }
    }
  }

  lemma {:induction false} SumSnoc(rs: seq<real>, x: real)
    ensures Sum(rs + [x]) == Sum(rs) + x
  {
    assert (rs + [x])[..|rs|] == rs;
  }

  /** The numbers and totals behind the figures are those of the records. */
  lemma {:induction false} TallyIs(samples: seq<Sample>)
    ensures var t := TallyOf(samples);
            && t.count == |samples| && t.wins == Number(WON, samples) && t.breakeven == Number(EVEN, samples)
            && t.rCount == Number(WithR(ALL), samples) && t.rTotal == Total(ALL, samples)
            && t.winCount == Number(WithR(WON), samples) && t.winTotal == Total(WON, samples)
            && t.otherCount == Number(WithR(NOT_WON), samples) && t.otherTotal == Total(NOT_WON, samples)
            && t.gains == Total(GAINED, samples) && t.falls == -Total(FELL, samples)
  {
    NumberIs(IsWin, WON, samples);
    NumberIs(IsBreakeven, EVEN, samples);
    RsAre(Any, ALL, samples);
    RsAre(IsWin, WON, samples);
    RsAre(IsNotWin, NOT_WON, samples);
    SignedSum(IsPositive, GAINED, samples);
    SignedSum(IsNegative, FELL, samples);
  }

  lemma {:induction false} CountsSplit(samples: seq<Sample>)
    ensures |samples| == Number(WON, samples) + Number(EVEN, samples) + Number(LOST, samples)
  {
    if |samples| != 0 {
      CountsSplit(samples[..|samples| - 1]);
    }
  }

  /** Every figure of a group is the one of its records. */
  lemma {:induction false} FiguresAreTold(key: string, samples: seq<Sample>, cfg: AnalyticsConfig)
    requires cfg.Valid()
    ensures IsFigures(GroupStatsOf(key, samples, cfg), key, samples, cfg)
  {
    TallyIs(samples);
    CountsSplit(samples);
    FiguresOfTally(key, TallyOf(samples), samples, cfg);
  }

  lemma {:induction false} FiguresOfTally(key: string, t: Tally, samples: seq<Sample>, cfg: AnalyticsConfig)
    requires cfg.Valid() && |samples| == Number(WON, samples) + Number(EVEN, samples) + Number(LOST, samples)
    requires t.count == |samples| && t.wins == Number(WON, samples) && t.breakeven == Number(EVEN, samples)
    requires t.rCount == Number(WithR(ALL), samples) && t.rTotal == Total(ALL, samples)
    requires t.winCount == Number(WithR(WON), samples) && t.winTotal == Total(WON, samples)
    requires t.otherCount == Number(WithR(NOT_WON), samples) && t.otherTotal == Total(NOT_WON, samples)
    requires t.gains == Total(GAINED, samples) && t.falls == -Total(FELL, samples)
    ensures IsFigures(FromTally(key, t, cfg), key, samples, cfg)
  {
    var g := FromTally(key, t, cfg);
    assert IsMean(g.winRate, g.wins as real, |samples|) by {
      ShareIs(t.wins, t.count);
    }
    assert IsMean(g.avgR, Total(ALL, samples), Number(WithR(ALL), samples)) by {
      MeanIs(t.rTotal, t.rCount);
    }
    assert IsMean(g.avgWinR, Total(WON, samples), Number(WithR(WON), samples)) by {
      MeanIs(t.winTotal, t.winCount);
    }
    assert IsMean(g.avgLossR, Total(NOT_WON, samples), Number(WithR(NOT_WON), samples)) by {
      MeanIs(t.otherTotal, t.otherCount);
    }
    assert IsExpectancy(
        g.expectancyR, Number(WithR(WON), samples), Number(WithR(ALL), samples), g.avgWinR, g.avgLossR) by {
      ExpectancyIs(t.winCount, t.rCount, Mean(t.winTotal, t.winCount), Mean(t.otherTotal, t.otherCount));
    }
    assert IsProfitFactor(g.profitFactor, Total(GAINED, samples), -Total(FELL, samples)) by {
      ProfitFactorIs(t.gains, t.falls);
    }
    assert IsLabel(g.sizeLabel, |samples|, cfg) by {
      LabelIs(t.count, cfg);
    }
  }

  lemma ShareIs(part: nat, number: nat)
    ensures IsMean(
              if number > 0 then Some(Round4(part as real / number as real)) else None, part as real, number)
  {
  }

  lemma MeanIs(total: real, number: nat)
    ensures IsMean(Mean(total, number), total, number)
  {
  }

  lemma ExpectancyIsWeighted(p: real, x: real, y: real)
    ensures Expectancy(p, x, y) == Round4(Weighted(p, x, y))
  {
    ExpectancyIsRounded(p, x, y, Weighted(p, x, y));
  }

  lemma ExpectancyIs(wins: nat, number: nat, won: Option<real>, other: Option<real>)
    ensures IsExpectancy(
              if number > 0 then Some(Expectancy(wins as real / number as real, OrZero(won), OrZero(other))) else None,
              wins, number, won, other)
  {
    if number > 0 {
      var p := wins as real / number as real;
      ExpectancyIsWeighted(p, OrZero(won), OrZero(other));
      assert OrZero(won) == ValueOrZero(won) && OrZero(other) == ValueOrZero(other);
    }
  }

  lemma ProfitFactorIs(gained: real, lost: real)
    ensures IsProfitFactor(if lost > 0.0 then Some(Round4(gained / lost)) else None, gained, lost)
  {
  }

  lemma LabelIs(number: nat, cfg: AnalyticsConfig)
    requires cfg.Valid()
    ensures IsLabel(LabelFor(number, cfg), number, cfg)
  {
  }

  // ---------------------------------------------------------------- groups of a breakdown

  /** The bucket holds the records of the key, as often as they occur. */
  ghost predicate IsBucket(key: Sample -> string, k: string, samples: seq<Sample>, bucket: seq<Sample>) {
    forall s: Sample :: multiset(bucket)[s] == if key(s) == k then multiset(samples)[s] else 0
  }

  ghost predicate IsGroup(key: Sample -> string, samples: seq<Sample>, cfg: AnalyticsConfig, g: GroupStats) {
    exists bucket :: IsBucket(key, g.key, samples, bucket) && IsFigures(g, g.key, bucket, cfg)
  }

  ghost predicate HasGroup(gs: seq<GroupStats>, k: string) {
    exists i :: 0 <= i < |gs| && gs[i].key == k
  }

  ghost predicate HasRecord(samples: seq<Sample>, key: Sample -> string, k: string) {
    exists i :: 0 <= i < |samples| && key(samples[i]) == k
  }

  /** Larger groups come first, groups of the same size in the order of their keys. */
  ghost predicate InGroupOrder(gs: seq<GroupStats>) {
    forall i, j :: 0 <= i < j < |gs| ==>
      gs[i].count > gs[j].count
      || (gs[i].count == gs[j].count && gs[i].key != gs[j].key && Lexicographic(gs[i].key, gs[j].key))
  }

  lemma {:induction false} GroupIsTold(key: Sample -> string, k: string, samples: seq<Sample>, cfg: AnalyticsConfig)
    requires cfg.Valid()
    ensures IsGroup(key, samples, cfg, GroupOf(key, samples, cfg)(k)) && GroupOf(key, samples, cfg)(k).key == k
  {
    var bucket := Bucket(key, k, samples);
    forall s: Sample ensures multiset(bucket)[s] == if key(s) == k then multiset(samples)[s] else 0 {
      FilterCount(KeyIs(key, k), samples, s);
    }
    FiguresAreTold(k, bucket, cfg);
    assert IsBucket(key, k, samples, bucket);
  }

  lemma {:induction false} RawGroupsAreTold(key: Sample -> string, samples: seq<Sample>, cfg: AnalyticsConfig)
    requires cfg.Valid()
    ensures forall g :: g in RawGroups(key, samples, cfg) ==> IsGroup(key, samples, cfg, g)
    ensures forall k: string :: HasGroup(RawGroups(key, samples, cfg), k) <==> HasRecord(samples, key, k)
  {
    var ks, gs := Keys(key, samples), RawGroups(key, samples, cfg);
    KeysAreTheKeys(key, samples);
    forall i | 0 <= i < |ks| ensures IsGroup(key, samples, cfg, gs[i]) && gs[i].key == ks[i] {
      GroupIsTold(key, ks[i], samples, cfg);
    }
    forall k: string ensures HasGroup(gs, k) <==> k in ks {
      if k in ks {
        var i :| 0 <= i < |ks| && ks[i] == k;
        assert gs[i].key == k;
      }
    }
  }

  lemma {:induction false} RawGroupsDistinct(key: Sample -> string, samples: seq<Sample>, cfg: AnalyticsConfig)
    ensures Distinct(RawGroups(key, samples, cfg))
  {
    KeysAreTheKeys(key, samples);
    var ks, gs := Keys(key, samples), RawGroups(key, samples, cfg);
    forall i, j | 0 <= i < j < |gs| ensures gs[i] != gs[j] {
      assert gs[i].key == ks[i] && gs[j].key == ks[j];
    }
  }

  lemma {:induction false} SameGroups(gs: seq<GroupStats>, raw: seq<GroupStats>)
    requires multiset(gs) == multiset(raw) && Distinct(raw)
    ensures Distinct(gs) && forall g :: g in gs ==> g in raw
    ensures forall k: string :: HasGroup(gs, k) <==> HasGroup(raw, k)
  {
    PermutedDistinct(raw, gs);
    forall g ensures g in gs <==> g in raw {
      assert g in multiset(gs) <==> g in multiset(raw);
    }
    forall k: string ensures HasGroup(gs, k) <==> HasGroup(raw, k) {
      if i :| 0 <= i < |gs| && gs[i].key == k {
        assert gs[i] in raw;
      }
      if i :| 0 <= i < |raw| && raw[i].key == k {
        assert raw[i] in gs;
      }
    }
  }

  lemma {:induction false} SortedGroups(gs: seq<GroupStats>, raw: seq<GroupStats>)
    requires Sorted(GroupLeq, gs) && Distinct(gs) && forall g :: g in gs ==> g in raw
    requires forall g, h :: g in raw && h in raw && g.key == h.key ==> g == h
    ensures InGroupOrder(gs)
  {
    forall i, j | 0 <= i < j < |gs|
      ensures gs[i].count > gs[j].count
              || (gs[i].count == gs[j].count && gs[i].key != gs[j].key && Lexicographic(gs[i].key, gs[j].key))
    {
      assert gs[i] in raw && gs[j] in raw && GroupLeq(gs[i], gs[j]);
      StringLeqIsLexicographic(gs[i].key, gs[j].key);
    }
  }

  /**
   * The groups of a breakdown: one for each key that a record has, with the figures of exactly the records of that key,
   * larger groups first and groups of one size in the order of their keys.
   */
  lemma {:induction false} GroupsAreTold(key: Sample -> string, samples: seq<Sample>, cfg: AnalyticsConfig)
    requires cfg.Valid()
    ensures var gs := Groups(key, samples, cfg);
            && InGroupOrder(gs) && (forall g :: g in gs ==> IsGroup(key, samples, cfg, g))
            && forall k: string :: HasGroup(gs, k) <==> HasRecord(samples, key, k)
  {
    var raw := RawGroups(key, samples, cfg);
    RawGroupsAreTold(key, samples, cfg);
    RawGroupsDistinct(key, samples, cfg);
    RawGroupsNeverTie(key, samples, cfg);
    SortedRaw(raw);
    SameGroups(Sort(GroupLeq, raw), raw);
    SortedGroups(Sort(GroupLeq, raw), raw);
  }

  lemma {:induction false} SortedRaw(raw: seq<GroupStats>)
    ensures Sorted(GroupLeq, Sort(GroupLeq, raw)) && multiset(Sort(GroupLeq, raw)) == multiset(raw)
  {
    GroupOrderIsTotal();
    SortSorts(GroupLeq, raw);
    SortPermutes(GroupLeq, raw);
  }

  // ---------------------------------------------------------------- the best group

  /** The label is the floor or one that stands for more records. */
  predicate Reaches(size: SampleSizeLabel, floor: SampleSizeLabel) {
    match floor
    case INSUFFICIENT => true
    case LIMITED => size.LIMITED? || size.MODERATE? || size.STRONGER_EVIDENCE?
    case MODERATE => size.MODERATE? || size.STRONGER_EVIDENCE?
    case STRONGER_EVIDENCE => size.STRONGER_EVIDENCE?
  }

  predicate MayBeBest(g: GroupStats, floor: SampleSizeLabel) {
    Reaches(g.sizeLabel, floor) && g.expectancyR.Some?
  }

  /** No group that may be best has a higher expectancy, nor the same one and more records, nor both and comes first. */
  ghost predicate IsBestAt(gs: seq<GroupStats>, floor: SampleSizeLabel, k: nat) {
    && k < |gs| && MayBeBest(gs[k], floor)
    && forall i :: 0 <= i < |gs| && MayBeBest(gs[i], floor) ==>
         && gs[i].expectancyR.value <= gs[k].expectancyR.value
         && (gs[i].expectancyR.value == gs[k].expectancyR.value ==>
               gs[i].count <= gs[k].count && (gs[i].count == gs[k].count ==> k <= i))
  }

  ghost predicate NoneMayBeBest(gs: seq<GroupStats>, floor: SampleSizeLabel) {
    forall i :: 0 <= i < |gs| ==> !MayBeBest(gs[i], floor)
  }

  /** The best of the groups that may be best is the one that the loop over them finds. */
  ghost predicate FindsBest(gs: seq<GroupStats>, floor: SampleSizeLabel) {
    var eligible := Filter(Eligible(floor), gs);
    && (|eligible| == 0 <==> NoneMayBeBest(gs, floor))
    && (|eligible| > 0 ==> exists k: nat :: IsBestAt(gs, floor, k) && MaxGroup(eligible) == gs[k])
  }

  lemma {:induction false} MaxGroupSnoc(gs: seq<GroupStats>, g: GroupStats)
    ensures MaxGroup(gs + [g])
            == if |gs| > 0 && !Better(g, MaxGroup(gs)) then MaxGroup(gs) else g
  {
    assert (gs + [g])[..|gs|] == gs;
  }

  lemma EligibleIff(g: GroupStats, floor: SampleSizeLabel)
    ensures Eligible(floor)(g) <==> MayBeBest(g, floor)
  {
  }

  lemma {:induction false} BestStep(front: seq<GroupStats>, last: GroupStats, floor: SampleSizeLabel)
    requires FindsBest(front, floor)
    ensures FindsBest(front + [last], floor)
  {
    var before, gs := Filter(Eligible(floor), front), front + [last];
    FilterSnoc(Eligible(floor), front, last);
    EligibleIff(last, floor);
    MaxGroupSnoc(before, last);
    if |before| > 0 {
      var k: nat :| IsBestAt(front, floor, k) && MaxGroup(before) == front[k];
      BestGoesOn(front, last, floor, k);
      assert !NoneMayBeBest(gs, floor) by {
        assert MayBeBest(gs[k], floor);
      }
    } else {
      BestAlone(front, last, floor);
    }
  }

  lemma {:induction false} BestAlone(front: seq<GroupStats>, last: GroupStats, floor: SampleSizeLabel)
    requires NoneMayBeBest(front, floor)
    ensures if MayBeBest(last, floor)
            then IsBestAt(front + [last], floor, |front|) && !NoneMayBeBest(front + [last], floor)
            else NoneMayBeBest(front + [last], floor)
  {
    var gs := front + [last];
    assert gs[|front|] == last && forall i :: 0 <= i < |front| ==> gs[i] == front[i];
  }

  lemma {:induction false} BestAtEnd(gs: seq<GroupStats>, floor: SampleSizeLabel)
    ensures FindsBest(gs, floor)
  {
    if |gs| != 0 {
      BestAtEnd(gs[..|gs| - 1], floor);
      BestStep(gs[..|gs| - 1], gs[|gs| - 1], floor);
      FrontLast(gs);
    }
  }

  lemma {:induction false} BestGoesOn(front: seq<GroupStats>, last: GroupStats, floor: SampleSizeLabel, k: nat)
    requires IsBestAt(front, floor, k)
    ensures IsBestAt(front + [last], floor, if MayBeBest(last, floor) && Better(last, front[k]) then |front| else k)
  {
    var gs := front + [last];
    forall i | 0 <= i < |gs| ensures gs[i] == if i < |front| then front[i] else last {
    }
  }

  /**
   * The named group is the one of highest expectancy among those that reach the floor; of equal ones the largest, and
   * of these the first. None is named, for the reason given, when there are fewer than two groups or none may be best.
   */
  lemma {:induction false} BestGroupIsBest(dimension: string, gs: seq<GroupStats>, cfg: AnalyticsConfig)
    ensures var b, floor := BreakdownOfGroups(dimension, gs, cfg), cfg.bestGroupMinLabel;
            && b.dimension == dimension && b.groups == gs
            && (b.bestReason == FEWER_THAN_TWO_GROUPS <==> |gs| < 2)
            && (b.bestReason == NO_GROUP_REACHES_THE_FLOOR
                <==> |gs| >= 2 && NoneMayBeBest(gs, floor))
            && (b.best.Some? <==> b.bestReason == HIGHEST_EXPECTANCY)
            && (b.best.Some? ==> exists k: nat :: IsBestAt(gs, floor, k) && b.best.value == gs[k].key)
  {
    BestAtEnd(gs, cfg.bestGroupMinLabel);
  }
}
