/** What the group figures and breakdowns promise: rounding bounds, order independence and conservation. */
module AnalyticsLaws {
  import opened Wrappers
  import opened Seqs
  import opened Ordering
  import opened Rounding
  import opened AnalyticsModels
  import opened AnalyticsEngine

  // ---------------------------------------------------------------- expectancy

  lemma {:induction false} SumAppend(a: seq<real>, b: seq<real>)
    ensures Sum(a + b) == Sum(a) + Sum(b)
  {
    if |b| == 0 {
      assert a + b == a;
    } else {
      SumAppend(a, b[..|b| - 1]);
      assert (a + b)[..|a + b| - 1] == a + b[..|b| - 1];
    }
  }

  lemma {:induction false} SumPermutes(a: seq<real>, b: seq<real>)
    requires multiset(a) == multiset(b)
    ensures Sum(a) == Sum(b)
    decreases |a|
  {
    SameSize(a, b);
    if |a| != 0 {
      var i := RemoveLast(a, b);
      SumPermutes(a[..|a| - 1], Without(b, i));
      SumAppend(b[..i], b[i + 1..]);
      SumAppend(b[..i + 1], b[i + 1..]);
      assert b == b[..i + 1] + b[i + 1..];
      assert b[..i + 1][..i] == b[..i];
    }
  }

  /** The sum of the defined R values of the samples that satisfy `p`. */
  function SumWhere(p: Sample -> bool, hs: seq<Sample>): real {
    Sum(Map(RValue, Filter(p, hs)))
  }

  lemma SumWhereSnoc(p: Sample -> bool, hs: seq<Sample>, x: Sample)
    ensures SumWhere(p, hs + [x]) == SumWhere(p, hs) + if p(x) then RValue(x) else 0.0
  {
    FilterSnoc(p, hs, x);
    if p(x) {
      MapSnoc(RValue, Filter(p, hs), x);
      var m := Map(RValue, Filter(p, hs));
      assert (m + [RValue(x)])[..|m|] == m;
    }
  }

  lemma {:induction false} FilterAny(hs: seq<Sample>)
    ensures Filter(Any, hs) == hs
  {
    FilterAllPass(Any, hs);
  }

  /** Wins and non-wins split the samples: both their number and the sum of their R values add up. */
  lemma {:induction false} WinsSplit(hs: seq<Sample>)
    ensures |hs| == |Filter(IsWin, hs)| + |Filter(IsNotWin, hs)|
    ensures SumWhere(Any, hs) == SumWhere(IsWin, hs) + SumWhere(IsNotWin, hs)
  {
    if |hs| != 0 {
      var front, last := hs[..|hs| - 1], hs[|hs| - 1];
      WinsSplit(front);
      FrontLast(hs);
      SumWhereSnoc(Any, front, last);
      SumWhereSnoc(IsWin, front, last);
      SumWhereSnoc(IsNotWin, front, last);
    }
  }

  /** `x` stands for the rounded mean of `a` values with total `s`, and for 0 when there are none. */
  ghost predicate NearMean(x: real, s: real, a: real) {
    if a == 0.0 then x == 0.0 && s == 0.0 else Abs(x - s / a) <= 0.00005
  }

  /** A share times the rounded mean of its members misses their part of the overall mean by at most half a step. */
  lemma PartOfMean(p: real, a: real, n: real, s: real, x: real)
    requires 0.0 <= a <= n && n > 0.0 && p == a / n && NearMean(x, s, a)
    ensures 0.0 <= p <= 1.0 && Abs(p * x - s / n) <= p * 0.00005
  {
    if a == 0.0 {
      assert p == 0.0 && s / n == 0.0;
    } else {
      ShareTimesMean(p, a, n, s);
      ScaleBound(p, x - s / a, 0.00005);
      assert p * (x - s / a) == p * x - p * (s / a);
    }
  }

  lemma ShareTimesMean(p: real, a: real, n: real, s: real)
    requires 0.0 < a <= n && p == a / n
    ensures 0.0 <= p <= 1.0 && p * (s / a) == s / n
  {
    var q := s / a;
    assert p * n == a && q * a == s;
    assert p * q * n == s;
  }

  lemma ScaleBound(p: real, e: real, bound: real)
    requires p >= 0.0 && Abs(e) <= bound
    ensures Abs(p * e) <= p * bound
  {
    assert p * e <= p * bound && p * (-e) <= p * bound;
  }

  lemma SharesAddUp(a: real, b: real, n: real)
    requires n > 0.0 && a + b == n
    ensures b / n == 1.0 - a / n
  {
    assert b / n == (n - a) / n == n / n - a / n;
  }

  lemma MeansAddUp(s: real, t: real, n: real)
    requires n > 0.0
    ensures (s + t) / n == s / n + t / n
  {
    assert (s / n + t / n) * n == s + t;
  }

  lemma AddErrors(p: real, x: real, y: real, u: real, v: real, m: real)
    requires Abs(p * x - u) <= p * 0.00005 && Abs((1.0 - p) * y - v) <= (1.0 - p) * 0.00005 && m == u + v
    ensures Abs(p * x + (1.0 - p) * y - m) <= 0.00005
  {
    assert p * 0.00005 + (1.0 - p) * 0.00005 == 0.00005;
  }

  /** Weighted by their shares, two rounded means stay within half a step of the overall mean. */
  lemma WeightedError(p: real, a: real, b: real, n: real, s: real, t: real, x: real, y: real)
    requires a >= 0.0 && b >= 0.0 && a + b == n > 0.0 && p == a / n && NearMean(x, s, a) && NearMean(y, t, b)
    ensures Abs(p * x + (1.0 - p) * y - (s + t) / n) <= 0.00005
  {
    SharesAddUp(a, b, n);
    MeansAddUp(s, t, n);
    PartOfMean(p, a, n, s, x);
    PartOfMean(1.0 - p, b, n, t, y);
    AddErrors(p, x, y, s / n, t / n, (s + t) / n);
  }

  lemma RoundedNear(raw: real, mean: real)
    requires Abs(raw - mean) <= 0.00005
    ensures Abs(Round4(raw) - mean) <= 0.0001 && Abs(Round4(raw) - Round4(mean)) <= 0.0001
  {
    Round4Near(raw);
    Round4Near(mean);
    Round4OnGrid(raw);
    Round4OnGrid(mean);
    GridGap(Round4(raw), Round4(mean));
  }

  lemma MeanIsNear(s: real, a: nat)
    requires a == 0 ==> s == 0.0
    ensures NearMean(OrZero(Mean(s, a)), s, a as real)
  {
    if a > 0 {
      Round4Near(s / a as real);
    }
  }

  lemma ExpectancyIsRounded(p: real, x: real, y: real, raw: real)
    requires raw == p * x + (1.0 - p) * y
    ensures Expectancy(p, x, y) == Round4(raw)
  {
  }

  lemma ExpectancyOfParts(p: real, a: real, b: real, n: real, s: real, t: real, x: real, y: real)
    requires a >= 0.0 && b >= 0.0 && a + b == n > 0.0 && p == a / n && NearMean(x, s, a) && NearMean(y, t, b)
    ensures var e, mean := Expectancy(p, x, y), (s + t) / n;
            Abs(e - mean) <= 0.0001 && Abs(e - Round4(mean)) <= 0.0001
  {
    var raw, mean := p * x + (1.0 - p) * y, (s + t) / n;
    assert Abs(raw - mean) <= 0.00005 by {
      WeightedError(p, a, b, n, s, t, x, y);
    }
    assert Expectancy(p, x, y) == Round4(raw) by {
      ExpectancyIsRounded(p, x, y, raw);
    }
    assert Abs(Round4(raw) - mean) <= 0.0001 && Abs(Round4(raw) - Round4(mean)) <= 0.0001 by {
      RoundedNear(raw, mean);
    }
  }

  /**
   * For every list of samples with a defined R, the reported expectancy is within 0.0001 of the true mean R and
   * differs from the reported average R by at most 0.0001.
   */
  lemma ExpectancyNearMean(key: string, samples: seq<Sample>, cfg: AnalyticsConfig)
    requires |Rs(Any, samples)| > 0
    ensures var g := GroupStatsOf(key, samples, cfg);
            var rs := Rs(Any, samples);
            && g.expectancyR.Some? && g.avgR.Some?
            && Abs(g.expectancyR.value - Sum(rs) / |rs| as real) <= 0.0001
            && Abs(g.expectancyR.value - g.avgR.value) <= 0.0001
  {
    TallySplits(samples);
    ExpectancyOfTally(key, TallyOf(samples), cfg);
  }

  /** Wins and other trades make up the total of the R values. */
  lemma TallySplits(samples: seq<Sample>)
    ensures var t, rs := TallyOf(samples), Rs(Any, samples);
            && t.rCount == |rs| == t.winCount + t.otherCount && t.rTotal == Sum(rs) == t.winTotal + t.otherTotal
            && (t.winCount == 0 ==> t.winTotal == 0.0) && (t.otherCount == 0 ==> t.otherTotal == 0.0)
  {
    FilterAny(Filter(HasR, samples));
    WinsSplit(Filter(HasR, samples));
  }

  lemma ExpectancyOfTally(key: string, t: Tally, cfg: AnalyticsConfig)
    requires t.rCount == t.winCount + t.otherCount > 0 && t.rTotal == t.winTotal + t.otherTotal
    requires (t.winCount == 0 ==> t.winTotal == 0.0) && (t.otherCount == 0 ==> t.otherTotal == 0.0)
    ensures var g, mean := FromTally(key, t, cfg), t.rTotal / t.rCount as real;
            && g.expectancyR.Some? && g.avgR == Some(Round4(mean))
            && Abs(g.expectancyR.value - mean) <= 0.0001 && Abs(g.expectancyR.value - Round4(mean)) <= 0.0001
  {
    MeanIsNear(t.winTotal, t.winCount);
    MeanIsNear(t.otherTotal, t.otherCount);
    ExpectancyOfParts(
      t.winCount as real / t.rCount as real, t.winCount as real, t.otherCount as real, t.rCount as real,
      t.winTotal, t.otherTotal, OrZero(Mean(t.winTotal, t.winCount)), OrZero(Mean(t.otherTotal, t.otherCount)));
  }

  /** The share-weighted sum of the two rounded averages, before it is rounded itself. */
  ghost function RawExpectancy(t: Tally): real
    requires t.rCount > 0
  {
    var p := t.winCount as real / t.rCount as real;
    p * OrZero(Mean(t.winTotal, t.winCount)) + (1.0 - p) * OrZero(Mean(t.otherTotal, t.otherCount))
  }

  /**
   * Expectancy and average R are equal, as the header of the engine says, if and only if no half-step of the rounding
   * separates the share-weighted sum of the rounded averages from the mean.
   */
  lemma ExpectancyEqualsAverageIff(key: string, samples: seq<Sample>, cfg: AnalyticsConfig)
    requires |Rs(Any, samples)| > 0
    ensures var g, t := GroupStatsOf(key, samples, cfg), TallyOf(samples);
            && t.rCount > 0 && g.expectancyR.Some? && g.avgR.Some?
            && (g.expectancyR == g.avgR <==> NoHalfStepBetween(RawExpectancy(t), t.rTotal / t.rCount as real))
  {
    TallySplits(samples);
    ExpectancyIsRawRounded(key, TallyOf(samples), cfg);
    SameFigureIff(RawExpectancy(TallyOf(samples)), TallyOf(samples).rTotal / TallyOf(samples).rCount as real);
  }

  lemma ExpectancyIsRawRounded(key: string, t: Tally, cfg: AnalyticsConfig)
    requires t.rCount > 0
    ensures FromTally(key, t, cfg).expectancyR == Some(Round4(RawExpectancy(t)))
    ensures FromTally(key, t, cfg).avgR == Some(Round4(t.rTotal / t.rCount as real))
  {
    var p := t.winCount as real / t.rCount as real;
    ExpectancyIsRounded(
      p, OrZero(Mean(t.winTotal, t.winCount)), OrZero(Mean(t.otherTotal, t.otherCount)), RawExpectancy(t));
  }

  /** With only wins or only other trades among the records with R, expectancy and average R are the same figure. */
  lemma ExpectancyOfOneSided(key: string, samples: seq<Sample>, cfg: AnalyticsConfig)
    requires |Rs(Any, samples)| > 0 && (|Rs(IsWin, samples)| == 0 || |Rs(IsNotWin, samples)| == 0)
    ensures var g := GroupStatsOf(key, samples, cfg); g.expectancyR.Some? && g.expectancyR == g.avgR
  {
    TallySplits(samples);
    var t := TallyOf(samples);
    ExpectancyIsRawRounded(key, t, cfg);
    OneSidedRaw(t);
    Round4OnGrid(t.rTotal / t.rCount as real);
    Round4Keeps(Round4(t.rTotal / t.rCount as real));
  }

  lemma OneSidedRaw(t: Tally)
    requires t.rCount == t.winCount + t.otherCount > 0 && t.rTotal == t.winTotal + t.otherTotal
    requires (t.winCount == 0 && t.winTotal == 0.0) || (t.otherCount == 0 && t.otherTotal == 0.0)
    ensures RawExpectancy(t) == Round4(t.rTotal / t.rCount as real)
  {
    var p, n := t.winCount as real / t.rCount as real, t.rCount as real;
    if t.winCount == 0 {
      assert p == 0.0;
    } else {
      assert p == 1.0;
    }
  }

  /** When the averages of wins and of other trades have at most four decimals, the two figures are the same. */
  lemma ExpectancyOfExactAverages(key: string, samples: seq<Sample>, cfg: AnalyticsConfig)
    requires |Rs(Any, samples)| > 0
    requires var t := TallyOf(samples);
             && (t.winCount > 0 ==> OnGrid(t.winTotal / t.winCount as real))
             && (t.otherCount > 0 ==> OnGrid(t.otherTotal / t.otherCount as real))
    ensures var g := GroupStatsOf(key, samples, cfg); g.expectancyR.Some? && g.expectancyR == g.avgR
  {
    TallySplits(samples);
    var t := TallyOf(samples);
    ExpectancyIsRawRounded(key, t, cfg);
    ExactRaw(t);
  }

  lemma ExactRaw(t: Tally)
    requires t.rCount == t.winCount + t.otherCount > 0 && t.rTotal == t.winTotal + t.otherTotal
    requires (t.winCount == 0 ==> t.winTotal == 0.0) && (t.otherCount == 0 ==> t.otherTotal == 0.0)
    requires t.winCount > 0 ==> OnGrid(t.winTotal / t.winCount as real)
    requires t.otherCount > 0 ==> OnGrid(t.otherTotal / t.otherCount as real)
    ensures RawExpectancy(t) == t.rTotal / t.rCount as real
  {
    ExactShare(t.winCount, t.rCount, t.winTotal);
    ExactShare(t.otherCount, t.rCount, t.otherTotal);
    SharesAddUp(t.winCount as real, t.otherCount as real, t.rCount as real);
    MeansAddUp(t.winTotal, t.otherTotal, t.rCount as real);
  }

  /** The share of a part times its exact average is its part of the overall mean. */
  lemma ExactShare(a: nat, n: nat, total: real)
    requires a <= n && 0 < n && (a == 0 ==> total == 0.0) && (a > 0 ==> OnGrid(total / a as real))
    ensures a as real / n as real * OrZero(Mean(total, a)) == total / n as real
  {
    if a > 0 {
      Round4Keeps(total / a as real);
      ShareTimesMean(a as real / n as real, a as real, n as real, total);
    }
  }

  /** The bound is tight: one win of 0.15 beside five other trades of -0.5 and one of -0.496 tells the figures apart. */
  lemma {:induction false} ExpectancyCanDifferFromAverage(
      key: string, win: Sample, others: seq<Sample>, cfg: AnalyticsConfig)
    requires win.win && win.r == Some(0.15) && |others| == 6 && forall i :: 0 <= i < 6 ==> !others[i].win
    requires (forall i :: 0 <= i < 5 ==> others[i].r == Some(-0.5)) && others[5].r == Some(-0.496)
    ensures var g := GroupStatsOf(key, [win] + others, cfg);
            g.expectancyR == Some(-0.4065) && g.avgR == Some(-0.4066)
  {
    var s := [win] + others;
    FilterAllPass(HasR, s);
    FilterAny(s);
    OneAndRest(IsWin, win, others);
    OneAndRest(IsNotWin, win, others);
    assert Map(RValue, [win]) == [0.15];
    assert Map(RValue, others) == [-0.5, -0.5, -0.5, -0.5, -0.5, -0.496];
    assert Map(RValue, s) == [0.15] + [-0.5, -0.5, -0.5, -0.5, -0.5, -0.496];
    SumAppend([0.15], [-0.5, -0.5, -0.5, -0.5, -0.5, -0.496]);
    SumAppend([-0.5, -0.5, -0.5], [-0.5, -0.5, -0.496]);
    assert [-0.5, -0.5, -0.5] + [-0.5, -0.5, -0.496] == [-0.5, -0.5, -0.5, -0.5, -0.5, -0.496];
    SumOfThree(-0.5, -0.5, -0.5);
    SumOfThree(-0.5, -0.5, -0.496);
    SumOfThree(0.15, 0.0, 0.0);
    TallyDiffers(key, TallyOf(s), cfg);
  }

  lemma {:induction false} OneAndRest(p: Sample -> bool, x: Sample, rest: seq<Sample>)
    requires forall i :: 0 <= i < |rest| ==> p(rest[i]) != p(x)
    ensures Filter(p, [x] + rest) == if p(x) then [x] else rest
  {
    FilterAppend(p, [x], rest);
    if p(x) {
      FilterNonePass(p, rest);
    } else {
      FilterAllPass(p, rest);
    }
  }

  lemma SumOfThree(x: real, y: real, z: real)
    ensures Sum([x]) == x && Sum([x, y, z]) == x + y + z
  {
    assert Sum([x]) == Sum([]) + x;
    assert [x, y][..1] == [x] && Sum([x, y]) == Sum([x]) + y;
    assert [x, y, z][..2] == [x, y] && Sum([x, y, z]) == Sum([x, y]) + z;
  }

  lemma TallyDiffers(key: string, t: Tally, cfg: AnalyticsConfig)
    requires t.rCount == 7 && t.winCount == 1 && t.otherCount == 6
    requires t.rTotal == -2.846 && t.winTotal == 0.15 && t.otherTotal == -2.996
    ensures FromTally(key, t, cfg).expectancyR == Some(-0.4065) && FromTally(key, t, cfg).avgR == Some(-0.4066)
  {
    assert Round4(0.15) == 0.15 && Round4(-2.996 / 6.0) == -0.4993;
    assert Round4(-2.846 / 7.0) == -0.4066;
    assert Expectancy(1.0 / 7.0, 0.15, -0.4993) == -0.4065;
  }

  // ---------------------------------------------------------------- order independence

  lemma RsPermute(p: Sample -> bool, a: seq<Sample>, b: seq<Sample>)
    requires multiset(a) == multiset(b)
    ensures multiset(Rs(p, a)) == multiset(Rs(p, b))
    ensures |Rs(p, a)| == |Rs(p, b)| && Sum(Rs(p, a)) == Sum(Rs(p, b))
  {
    FilterPermutes(HasR, a, b);
    FilterPermutes(p, Filter(HasR, a), Filter(HasR, b));
    MapPermutes(RValue, Filter(p, Filter(HasR, a)), Filter(p, Filter(HasR, b)));
    SameSize(Rs(p, a), Rs(p, b));
    SumPermutes(Rs(p, a), Rs(p, b));
  }

  lemma {:induction false} SignedSumsPermute(p: real -> bool, a: seq<real>, b: seq<real>)
    requires multiset(a) == multiset(b)
    ensures Sum(Filter(p, a)) == Sum(Filter(p, b))
  {
    FilterPermutes(p, a, b);
    SumPermutes(Filter(p, a), Filter(p, b));
  }

  lemma GroupStatsForgetOrder(key: string, a: seq<Sample>, b: seq<Sample>, cfg: AnalyticsConfig)
    requires multiset(a) == multiset(b)
    ensures GroupStatsOf(key, a, cfg) == GroupStatsOf(key, b, cfg)
  {
    SameSize(a, b);
    FilterPermutes(IsWin, a, b);
    FilterPermutes(IsBreakeven, a, b);
    RsPermute(Any, a, b);
    RsPermute(IsWin, a, b);
    RsPermute(IsNotWin, a, b);
    SignedSumsPermute(IsNegative, Rs(Any, a), Rs(Any, b));
    SignedSumsPermute(IsPositive, Rs(Any, a), Rs(Any, b));
  }

  lemma {:induction false} KeysAreTheKeys(key: Sample -> string, samples: seq<Sample>)
    ensures Distinct(Keys(key, samples))
    ensures forall k :: k in Keys(key, samples) <==> exists i :: 0 <= i < |samples| && key(samples[i]) == k
  {
    if |samples| != 0 {
      var front, last := samples[..|samples| - 1], samples[|samples| - 1];
      KeysAreTheKeys(key, front);
      forall i | 0 <= i < |samples| ensures key(samples[i]) in Keys(key, samples) {
        assert i == |front| || samples[i] == front[i];
      }
      forall k | k in Keys(key, samples) ensures exists i :: 0 <= i < |samples| && key(samples[i]) == k {
        if i :| 0 <= i < |front| && key(front[i]) == k {
          assert samples[i] == front[i];
        } else {
          assert key(samples[|front|]) == k;
        }
      }
    }
  }

  lemma {:induction false} KeysPermute(key: Sample -> string, a: seq<Sample>, b: seq<Sample>)
    requires multiset(a) == multiset(b)
    ensures multiset(Keys(key, a)) == multiset(Keys(key, b))
  {
    KeysAreTheKeys(key, a);
    KeysAreTheKeys(key, b);
    forall k ensures k in Keys(key, a) <==> k in Keys(key, b) {
      if i :| 0 <= i < |a| && key(a[i]) == k {
        assert a[i] in multiset(b);
        var j :| 0 <= j < |b| && b[j] == a[i];
      }
      if i :| 0 <= i < |b| && key(b[i]) == k {
        assert b[i] in multiset(a);
        var j :| 0 <= j < |a| && a[j] == b[i];
      }
    }
    DistinctPermutes(Keys(key, a), Keys(key, b));
  }

  lemma GroupOrderIsTotal()
    ensures TotalPreorder(GroupLeq)
  {
    forall g, h ensures GroupLeq(g, h) || GroupLeq(h, g) {
      StringLeqTotal(g.key, h.key);
    }
    forall g, h, k | GroupLeq(g, h) && GroupLeq(h, k) ensures GroupLeq(g, k) {
      if g.count == h.count == k.count {
        StringLeqTransitive(g.key, h.key, k.key);
      }
    }
  }

  /** The groups before sorting: one per key, so that the sort key never ties. */
  function RawGroups(key: Sample -> string, samples: seq<Sample>, cfg: AnalyticsConfig): seq<GroupStats> {
    Map(GroupOf(key, samples, cfg), Keys(key, samples))
  }

  lemma RawGroupsNeverTie(key: Sample -> string, samples: seq<Sample>, cfg: AnalyticsConfig)
    ensures var gs := RawGroups(key, samples, cfg);
            && (forall g, h :: g in gs && h in gs && g.key == h.key ==> g == h)
            && (forall g, h :: g in gs && h in gs && GroupLeq(g, h) && GroupLeq(h, g) ==> g == h)
  {
    var gs := RawGroups(key, samples, cfg);
    forall g, h | g in gs && h in gs && GroupLeq(g, h) && GroupLeq(h, g) ensures g.key == h.key {
      StringLeqTotal(g.key, h.key);
    }
  }

  /** Reordering the samples changes nothing in a breakdown: groups, their order, the best group and the reason. */
  lemma BreakdownForgetsOrder(
      dimension: string, a: seq<Sample>, b: seq<Sample>, key: Sample -> string, cfg: AnalyticsConfig)
    requires multiset(a) == multiset(b)
    ensures BreakdownOf(dimension, a, key, cfg) == BreakdownOf(dimension, b, key, cfg)
  {
    var ka, kb := Keys(key, a), Keys(key, b);
    var fa, fb := GroupOf(key, a, cfg), GroupOf(key, b, cfg);
    forall k ensures fa(k) == fb(k) {
      FilterPermutes(KeyIs(key, k), a, b);
      GroupStatsForgetOrder(k, Bucket(key, k, a), Bucket(key, k, b), cfg);
    }
    assert Map(fa, ka) == Map(fb, ka);
    KeysPermute(key, a, b);
    MapPermutes(fb, ka, kb);
    GroupOrderIsTotal();
    RawGroupsNeverTie(key, a, cfg);
    SortForgetsOrder(GroupLeq, RawGroups(key, a, cfg), RawGroups(key, b, cfg));
  }

  // ---------------------------------------------------------------- conservation

  function SumOver(f: GroupStats -> int, gs: seq<GroupStats>): int {
    if |gs| == 0 then 0 else SumOver(f, gs[..|gs| - 1]) + f(gs[|gs| - 1])
  }

  /** Members of the listed buckets that satisfy `p`. */
  function InBuckets(p: Sample -> bool, key: Sample -> string, ks: seq<string>, samples: seq<Sample>): nat {
    if |ks| == 0 then 0
    else InBuckets(p, key, ks[..|ks| - 1], samples) + |Filter(p, Bucket(key, ks[|ks| - 1], samples))|
  }

  lemma {:induction false} InBucketsStep(
      p: Sample -> bool, key: Sample -> string, ks: seq<string>, front: seq<Sample>, x: Sample)
    requires Distinct(ks)
    ensures InBuckets(p, key, ks, front + [x])
            == InBuckets(p, key, ks, front) + if key(x) in ks && p(x) then 1 else 0
  {
    if |ks| != 0 {
      var init, k := ks[..|ks| - 1], ks[|ks| - 1];
      InBucketsStep(p, key, init, front, x);
      FrontLast(ks);
      FilterSnoc(KeyIs(key, k), front, x);
      FilterSnoc(p, Bucket(key, k, front), x);
      assert key(x) == k ==> key(x) !in init;
    }
  }

  lemma {:induction false} InBucketsAll(p: Sample -> bool, key: Sample -> string, ks: seq<string>, samples: seq<Sample>)
    requires Distinct(ks) && forall i :: 0 <= i < |samples| ==> key(samples[i]) in ks
    ensures InBuckets(p, key, ks, samples) == |Filter(p, samples)|
  {
    if |samples| == 0 {
      InBucketsNone(p, key, ks);
    } else {
      var front := samples[..|samples| - 1];
      InBucketsAll(p, key, ks, front);
      InBucketsStep(p, key, ks, front, samples[|samples| - 1]);
      assert samples == front + [samples[|samples| - 1]];
    }
  }

  lemma {:induction false} InBucketsNone(p: Sample -> bool, key: Sample -> string, ks: seq<string>)
    ensures InBuckets(p, key, ks, []) == 0
  {
    if |ks| != 0 {
      InBucketsNone(p, key, ks[..|ks| - 1]);
    }
  }

  lemma {:induction false} SumOverAppend(f: GroupStats -> int, a: seq<GroupStats>, b: seq<GroupStats>)
    ensures SumOver(f, a + b) == SumOver(f, a) + SumOver(f, b)
  {
    if |b| == 0 {
      assert a + b == a;
    } else {
      SumOverAppend(f, a, b[..|b| - 1]);
      assert (a + b)[..|a + b| - 1] == a + b[..|b| - 1];
    }
  }

  lemma {:induction false} SumOverPermutes(f: GroupStats -> int, a: seq<GroupStats>, b: seq<GroupStats>)
    requires multiset(a) == multiset(b)
    ensures SumOver(f, a) == SumOver(f, b)
    decreases |a|
  {
    SameSize(a, b);
    if |a| != 0 {
      var i := RemoveLast(a, b);
      SumOverPermutes(f, a[..|a| - 1], Without(b, i));
      SumOverAppend(f, b[..i], b[i + 1..]);
      SumOverAppend(f, b[..i + 1], b[i + 1..]);
      assert b == b[..i + 1] + b[i + 1..];
      assert b[..i + 1][..i] == b[..i];
    }
  }

  function CountOf(g: GroupStats): int { g.count }
  function WinsOf(g: GroupStats): int { g.wins }
  function LossesOf(g: GroupStats): int { g.losses }
  function BreakevenOf(g: GroupStats): int { g.breakeven }
  function RCountOf(g: GroupStats): int { g.rCount }

  lemma {:induction false} CountsOfGroup(key: string, samples: seq<Sample>, cfg: AnalyticsConfig)
    ensures var g := GroupStatsOf(key, samples, cfg);
            && g.count == |Filter(Any, samples)| && g.wins == |Filter(IsWin, samples)|
            && g.breakeven == |Filter(IsBreakeven, samples)| && g.losses == |Filter(IsLoss, samples)|
            && g.rCount == |Filter(HasR, samples)|
  {
    FilterAny(samples);
    FilterAny(Filter(HasR, samples));
    ThreeWaySplit(samples);
  }

  lemma {:induction false} ThreeWaySplit(samples: seq<Sample>)
    ensures |samples| == |Filter(IsWin, samples)| + |Filter(IsBreakeven, samples)| + |Filter(IsLoss, samples)|
  {
    if |samples| != 0 {
      ThreeWaySplit(samples[..|samples| - 1]);
    }
  }

  /** The figure `f` of every group counts the members of its bucket that satisfy `p`. */
  ghost predicate Counts(
    f: GroupStats -> int, p: Sample -> bool, key: Sample -> string, samples: seq<Sample>, cfg: AnalyticsConfig)
  {
    CountsIn(f, GroupOf(key, samples, cfg), p, key, samples)
  }

  ghost predicate CountsIn(
    f: GroupStats -> int, g: string -> GroupStats, p: Sample -> bool, key: Sample -> string, samples: seq<Sample>)
  {
    forall k :: f(g(k)) == |Filter(p, Bucket(key, k, samples))|
  }

  lemma {:induction false} FigureAddsUp(
      f: GroupStats -> int, g: string -> GroupStats, p: Sample -> bool, key: Sample -> string, ks: seq<string>,
      samples: seq<Sample>)
    requires CountsIn(f, g, p, key, samples)
    ensures SumOver(f, Map(g, ks)) == InBuckets(p, key, ks, samples)
  {
    if |ks| != 0 {
      var init, k := ks[..|ks| - 1], ks[|ks| - 1];
      FigureAddsUp(f, g, p, key, init, samples);
      FrontLast(ks);
      MapSnoc(g, init, k);
      SumOverSnoc(f, Map(g, init), g(k));
    }
  }

  lemma {:induction false} SumOverSnoc(f: GroupStats -> int, gs: seq<GroupStats>, g: GroupStats)
    ensures SumOver(f, gs + [g]) == SumOver(f, gs) + f(g)
  {
    assert (gs + [g])[..|gs|] == gs;
  }

  lemma {:induction false} FigureOfBreakdown(
      f: GroupStats -> int, p: Sample -> bool, key: Sample -> string, samples: seq<Sample>, cfg: AnalyticsConfig)
    requires Counts(f, p, key, samples, cfg)
    ensures SumOver(f, Groups(key, samples, cfg)) == |Filter(p, samples)|
  {
    var raw := RawGroups(key, samples, cfg);
    FigureOfRaw(f, p, key, samples, cfg);
    SortPermutes(GroupLeq, raw);
    SumOverPermutes(f, Sort(GroupLeq, raw), raw);
  }

  lemma {:induction false} FigureOfRaw(
      f: GroupStats -> int, p: Sample -> bool, key: Sample -> string, samples: seq<Sample>, cfg: AnalyticsConfig)
    requires Counts(f, p, key, samples, cfg)
    ensures SumOver(f, RawGroups(key, samples, cfg)) == |Filter(p, samples)|
  {
    FigureAddsUp(f, GroupOf(key, samples, cfg), p, key, Keys(key, samples), samples);
    BucketsHoldAll(p, key, samples);
  }

  /** The buckets of all keys together hold every sample once. */
  lemma {:induction false} BucketsHoldAll(p: Sample -> bool, key: Sample -> string, samples: seq<Sample>)
    ensures InBuckets(p, key, Keys(key, samples), samples) == |Filter(p, samples)|
  {
    KeysAreTheKeys(key, samples);
    InBucketsAll(p, key, Keys(key, samples), samples);
  }

  lemma GroupsCount(key: Sample -> string, samples: seq<Sample>, cfg: AnalyticsConfig)
    ensures Counts(CountOf, Any, key, samples, cfg) && Counts(WinsOf, IsWin, key, samples, cfg)
    ensures Counts(LossesOf, IsLoss, key, samples, cfg) && Counts(BreakevenOf, IsBreakeven, key, samples, cfg)
    ensures Counts(RCountOf, HasR, key, samples, cfg)
  {
    forall k: string ensures
      var g := GroupOf(key, samples, cfg)(k);
      var b := Bucket(key, k, samples);
      && CountOf(g) == |Filter(Any, b)| && WinsOf(g) == |Filter(IsWin, b)| && LossesOf(g) == |Filter(IsLoss, b)|
      && BreakevenOf(g) == |Filter(IsBreakeven, b)| && RCountOf(g) == |Filter(HasR, b)|
    {
      CountsOfGroup(k, Bucket(key, k, samples), cfg);
    }
  }

  /** Adding a count over the groups of any breakdown gives the overall count. */
  lemma BreakdownConserves(dimension: string, samples: seq<Sample>, key: Sample -> string, cfg: AnalyticsConfig)
    ensures var gs := BreakdownOf(dimension, samples, key, cfg).groups;
            var overall := GroupStatsOf("ALL", samples, cfg);
            && SumOver(CountOf, gs) == overall.count && SumOver(WinsOf, gs) == overall.wins
            && SumOver(LossesOf, gs) == overall.losses && SumOver(BreakevenOf, gs) == overall.breakeven
            && SumOver(RCountOf, gs) == overall.rCount
  {
    CountsOfGroup("ALL", samples, cfg);
    FiguresOfBreakdown(key, samples, cfg);
  }

  lemma {:induction false} FiguresOfBreakdown(key: Sample -> string, samples: seq<Sample>, cfg: AnalyticsConfig)
    ensures var gs := Groups(key, samples, cfg);
            && SumOver(CountOf, gs) == |Filter(Any, samples)| && SumOver(WinsOf, gs) == |Filter(IsWin, samples)|
            && SumOver(LossesOf, gs) == |Filter(IsLoss, samples)|
            && SumOver(BreakevenOf, gs) == |Filter(IsBreakeven, samples)|
            && SumOver(RCountOf, gs) == |Filter(HasR, samples)|
  {
    GroupsCount(key, samples, cfg);
    FigureOfBreakdown(CountOf, Any, key, samples, cfg);
    FigureOfBreakdown(WinsOf, IsWin, key, samples, cfg);
    FigureOfBreakdown(LossesOf, IsLoss, key, samples, cfg);
    FigureOfBreakdown(BreakevenOf, IsBreakeven, key, samples, cfg);
    FigureOfBreakdown(RCountOf, HasR, key, samples, cfg);
  }

  // ---------------------------------------------------------------- best group

  lemma {:induction false} MaxGroupIsMaximal(gs: seq<GroupStats>)
    requires |gs| > 0
    ensures MaxGroup(gs) in gs
    ensures forall i :: 0 <= i < |gs| ==> !Better(gs[i], MaxGroup(gs))
  {
    if |gs| > 1 {
      MaxGroupIsMaximal(gs[..|gs| - 1]);
    }
  }

  /** `g` is one of the groups that may be named best and no such group beats it. */
  ghost predicate IsBest(g: GroupStats, gs: seq<GroupStats>, floor: SampleSizeLabel) {
    && g in gs && IsEligible(floor, g)
    && forall i :: 0 <= i < |gs| && IsEligible(floor, gs[i]) ==> !Better(gs[i], g)
  }

  /**
   * A best group is named exactly when there are two groups and one reaches the floor with a defined expectancy;
   * it is such a group, and no such group beats it.
   */
  lemma BestIsUnbeaten(dimension: string, gs: seq<GroupStats>, cfg: AnalyticsConfig)
    ensures var b := BreakdownOfGroups(dimension, gs, cfg);
            var floor := cfg.bestGroupMinLabel;
            && (b.best.Some? <==> |gs| >= 2 && exists i :: 0 <= i < |gs| && IsEligible(floor, gs[i]))
            && (b.best.Some? ==> exists g: GroupStats :: g.key == b.best.value && IsBest(g, gs, floor))
  {
    var floor := cfg.bestGroupMinLabel;
    var eligible := Filter(Eligible(floor), gs);
    FilterMembers(Eligible(floor), gs);
    forall i | 0 <= i < |gs| && IsEligible(floor, gs[i]) ensures gs[i] in eligible {
      assert Eligible(floor)(gs[i]);
    }
    if |eligible| > 0 {
      MaxGroupIsMaximal(eligible);
      var g := MaxGroup(eligible);
      assert eligible[0] in gs && Eligible(floor)(eligible[0]) && Eligible(floor)(g);
      assert IsBest(g, gs, floor);
    }
  }

  // ---------------------------------------------------------------- downsample

  /** `out` is the part of `points` at the strictly increasing positions `at`. */
  ghost predicate PickedAt(points: seq<EquityPoint>, out: seq<EquityPoint>, at: seq<nat>) {
    && |at| == |out|
    && (forall i :: 0 <= i < |at| ==> at[i] < |points| && out[i] == points[at[i]])
    && (forall i :: 0 < i < |at| ==> at[i - 1] < at[i])
  }

  /**
   * A downsampled curve has at most `limit` points, its points come from strictly increasing positions of the
   * curve, and the last point is kept.
   */
  lemma DownsampleKeepsOrder(points: seq<EquityPoint>, limit: nat)
    requires limit > 0
    ensures Downsample(points, limit).Success?
    ensures var out := Downsample(points, limit).value;
            && |out| <= limit && (|points| > 0 ==> |out| > 0 && out[|out| - 1] == points[|points| - 1])
            && exists at :: PickedAt(points, out, at)
    ensures var out := Downsample(points, limit).value;
            if |points| <= limit then out == points
            else |out| == limit && forall i :: 0 <= i < limit - 1 ==> out[i] == points[i * |points| / limit]
  {
    var n, out := |points|, Downsample(points, limit).value;
    var at: seq<nat>;
    if n <= limit {
      at := seq(n, i => i);
    } else {
      forall i: nat | i < limit - 1
        ensures Pick(n, limit, i) < n - 1 && Pick(n, limit, i) < Pick(n, limit, i + 1) {
        PickBelow(n, limit, i);
      }
      at := seq(limit - 1, i requires 0 <= i => Pick(n, limit, i)) + [n - 1];
    }
    assert |at| == |out|;
    forall i | 0 < i < |at| ensures at[i - 1] < at[i] {
      if n > limit && i < limit - 1 {
        assert Pick(n, limit, i - 1) < Pick(n, limit, i - 1 + 1);
      }
    }
    assert PickedAt(points, out, at);
  }
}
