/** Largest peak-to-trough fall of cumulative R: the one-pass computation against the definition over all pairs. */
module DrawdownEngine {
  import opened Wrappers
  import opened Seqs
  import opened Ordering
  import opened Rounding
  import opened AnalyticsModels
  import opened AnalyticsEngine
  import opened AnalyticsLaws

  /** By close time, ties by id. */
  predicate CloseLeq(s: Sample, t: Sample) {
    s.closedAt < t.closedAt || (s.closedAt == t.closedAt && StringLeq(s.id, t.id))
  }

  function Ordered(samples: seq<Sample>): seq<Sample> {
    Sort(CloseLeq, Filter(HasR, samples))
  }

  /** Cumulative R after the first `i` records; 0 before any. */
  function Equity(o: seq<Sample>, i: nat): real
    requires i <= |o|
  {
    if i == 0 then 0.0 else Equity(o, i - 1) + RValue(o[i - 1])
  }

  /** How far equity is lower at position `j` than at position `i`. */
  function Fall(o: seq<Sample>, i: nat, j: nat): real
    requires i <= j <= |o|
  {
    Equity(o, i) - Equity(o, j)
  }

  function Curve(o: seq<Sample>): (c: seq<EquityPoint>)
    ensures |c| == |o|
  {
    seq(|o|, i requires 0 <= i < |o| => EquityPoint(o[i].closedAt, Round4(Equity(o, i + 1))))
  }

  /**
   * Among the falls that end by position `n`, the one from position `peak` to position `trough` is the largest,
   * nothing before `trough` ends one as large, and `peak` is the first position at its level. Position 0 is the
   * start, at equity 0.
   */
  ghost predicate WorstFallBy(o: seq<Sample>, n: nat, peak: nat, trough: nat)
    requires n <= |o|
  {
    && peak <= trough <= n
    && (forall i, j :: 0 <= i <= j <= n ==> Fall(o, i, j) <= Fall(o, peak, trough))
    && (forall i, j :: 0 <= i <= j < trough ==> Fall(o, i, j) < Fall(o, peak, trough))
    && (forall i :: 0 <= i < peak ==> Equity(o, i) < Equity(o, peak))
  }

  ghost predicate WorstFall(o: seq<Sample>, peak: nat, trough: nat) {
    WorstFallBy(o, |o|, peak, trough)
  }

  /** `peak` is the first position of the highest equity up to position `n`. */
  ghost predicate HighestBy(o: seq<Sample>, n: nat, peak: nat)
    requires n <= |o|
  {
    && peak <= n
    && (forall k :: 0 <= k <= n ==> Equity(o, k) <= Equity(o, peak))
    && (forall k :: 0 <= k < peak ==> Equity(o, k) < Equity(o, peak))
  }

  /** Close time of the record that produced position `i`; none for the start. */
  function TimeAt(o: seq<Sample>, i: nat): Option<int>
    requires i <= |o|
  {
    if i == 0 then None else Some(o[i - 1].closedAt)
  }

  /** Position `k` is back at the level, in rounded figures. */
  function Regains(o: seq<Sample>, level: real): nat -> bool {
    (k: nat) => k <= |o| && Round4(Equity(o, k)) >= Round4(level)
  }

  /** The least position from `j` to `n` that satisfies the test. */
  function First(test: nat -> bool, j: nat, n: nat): (f: Option<nat>)
    ensures f.Some? ==> j <= f.value <= n
    decreases n - j
  {
    if j > n then None else if test(j) then Some(j) else First(test, j + 1, n)
  }

  /** Time of the recovery after position `trough`, and the number of records from the trough to it. */
  function Recovery(o: seq<Sample>, level: real, trough: nat): (Option<int>, Option<int>) {
    var regained := First(Regains(o, level), trough + 1, |o|);
    if regained.Some? then (TimeAt(o, regained.value), Some(regained.value - trough)) else (None, None)
  }

  function Report(o: seq<Sample>, peak: nat, trough: nat): Drawdown
    requires peak <= trough <= |o|
  {
    var recovery := if trough == 0 then (None, None) else Recovery(o, Equity(o, peak), trough);
    Drawdown(Round4(Fall(o, peak, trough)), TimeAt(o, peak), TimeAt(o, trough), recovery.0, recovery.1)
  }

  /** The reported drawdown is the one of a worst fall. */
  ghost predicate IsDrawdown(o: seq<Sample>, d: Drawdown) {
    exists peak, trough :: WorstFall(o, peak, trough) && d == Report(o, peak, trough)
  }

  /** One more record: the highest position so far. */
  lemma HighestStep(o: seq<Sample>, n: nat, peak: nat)
    requires n < |o| && HighestBy(o, n, peak)
    ensures HighestBy(o, n + 1, if Equity(o, n + 1) > Equity(o, peak) then n + 1 else peak)
  {
  }

  /** One more record: either it ends a larger fall from the highest position, or the worst fall stays. */
  lemma FallStep(o: seq<Sample>, n: nat, peak: nat, worstPeak: nat, trough: nat)
    requires n < |o| && WorstFallBy(o, n, worstPeak, trough) && HighestBy(o, n + 1, peak)
    ensures if Fall(o, peak, n + 1) > Fall(o, worstPeak, trough)
            then WorstFallBy(o, n + 1, peak, n + 1) else WorstFallBy(o, n + 1, worstPeak, trough)
  {
    var m := n + 1;
    forall i | 0 <= i <= m ensures Fall(o, i, m) <= Fall(o, peak, m) {
      assert Equity(o, i) <= Equity(o, peak);
    }
  }

  /** The scan for the recovery: the first later point at or above the peak, in rounded figures. */
  method FindRecovery(o: seq<Sample>, points: seq<EquityPoint>, level: real, worstIndex: nat)
    returns (recoveredAt: Option<int>, recoveryTrades: Option<int>)
    requires points == Curve(o) && worstIndex < |o|
    ensures (recoveredAt, recoveryTrades) == Recovery(o, level, worstIndex + 1)
  {
    recoveredAt, recoveryTrades := None, None;
    for j := worstIndex + 1 to |points|
      invariant recoveredAt == None && recoveryTrades == None
      invariant First(Regains(o, level), worstIndex + 2, |o|) == First(Regains(o, level), j + 1, |o|)
    {
      if points[j].cumulativeR >= Round4(level) {
        recoveredAt, recoveryTrades := Some(points[j].at), Some(j - worstIndex);
        return;
      }
    }
  }

  lemma CurveStep(o: seq<Sample>, i: nat, equity: real)
    requires i < |o| && equity == Equity(o, i) + RValue(o[i])
    ensures equity == Equity(o, i + 1)
    ensures Curve(o)[..i + 1] == Curve(o)[..i] + [EquityPoint(o[i].closedAt, Round4(equity))]
  {
  }

  /** The highest position up to `n`, its level and its time. */
  ghost predicate Highest(o: seq<Sample>, n: nat, pos: nat, peak: real, at: Option<int>)
    requires n <= |o|
  {
    HighestBy(o, n, pos) && peak == Equity(o, pos) && at == TimeAt(o, pos)
  }

  lemma ScanStarts(o: seq<Sample>)
    ensures Highest(o, 0, 0, 0.0, None) && Worst(o, 0, 0, 0, 0.0, 0.0, None, None) && Curve(o)[..0] == []
  {
  }

  lemma HighestNext(o: seq<Sample>, n: nat, pos: nat, peak: real, at: Option<int>)
    requires n < |o| && Highest(o, n, pos, peak, at)
    ensures if Equity(o, n + 1) > peak then Highest(o, n + 1, n + 1, Equity(o, n + 1), Some(o[n].closedAt))
            else Highest(o, n + 1, pos, peak, at)
  {
    HighestStep(o, n, pos);
  }

  /** A worst fall up to `n`: its size, its levels and times. */
  ghost predicate Worst(
    o: seq<Sample>, n: nat, pos: nat, trough: nat, worst: real, peak: real, peakAt: Option<int>, troughAt: Option<int>)
    requires n <= |o|
  {
    && WorstFallBy(o, n, pos, trough) && worst == Fall(o, pos, trough) && peak == Equity(o, pos)
    && peakAt == TimeAt(o, pos) && troughAt == TimeAt(o, trough)
  }

  lemma WorstNext(
      o: seq<Sample>, n: nat, pos: nat, trough: nat, worst: real, worstPeak: real, worstPeakAt: Option<int>,
      troughAt: Option<int>, high: nat, peak: real, at: Option<int>)
    requires n < |o| && Worst(o, n, pos, trough, worst, worstPeak, worstPeakAt, troughAt)
    requires Highest(o, n + 1, high, peak, at)
    ensures var fall := peak - Equity(o, n + 1);
            if fall > worst then Worst(o, n + 1, high, n + 1, fall, peak, at, Some(o[n].closedAt))
            else Worst(o, n + 1, pos, trough, worst, worstPeak, worstPeakAt, troughAt)
  {
    FallStep(o, n, high, pos, trough);
  }

  /** What the pass knows after some records: the running peak and the worst fall, and where they are. */
  datatype Scan = Scan(
    equity: real, peak: real, peakAt: Option<int>, peakPos: nat, worst: real, worstPeak: real,
    worstPeakAt: Option<int>, worstTroughAt: Option<int>, worstPos: nat, trough: nat)

  const NO_RECORDS := Scan(0.0, 0.0, None, 0, 0.0, 0.0, None, None, 0, 0)

  function WithPeak(p: Scan, s: Sample, n: nat): Scan {
    var equity := p.equity + RValue(s);
    if equity > p.peak then p.(equity := equity, peak := equity, peakAt := Some(s.closedAt), peakPos := n)
    else p.(equity := equity)
  }

  function WithFall(p: Scan, s: Sample, n: nat): Scan {
    if p.peak - p.equity > p.worst
    then p.(worst := p.peak - p.equity, worstPeak := p.peak, worstPeakAt := p.peakAt,
           worstTroughAt := Some(s.closedAt), worstPos := p.peakPos, trough := n)
    else p
  }

  function ScanTo(o: seq<Sample>, n: nat): Scan
    requires n <= |o|
  {
    if n == 0 then NO_RECORDS else WithFall(WithPeak(ScanTo(o, n - 1), o[n - 1], n), o[n - 1], n)
  }

  ghost predicate PeakIsRight(o: seq<Sample>, n: nat, p: Scan)
    requires n <= |o|
  {
    p.equity == Equity(o, n) && Highest(o, n, p.peakPos, p.peak, p.peakAt)
  }

  ghost predicate FallIsRight(o: seq<Sample>, n: nat, p: Scan)
    requires n <= |o|
  {
    Worst(o, n, p.worstPos, p.trough, p.worst, p.worstPeak, p.worstPeakAt, p.worstTroughAt)
  }

  lemma PeakStep(o: seq<Sample>, n: nat, p: Scan)
    requires n < |o| && PeakIsRight(o, n, p)
    ensures PeakIsRight(o, n + 1, WithPeak(p, o[n], n + 1))
  {
    HighestNext(o, n, p.peakPos, p.peak, p.peakAt);
  }

  lemma FallIsKept(o: seq<Sample>, n: nat, q: Scan)
    requires n < |o| && FallIsRight(o, n, q) && PeakIsRight(o, n + 1, q)
    ensures FallIsRight(o, n + 1, WithFall(q, o[n], n + 1)) && PeakIsRight(o, n + 1, WithFall(q, o[n], n + 1))
  {
    WorstNext(
      o, n, q.worstPos, q.trough, q.worst, q.worstPeak, q.worstPeakAt, q.worstTroughAt, q.peakPos, q.peak, q.peakAt);
  }

  /** The one-pass scan finds a worst fall of the quadratic definition. */
  lemma {:induction false} ScanFindsWorst(o: seq<Sample>, n: nat)
    requires n <= |o|
    ensures PeakIsRight(o, n, ScanTo(o, n)) && FallIsRight(o, n, ScanTo(o, n))
  {
    if n == 0 {
      ScanStarts(o);
    } else {
      ScanFindsWorst(o, n - 1);
      var p := ScanTo(o, n - 1);
      PeakStep(o, n - 1, p);
      FallIsKept(o, n - 1, WithPeak(p, o[n - 1], n));
    }
  }

  /** The pass over the records: the curve, and level, times and index of the worst fall. */
  method ScanFalls(o: seq<Sample>)
    returns (points: seq<EquityPoint>, worst: real, worstPeak: real, worstPeakAt: Option<int>,
      worstTroughAt: Option<int>, worstIndex: int)
    ensures points == Curve(o)
    ensures var p := ScanTo(o, |o|);
            && worstIndex == p.trough - 1 && worst == p.worst && worstPeak == p.worstPeak
            && worstPeakAt == p.worstPeakAt && worstTroughAt == p.worstTroughAt
  {
    points := [];
    var equity, peak := 0.0, 0.0;
    var peakAt: Option<int> := None;
    worst, worstPeak, worstPeakAt, worstTroughAt, worstIndex := 0.0, 0.0, None, None, -1;
    for i := 0 to |o|
      invariant points == Curve(o)[..i] && equity == Equity(o, i)
      invariant var p := ScanTo(o, i);
                && equity == p.equity && peak == p.peak && peakAt == p.peakAt && worst == p.worst
                && worstPeak == p.worstPeak && worstPeakAt == p.worstPeakAt && worstTroughAt == p.worstTroughAt
                && worstIndex == p.trough - 1
    {
      var s := o[i];
      equity := equity + RValue(s);
      CurveStep(o, i, equity);
      points := points + [EquityPoint(s.closedAt, Round4(equity))];
      if equity > peak {
        peak, peakAt := equity, Some(s.closedAt);
      }
      if peak - equity > worst {
        worst, worstPeak, worstPeakAt, worstTroughAt, worstIndex := peak - equity, peak, peakAt, Some(s.closedAt), i;
      }
    }
  }

  /** One pass over the records in close order, then one forward scan for the recovery. */
  method ComputeDrawdown(samples: seq<Sample>) returns (d: Drawdown, points: seq<EquityPoint>)
    ensures points == Curve(Ordered(samples))
    ensures IsDrawdown(Ordered(samples), d)
  {
    var o := Ordered(samples);
    var worst, worstPeak, worstPeakAt, worstTroughAt, worstIndex;
    points, worst, worstPeak, worstPeakAt, worstTroughAt, worstIndex := ScanFalls(o);
    ghost var worstPeakPos := ScanTo(o, |o|).worstPos;
    ScanFindsWorst(o, |o|);
    var recoveredAt: Option<int> := None;
    var recoveryTrades: Option<int> := None;
    if worstIndex >= 0 {
      recoveredAt, recoveryTrades := FindRecovery(o, points, worstPeak, worstIndex);
    }
    d := Drawdown(Round4(worst), worstPeakAt, worstTroughAt, recoveredAt, recoveryTrades);
    assert WorstFall(o, worstPeakPos, worstIndex + 1) && d == Report(o, worstPeakPos, worstIndex + 1);
  }

  // ---------------------------------------------------------------- uniqueness and order independence

  /** The worst fall has one place only, so the definition over all pairs determines the whole report. */
  lemma WorstFallUnique(o: seq<Sample>, p: nat, t: nat, p': nat, t': nat)
    requires WorstFall(o, p, t) && WorstFall(o, p', t')
    ensures p == p' && t == t'
  {
    assert Fall(o, p, t) == Fall(o, p', t');
    assert t == t';
    assert Equity(o, p) == Equity(o, p');
  }

  lemma CloseOrderIsTotal()
    ensures TotalPreorder(CloseLeq)
  {
    forall s, t ensures CloseLeq(s, t) || CloseLeq(t, s) {
      StringLeqTotal(s.id, t.id);
    }
    forall s, t, u | CloseLeq(s, t) && CloseLeq(t, u) ensures CloseLeq(s, u) {
      if s.closedAt == t.closedAt == u.closedAt {
        StringLeqTransitive(s.id, t.id, u.id);
      }
    }
  }

  ghost predicate UniqueIds(samples: seq<Sample>) {
    forall s, t :: s in samples && t in samples && s.id == t.id ==> s == t
  }

  lemma OrderedForgetsOrder(a: seq<Sample>, b: seq<Sample>)
    requires multiset(a) == multiset(b) && UniqueIds(a)
    ensures Ordered(a) == Ordered(b)
  {
    FilterPermutes(HasR, a, b);
    FilterMembers(HasR, a);
    CloseOrderIsTotal();
    var fa := Filter(HasR, a);
    forall s, t | s in fa && t in fa && CloseLeq(s, t) && CloseLeq(t, s) ensures s == t {
      StringLeqTotal(s.id, t.id);
    }
    SortForgetsOrder(CloseLeq, fa, Filter(HasR, b));
  }

  /** Reordering records with unique ids changes neither the drawdown report nor the curve. */
  lemma DrawdownForgetsOrder(a: seq<Sample>, b: seq<Sample>, d: Drawdown, d': Drawdown)
    requires multiset(a) == multiset(b) && UniqueIds(a)
    requires IsDrawdown(Ordered(a), d) && IsDrawdown(Ordered(b), d')
    ensures d == d' && Curve(Ordered(a)) == Curve(Ordered(b))
  {
    OrderedForgetsOrder(a, b);
    var o := Ordered(a);
    var p, t :| WorstFall(o, p, t) && d == Report(o, p, t);
    var p', t' :| WorstFall(o, p', t') && d' == Report(o, p', t');
    WorstFallUnique(o, p, t, p', t');
  }

  // ---------------------------------------------------------------- recovery

  /** The scan finds the least position in the range that satisfies the test, if there is one. */
  lemma {:induction false} FirstIsFirst(test: nat -> bool, j: nat, n: nat)
    ensures var f := First(test, j, n);
            && (f.None? <==> forall k :: j <= k <= n ==> !test(k))
            && (f.Some? ==> j <= f.value <= n && test(f.value) && forall k :: j <= k < f.value ==> !test(k))
    decreases n - j
  {
    if j <= n && !test(j) {
      FirstIsFirst(test, j + 1, n);
    }
  }

  /** Position `k` is back at the level, in exact figures. */
  function IsBack(o: seq<Sample>, level: real): nat -> bool {
    (k: nat) => k <= |o| && Equity(o, k) >= level
  }

  /** A position that passes the wider test although none up to it passes the narrower one. */
  ghost predicate NearMiss(wide: nat -> bool, narrow: nat -> bool, lo: nat, n: nat, k: nat) {
    lo <= k <= n && wide(k) && First(narrow, lo, k).None?
  }

  /** The recovery looked up is the first position after the trough at which equity is back at the level. */
  ghost predicate RecoveryIsTrue(o: seq<Sample>, level: real, trough: nat) {
    var back := First(IsBack(o, level), trough + 1, |o|);
    Recovery(o, level, trough).1 == if back.Some? then Some(back.value - trough) else None
  }

  ghost predicate NoNearMiss(wide: nat -> bool, narrow: nat -> bool, lo: nat, n: nat) {
    forall k: nat :: !NearMiss(wide, narrow, lo, n, k)
  }

  /** Searching with a wider test finds the same position exactly when there is no near miss. */
  lemma {:induction false} SameFirstIffNoNearMiss(wide: nat -> bool, narrow: nat -> bool, lo: nat, n: nat)
    requires forall k: nat :: narrow(k) ==> wide(k)
    ensures First(wide, lo, n) == First(narrow, lo, n) <==> NoNearMiss(wide, narrow, lo, n)
  {
    FirstIsFirst(wide, lo, n);
    FirstIsFirst(narrow, lo, n);
    var w, t := First(wide, lo, n), First(narrow, lo, n);
    if w != t {
      FirstIsFirst(narrow, lo, w.value);
      assert NearMiss(wide, narrow, lo, n, w.value);
    } else {
      forall k: nat ensures !NearMiss(wide, narrow, lo, n, k) {
        FirstIsFirst(narrow, lo, k);
      }
    }
  }

  /** The reported recovery is the true one exactly when no near miss, lifted by rounding only, comes first. */
  lemma RecoveryTrueIffNoNearMiss(o: seq<Sample>, level: real, trough: nat)
    ensures RecoveryIsTrue(o, level, trough)
            <==> NoNearMiss(Regains(o, level), IsBack(o, level), trough + 1, |o|)
  {
    var wide, narrow := Regains(o, level), IsBack(o, level);
    assert First(wide, trough + 1, |o|) == First(narrow, trough + 1, |o|)
           <==> NoNearMiss(wide, narrow, trough + 1, |o|) by {
      BackImpliesRegains(o, level);
      SameFirstIffNoNearMiss(wide, narrow, trough + 1, |o|);
    }
    TruthIsSameFirst(o, level, trough);
  }

  lemma {:induction false} TruthIsSameFirst(o: seq<Sample>, level: real, trough: nat)
    ensures RecoveryIsTrue(o, level, trough)
            <==> First(Regains(o, level), trough + 1, |o|) == First(IsBack(o, level), trough + 1, |o|)
  {
  }

  lemma BackImpliesRegains(o: seq<Sample>, level: real)
    ensures forall k: nat :: IsBack(o, level)(k) ==> Regains(o, level)(k)
  {
    forall k: nat | IsBack(o, level)(k) ensures Regains(o, level)(k) {
      RegainsWhenBack(o, level, k);
    }
  }

  /** A recovery that does happen is reported, and never late. */
  lemma {:induction false} RecoveryNeverLate(o: seq<Sample>, level: real, trough: nat, j: nat)
    requires trough < j <= |o| && Equity(o, j) >= level
    ensures var r := Recovery(o, level, trough).1; r.Some? && 0 < r.value <= j - trough
  {
    FirstIsFirst(Regains(o, level), trough + 1, |o|);
    RegainsWhenBack(o, level, j);
  }

  lemma {:induction false} RegainsWhenBack(o: seq<Sample>, level: real, k: nat)
    requires k <= |o| && Equity(o, k) >= level
    ensures Regains(o, level)(k)
  {
    Round4Monotone(level, Equity(o, k));
  }

  lemma {:induction false} EquityOnGrid(o: seq<Sample>, i: nat)
    requires i <= |o| && forall s :: s in o ==> OnGrid(RValue(s))
    ensures OnGrid(Equity(o, i))
  {
    if i > 0 {
      EquityOnGrid(o, i - 1);
      GridSum(Equity(o, i - 1), RValue(o[i - 1]));
    }
  }

  /** With R values of at most four decimals nothing is rounded: fall and recovery are the true ones. */
  lemma {:induction false} DrawdownExactOnGrid(o: seq<Sample>, peak: nat, trough: nat)
    requires peak <= trough <= |o| && trough > 0 && forall s :: s in o ==> OnGrid(RValue(s))
    ensures Report(o, peak, trough).maxDrawdownR == Fall(o, peak, trough)
    ensures RecoveryIsTrue(o, Equity(o, peak), trough)
  {
    EquityOnGrid(o, peak);
    EquityOnGrid(o, trough);
    GridDifference(Equity(o, peak), Equity(o, trough));
    Round4Keeps(Fall(o, peak, trough));
    NoNearMissOnGrid(o, Equity(o, peak), trough + 1);
    RecoveryTrueIffNoNearMiss(o, Equity(o, peak), trough);
  }

  /**
   * Journal and simulations record R with three decimals. For such records the reported drawdown is the exact largest
   * fall, and the recovery is the first record at which exact equity is back at the peak.
   */
  lemma {:induction false} RecordedDrawdownIsExact(samples: seq<Sample>, d: Drawdown)
    requires HasRecordedR(samples)
    ensures IsDrawdown(Ordered(samples), d) <==>
            exists peak, trough :: ExactlyReported(Ordered(samples), d, peak, trough)
  {
    var o := Ordered(samples);
    OrderedOnGrid(samples);
    forall peak: nat, trough: nat | WorstFall(o, peak, trough)
      ensures ExactlyReported(o, d, peak, trough) <==> d == Report(o, peak, trough)
    {
      ExactReport(o, d, peak, trough);
    }
  }

  lemma {:induction false} ExactReport(o: seq<Sample>, d: Drawdown, peak: nat, trough: nat)
    requires peak <= trough <= |o| && forall s :: s in o ==> OnGrid(RValue(s))
    ensures Tells(o, d, peak, trough, Equity(o, peak) - Equity(o, trough), IsBack(o, Equity(o, peak)))
            <==> d == Report(o, peak, trough)
  {
    FallIsOnGrid(o, peak, trough);
    ReportIsTold(o, d, peak, trough);
    RecoveriesAgree(o, d, Equity(o, peak), trough);
    TellsSame(
      o, d, peak, trough, Equity(o, peak) - Equity(o, trough), Regains(o, Equity(o, peak)), IsBack(o, Equity(o, peak)));
  }

  lemma {:induction false} TellsSame(
      o: seq<Sample>, d: Drawdown, peak: nat, trough: nat, size: real, back: nat -> bool, back': nat -> bool)
    requires peak <= trough <= |o|
    requires RecoveryTold(o, d, trough, back) <==> RecoveryTold(o, d, trough, back')
    ensures Tells(o, d, peak, trough, size, back) <==> Tells(o, d, peak, trough, size, back')
  {
  }

  lemma {:induction false} FallIsOnGrid(o: seq<Sample>, peak: nat, trough: nat)
    requires peak <= trough <= |o| && forall s :: s in o ==> OnGrid(RValue(s))
    ensures OnGrid(Equity(o, peak))
    ensures Round4(Equity(o, peak) - Equity(o, trough)) == Equity(o, peak) - Equity(o, trough)
  {
    EquityOnGrid(o, peak);
    EquityOnGrid(o, trough);
    GridDifference(Equity(o, peak), Equity(o, trough));
    Round4Keeps(Equity(o, peak) - Equity(o, trough));
  }

  /** With R values of at most four decimals, rounded and exact recovery are told by the same reports. */
  lemma {:induction false} RecoveriesAgree(o: seq<Sample>, d: Drawdown, level: real, trough: nat)
    requires trough <= |o| && OnGrid(level) && forall s :: s in o ==> OnGrid(RValue(s))
    ensures RecoveryTold(o, d, trough, Regains(o, level)) <==> RecoveryTold(o, d, trough, IsBack(o, level))
  {
    if trough > 0 {
      NoNearMissOnGrid(o, level, trough + 1);
      BackImpliesRegains(o, level);
      SameFirstIffNoNearMiss(Regains(o, level), IsBack(o, level), trough + 1, |o|);
      SameSearchTellsSame(o, d, trough, Regains(o, level), IsBack(o, level));
    }
  }

  lemma {:induction false} SameSearchTellsSame(
      o: seq<Sample>, d: Drawdown, trough: nat, wide: nat -> bool, narrow: nat -> bool)
    requires 0 < trough <= |o| && First(wide, trough + 1, |o|) == First(narrow, trough + 1, |o|)
    ensures RecoveryTold(o, d, trough, wide) <==> RecoveryTold(o, d, trough, narrow)
  {
    SearchTells(o, d, trough, wide);
    SearchTells(o, d, trough, narrow);
  }

  /** The R values have three decimals. */
  ghost predicate HasRecordedR(samples: seq<Sample>) {
    forall s :: s in samples ==> OnThousandths(RValue(s))
  }

  /** Close time of the record that leads to a position; none for the start. */
  predicate ClosesAt(o: seq<Sample>, position: nat, at: Option<int>)
    requires position <= |o|
  {
    if position == 0 then at.None? else at == Some(o[position - 1].closedAt)
  }

  /** Position `k` is the first one after the trough that is back, and the report gives its time and distance. */
  ghost predicate RecoversAt(o: seq<Sample>, d: Drawdown, trough: nat, back: nat -> bool, k: nat) {
    && trough < k <= |o| && back(k) && (forall j :: trough < j < k ==> !back(j))
    && d.recoveredAt == Some(o[k - 1].closedAt) && d.recoveryTrades == Some(k - trough)
  }

  /** The report gives the first position after the trough that is back, or none when there is no such position. */
  ghost predicate RecoveryTold(o: seq<Sample>, d: Drawdown, trough: nat, back: nat -> bool) {
    || (trough > 0 && exists k: nat :: RecoversAt(o, d, trough, back, k))
    || (d.recoveredAt.None? && d.recoveryTrades.None?
        && (trough == 0 || forall k :: trough < k <= |o| ==> !back(k)))
  }

  /** The report states a fall: its size, the times of peak and trough, and its recovery. */
  ghost predicate Tells(o: seq<Sample>, d: Drawdown, peak: nat, trough: nat, size: real, back: nat -> bool)
    requires peak <= trough <= |o|
  {
    && d.maxDrawdownR == size && ClosesAt(o, peak, d.peakAt) && ClosesAt(o, trough, d.troughAt)
    && RecoveryTold(o, d, trough, back)
  }

  /** The report states the worst fall and its recovery without any effect of rounding. */
  ghost predicate ExactlyReported(o: seq<Sample>, d: Drawdown, peak: nat, trough: nat) {
    && WorstFall(o, peak, trough)
    && Tells(o, d, peak, trough, Equity(o, peak) - Equity(o, trough), IsBack(o, Equity(o, peak)))
  }

  /** The search for the first position that is back, as the report tells it. */
  lemma {:induction false} SearchTells(o: seq<Sample>, d: Drawdown, trough: nat, back: nat -> bool)
    requires 0 < trough <= |o|
    ensures var f := First(back, trough + 1, |o|);
            RecoveryTold(o, d, trough, back)
            <==> if f.Some? then d.recoveredAt == TimeAt(o, f.value) && d.recoveryTrades == Some(f.value - trough)
                 else d.recoveredAt.None? && d.recoveryTrades.None?
  {
    FirstIsFirst(back, trough + 1, |o|);
    var f := First(back, trough + 1, |o|);
    if f.Some? && d.recoveredAt == TimeAt(o, f.value) && d.recoveryTrades == Some(f.value - trough) {
      assert RecoversAt(o, d, trough, back, f.value);
    }
    if k: nat :| RecoversAt(o, d, trough, back, k) {
      assert f == Some(k);
    }
  }

  /** The report of any records, told by its fields: sizes and recovery in rounded figures. */
  lemma {:induction false} ReportIsTold(o: seq<Sample>, d: Drawdown, peak: nat, trough: nat)
    requires peak <= trough <= |o|
    ensures d == Report(o, peak, trough)
            <==> Tells(o, d, peak, trough, Round4(Equity(o, peak) - Equity(o, trough)), Regains(o, Equity(o, peak)))
  {
    RecoveryIsTold(o, d, Equity(o, peak), trough);
    assert ClosesAt(o, peak, d.peakAt) <==> d.peakAt == TimeAt(o, peak);
    assert ClosesAt(o, trough, d.troughAt) <==> d.troughAt == TimeAt(o, trough);
  }

  lemma {:induction false} RecoveryIsTold(o: seq<Sample>, d: Drawdown, level: real, trough: nat)
    requires trough <= |o|
    ensures (d.recoveredAt, d.recoveryTrades) == (if trough == 0 then (None, None) else Recovery(o, level, trough))
            <==> RecoveryTold(o, d, trough, Regains(o, level))
  {
    if trough > 0 {
      SearchTells(o, d, trough, Regains(o, level));
    }
  }

  /** By close time, ties by id in the order of texts. */
  ghost predicate ClosesBefore(s: Sample, t: Sample) {
    s.closedAt < t.closedAt || (s.closedAt == t.closedAt && Lexicographic(s.id, t.id))
  }

  /** The records that have an R, as often as they occur, in close order; their R values add up along them. */
  ghost predicate InCloseOrder(samples: seq<Sample>, o: seq<Sample>) {
    && (forall s :: multiset(o)[s] == if s.r.Some? then multiset(samples)[s] else 0)
    && (forall i, j :: 0 <= i < j < |o| ==> ClosesBefore(o[i], o[j]))
    && Equity(o, 0) == 0.0
    && forall i :: 0 <= i < |o| ==> o[i].r.Some? && Equity(o, i + 1) == Equity(o, i) + o[i].r.value
  }

  /** What is scanned: the records with an R in the order of their close times. */
  lemma {:induction false} RecordsInCloseOrder(samples: seq<Sample>)
    ensures InCloseOrder(samples, Ordered(samples))
  {
    var hs, o := Filter(HasR, samples), Ordered(samples);
    CloseOrderIsTotal();
    SortSorts(CloseLeq, hs);
    SortPermutes(CloseLeq, hs);
    forall s: Sample ensures multiset(o)[s] == if s.r.Some? then multiset(samples)[s] else 0 {
      FilterCount(HasR, samples, s);
    }
    forall i, j | 0 <= i < j < |o| ensures ClosesBefore(o[i], o[j]) {
      StringLeqIsLexicographic(o[i].id, o[j].id);
    }
    forall i | 0 <= i < |o| ensures o[i].r.Some? {
      assert o[i] in multiset(o);
    }
  }

  /** The points of the curve: the close times of the records and the rounded equity after each. */
  lemma {:induction false} CurvePoints(o: seq<Sample>, i: nat)
    requires i < |o|
    ensures Curve(o)[i].at == o[i].closedAt && Curve(o)[i].cumulativeR == Round4(Equity(o, i + 1))
  {
  }

  lemma {:induction false} OrderedOnGrid(samples: seq<Sample>)
    requires HasRecordedR(samples)
    ensures forall s :: s in Ordered(samples) ==> OnGrid(RValue(s))
  {
    var hs := Filter(HasR, samples);
    FilterMembers(HasR, samples);
    SortPermutes(CloseLeq, hs);
    forall s | s in Ordered(samples) ensures OnGrid(RValue(s)) {
      assert s in multiset(Ordered(samples));
      assert s in hs;
      ThousandthsAreOnGrid(RValue(s));
    }
  }

  lemma NoNearMissOnGrid(o: seq<Sample>, level: real, lo: nat)
    requires OnGrid(level) && forall s :: s in o ==> OnGrid(RValue(s))
    ensures NoNearMiss(Regains(o, level), IsBack(o, level), lo, |o|)
  {
    Round4Keeps(level);
    forall k: nat ensures !NearMiss(Regains(o, level), IsBack(o, level), lo, |o|, k) {
      if lo <= k <= |o| {
        EquityOnGrid(o, k);
        Round4Keeps(Equity(o, k));
        FirstIsFirst(IsBack(o, level), lo, k);
        assert Regains(o, level)(k) ==> IsBack(o, level)(k);
      }
    }
  }

  lemma GridDifference(x: real, y: real)
    requires OnGrid(x) && OnGrid(y)
    ensures OnGrid(x - y)
  {
    var j, k := (x * 10000.0).Floor, (y * 10000.0).Floor;
    assert (x - y) * 10000.0 == (j - k) as real;
  }

  /**
   * The function itself takes any R. Given finer ones than records hold, it reports a near miss as a recovery: 1, then
   * -0.00006, then +0.00002.
   */
  lemma {:induction false} RecoveryCanBeReportedBelowThePeak(o: seq<Sample>)
    requires |o| == 3 && o[0].r == Some(1.0) && o[1].r == Some(-0.00006) && o[2].r == Some(0.00002)
    ensures WorstFall(o, 1, 2) && Report(o, 1, 2).recoveryTrades == Some(1)
    ensures !RecoveryIsTrue(o, Equity(o, 1), 2)
  {
    NearMissFall(o);
    NearMissRecovery(o);
  }

  ghost predicate NearMissRecords(o: seq<Sample>) {
    |o| == 3 && o[0].r == Some(1.0) && o[1].r == Some(-0.00006) && o[2].r == Some(0.00002)
  }

  lemma {:induction false} NearMissEquity(o: seq<Sample>)
    requires NearMissRecords(o)
    ensures Equity(o, 0) == 0.0 && Equity(o, 1) == 1.0 && Equity(o, 2) == 0.99994 && Equity(o, 3) == 0.99996
  {
    assert Equity(o, 1) == Equity(o, 0) + 1.0;
    assert Equity(o, 2) == Equity(o, 1) - 0.00006;
    assert Equity(o, 3) == Equity(o, 2) + 0.00002;
  }

  lemma {:induction false} NearMissFall(o: seq<Sample>)
    requires NearMissRecords(o)
    ensures WorstFall(o, 1, 2)
  {
    NearMissEquity(o);
    forall i, j | 0 <= i <= j <= 3 ensures Fall(o, i, j) <= Fall(o, 1, 2) {
      assert i == 0 || i == 1 || i == 2 || i == 3;
      assert j == 0 || j == 1 || j == 2 || j == 3;
    }
    forall i, j | 0 <= i <= j < 2 ensures Fall(o, i, j) < Fall(o, 1, 2) {
      assert i == 0 || i == 1;
      assert j == 0 || j == 1;
    }
  }

  lemma NearMissRounds()
    ensures Round4(0.99996) == 1.0 && Round4(1.0) == 1.0
  {
  }

  lemma {:induction false} NearMissRecovery(o: seq<Sample>)
    requires NearMissRecords(o)
    ensures Recovery(o, Equity(o, 1), 2).1 == Some(1) && !RecoveryIsTrue(o, Equity(o, 1), 2)
  {
    NearMissEquity(o);
    NearMissRounds();
    var level := Equity(o, 1);
    assert Regains(o, level)(3) && !IsBack(o, level)(3);
    assert First(Regains(o, level), 3, 3) == Some(3);
    assert First(IsBack(o, level), 3, 3) == First(IsBack(o, level), 4, 3) == None;
  }

  // ---------------------------------------------------------------- conservation

  lemma {:induction false} EquityIsSum(o: seq<Sample>, i: nat)
    requires i <= |o|
    ensures Equity(o, i) == Sum(Map(RValue, o[..i]))
  {
    if i > 0 {
      EquityIsSum(o, i - 1);
      assert o[..i] == o[..i - 1] + [o[i - 1]];
      MapSnoc(RValue, o[..i - 1], o[i - 1]);
      var m := Map(RValue, o[..i - 1]);
      assert (m + [RValue(o[i - 1])])[..|m|] == m;
    }
  }

  /** The last point of the curve is the total R of the overall group; there is a curve exactly when there is an R. */
  lemma CurveEndsAtTotal(key: string, samples: seq<Sample>, cfg: AnalyticsConfig)
    ensures var c, g := Curve(Ordered(samples)), GroupStatsOf(key, samples, cfg);
            && |c| == g.rCount && (g.totalR.Some? <==> |c| > 0)
            && (|c| > 0 ==> g.totalR == Some(c[|c| - 1].cumulativeR))
  {
    var hs, o := Filter(HasR, samples), Ordered(samples);
    SortPermutes(CloseLeq, hs);
    FilterAny(hs);
    EquityIsSum(o, |o|);
    assert o[..|o|] == o;
    MapPermutes(RValue, o, hs);
    SumPermutes(Map(RValue, o), Map(RValue, hs));
  }
}
