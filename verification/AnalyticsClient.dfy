/** The client's own checks of an analytics report, and why every report of the service passes them. */
module AnalyticsClient {
  import opened Wrappers
  import opened Seqs
  import opened Ordering
  import opened Rounding
  import opened AnalyticsModels
  import opened AnalyticsEngine
  import opened AnalyticsLaws
  import opened AnalyticsService

  function SampleLabel(count: int): SampleSizeLabel {
    if count >= 300 then STRONGER_EVIDENCE
    else if count >= 100 then MODERATE
    else if count >= 30 then LIMITED
    else INSUFFICIENT
  }

  datatype GroupProblem = COUNTS_DO_NOT_ADD_UP | LABEL_MISMATCH | WIN_RATE_MISMATCH | NEGATIVE_PROFIT_FACTOR

  function GroupError(g: GroupStats): Option<GroupProblem> {
    if g.wins + g.losses + g.breakeven != g.count || g.wins < 0 || g.losses < 0 || g.breakeven < 0
    then Some(COUNTS_DO_NOT_ADD_UP)
    else if g.sizeLabel != SampleLabel(g.count) then Some(LABEL_MISMATCH)
    else if (if g.count == 0 then g.winRate.Some?
             else g.winRate.None? || Abs(g.winRate.value - g.wins as real / g.count as real) > 0.001)
    then Some(WIN_RATE_MISMATCH)
    else if g.profitFactor.Some? && g.profitFactor.value < 0.0 then Some(NEGATIVE_PROFIT_FACTOR)
    else None
  }

  datatype ReportProblem =
    | AUTHORITY_CLAIMED
    | DISCLAIMER_MISSING
    | OVERALL_PROBLEM(problem: GroupProblem)
    | BREAKDOWN_PROBLEM(dimension: string, problem: GroupProblem)
    | BEST_ON_INSUFFICIENT_SAMPLE(dimension: string)
    | STATISTICS_FROM_UNAVAILABLE_STORE

  /** The first group with the given key. */
  function FindGroup(gs: seq<GroupStats>, key: string): Option<GroupStats> {
    if |gs| == 0 then None else if gs[0].key == key then Some(gs[0]) else FindGroup(gs[1..], key)
  }

  function GroupsError(gs: seq<GroupStats>): Option<GroupProblem> {
    if |gs| == 0 then None
    else if GroupError(gs[0]).Some? then GroupError(gs[0])
    else GroupsError(gs[1..])
  }

  function BreakdownError(b: Breakdown): Option<ReportProblem> {
    var err := GroupsError(b.groups);
    if err.Some? then Some(BREAKDOWN_PROBLEM(b.dimension, err.value))
    else if b.best.None? then None
    else
      var best := FindGroup(b.groups, b.best.value);
      if best.None? || LabelOrder(best.value.sizeLabel) < LabelOrder(LIMITED)
      then Some(BEST_ON_INSUFFICIENT_SAMPLE(b.dimension))
      else None
  }

  function BreakdownsError(bs: seq<Breakdown>): Option<ReportProblem> {
    if |bs| == 0 then None
    else if BreakdownError(bs[0]).Some? then BreakdownError(bs[0])
    else BreakdownsError(bs[1..])
  }

  function AnalyticsError(r: Report): Option<ReportProblem> {
    if r.authority != "DESCRIPTIVE_ONLY" then Some(AUTHORITY_CLAIMED)
    else if r.disclaimer == "" then Some(DISCLAIMER_MISSING)
    else if GroupError(r.overall).Some? then Some(OVERALL_PROBLEM(GroupError(r.overall).value))
    else if BreakdownsError(r.breakdowns).Some? then BreakdownsError(r.breakdowns)
    else if !r.available && r.overall.count != 0 then Some(STATISTICS_FROM_UNAVAILABLE_STORE)
    else None
  }

  // ---------------------------------------------------------------- what the checks accept

  predicate CountsAddUp(g: GroupStats) {
    g.wins >= 0 && g.losses >= 0 && g.breakeven >= 0 && g.count == g.wins + g.losses + g.breakeven
  }

  /** The label stands for the number of records: below 30, from 30, from 100, from 300. */
  predicate LabelFits(g: GroupStats) {
    match g.sizeLabel
    case INSUFFICIENT => g.count < 30
    case LIMITED => 30 <= g.count < 100
    case MODERATE => 100 <= g.count < 300
    case STRONGER_EVIDENCE => 300 <= g.count
  }

  /** There is a win rate exactly when there are records, and it is within a thousandth of wins over records. */
  predicate RateFits(g: GroupStats) {
    if g.count == 0 then g.winRate.None?
    else
      && g.winRate.Some? && -0.001 <= g.winRate.value - g.wins as real / g.count as real
      && g.winRate.value - g.wins as real / g.count as real <= 0.001
  }

  predicate FactorFits(g: GroupStats) {
    g.profitFactor.Some? ==> g.profitFactor.value >= 0.0
  }

  /** A group is rejected for the first of the four conditions that it breaks. */
  lemma GroupErrorIff(g: GroupStats)
    ensures GroupError(g) == None <==> CountsAddUp(g) && LabelFits(g) && RateFits(g) && FactorFits(g)
    ensures GroupError(g) == Some(COUNTS_DO_NOT_ADD_UP) <==> !CountsAddUp(g)
    ensures GroupError(g) == Some(LABEL_MISMATCH) <==> CountsAddUp(g) && !LabelFits(g)
    ensures GroupError(g) == Some(WIN_RATE_MISMATCH) <==> CountsAddUp(g) && LabelFits(g) && !RateFits(g)
  {
  }

  predicate GroupFits(g: GroupStats) {
    CountsAddUp(g) && LabelFits(g) && RateFits(g) && FactorFits(g)
  }

  /** The group named best is there, and the first of its key has at least 30 records' label. */
  ghost predicate BestFits(b: Breakdown) {
    b.best.Some? ==>
      exists i :: 0 <= i < |b.groups| && b.groups[i].key == b.best.value && !b.groups[i].sizeLabel.INSUFFICIENT?
                  && forall j :: 0 <= j < i ==> b.groups[j].key != b.best.value
  }

  ghost predicate BreakdownFits(b: Breakdown) {
    (forall i :: 0 <= i < |b.groups| ==> GroupFits(b.groups[i])) && BestFits(b)
  }

  lemma {:induction false} GroupsErrorIff(gs: seq<GroupStats>)
    ensures GroupsError(gs) == None <==> forall i :: 0 <= i < |gs| ==> GroupFits(gs[i])
  {
    if |gs| != 0 {
      GroupErrorIff(gs[0]);
      GroupsErrorIff(gs[1..]);
      assert forall i :: 1 <= i < |gs| ==> gs[i] == gs[1..][i - 1];
    }
  }

  lemma {:induction false} FindGroupIff(gs: seq<GroupStats>, key: string)
    ensures var r := FindGroup(gs, key);
            && (r.None? <==> forall i :: 0 <= i < |gs| ==> gs[i].key != key)
            && (r.Some? ==> exists i :: 0 <= i < |gs| && gs[i] == r.value && gs[i].key == key
                                        && forall j :: 0 <= j < i ==> gs[j].key != key)
  {
    if |gs| != 0 && gs[0].key != key {
      FindGroupIff(gs[1..], key);
      var r := FindGroup(gs[1..], key);
      assert forall i :: 1 <= i < |gs| ==> gs[i] == gs[1..][i - 1];
      if r.Some? {
        var i :| 0 <= i < |gs[1..]| && gs[1..][i] == r.value && gs[1..][i].key == key
                 && forall j :: 0 <= j < i ==> gs[1..][j].key != key;
        assert gs[i + 1] == r.value;
      }
    }
  }

  lemma {:induction false} BreakdownErrorIff(b: Breakdown)
    ensures BreakdownError(b) == None <==> BreakdownFits(b)
  {
    GroupsErrorIff(b.groups);
    if b.best.Some? {
      FindGroupIff(b.groups, b.best.value);
    }
  }

  lemma {:induction false} BreakdownsErrorIff(bs: seq<Breakdown>)
    ensures BreakdownsError(bs) == None <==> forall i :: 0 <= i < |bs| ==> BreakdownFits(bs[i])
  {
    if |bs| != 0 {
      BreakdownErrorIff(bs[0]);
      BreakdownsErrorIff(bs[1..]);
      assert forall i :: 1 <= i < |bs| ==> bs[i] == bs[1..][i - 1];
    }
  }

  /** The client accepts a report exactly when it claims no authority and all its figures are in order. */
  lemma {:induction false} ReportAcceptedIff(r: Report)
    ensures AnalyticsError(r) == None
            <==> r.authority == "DESCRIPTIVE_ONLY" && r.disclaimer != "" && GroupFits(r.overall)
                 && (forall i :: 0 <= i < |r.breakdowns| ==> BreakdownFits(r.breakdowns[i]))
                 && (!r.available ==> r.overall.count == 0)
  {
    GroupErrorIff(r.overall);
    BreakdownsErrorIff(r.breakdowns);
  }

  // ---------------------------------------------------------------- the engine meets the client

  /** The labels of engine and client agree on every count exactly when the thresholds are 30, 100 and 300. */
  lemma LabelsAgreeIffSameThresholds(cfg: AnalyticsConfig)
    requires cfg.Valid()
    ensures (forall n: nat :: LabelFor(n, cfg) == SampleLabel(n))
            <==> cfg.limitedFrom == 30 && cfg.moderateFrom == 100 && cfg.strongerFrom == 300
  {
    if forall n: nat :: LabelFor(n, cfg) == SampleLabel(n) {
      var l, m, s: nat := cfg.limitedFrom, cfg.moderateFrom, cfg.strongerFrom;
      assert LabelFor(l, cfg) == SampleLabel(l) && LabelFor(l - 1, cfg) == SampleLabel(l - 1);
      assert LabelFor(m, cfg) == SampleLabel(m) && LabelFor(m - 1, cfg) == SampleLabel(m - 1);
      assert LabelFor(s, cfg) == SampleLabel(s) && LabelFor(s - 1, cfg) == SampleLabel(s - 1);
    }
  }

  ghost predicate SameThresholds(cfg: AnalyticsConfig) {
    cfg.limitedFrom == 30 && cfg.moderateFrom == 100 && cfg.strongerFrom == 300
  }

  lemma {:induction false} GainsAndFalls(rs: seq<real>)
    ensures Sum(Filter(IsPositive, rs)) >= 0.0 && Sum(Filter(IsNegative, rs)) <= 0.0
  {
    if |rs| != 0 {
      GainsAndFalls(rs[..|rs| - 1]);
      var p, n := Filter(IsPositive, rs[..|rs| - 1]), Filter(IsNegative, rs[..|rs| - 1]);
      var x := rs[|rs| - 1];
      assert (p + [x])[..|p|] == p && (n + [x])[..|n|] == n;
    }
  }

  lemma RoundedRatio(gains: real, falls: real)
    requires gains >= 0.0 && falls > 0.0
    ensures Round4(gains / falls) >= 0.0
  {
    assert gains / falls >= 0.0;
    Round4Monotone(0.0, gains / falls);
  }

  /** Every group the engine computes passes the client's group check. */
  lemma EveryGroupPasses(key: string, samples: seq<Sample>, cfg: AnalyticsConfig)
    requires SameThresholds(cfg)
    ensures GroupError(GroupStatsOf(key, samples, cfg)) == None
  {
    CountsOfGroup(key, samples, cfg);
    var t := TallyOf(samples);
    GainsAndFalls(Rs(Any, samples));
    if t.falls > 0.0 {
      RoundedRatio(t.gains, t.falls);
    }
    if t.count > 0 {
      Round4Near(t.wins as real / t.count as real);
    }
  }

  lemma {:induction false} GroupsPass(gs: seq<GroupStats>)
    requires forall i :: 0 <= i < |gs| ==> GroupError(gs[i]) == None
    ensures GroupsError(gs) == None
  {
    if |gs| != 0 {
      GroupsPass(gs[1..]);
    }
  }

  lemma {:induction false} FindGroupFinds(gs: seq<GroupStats>, g: GroupStats)
    requires g in gs && forall h :: h in gs && h.key == g.key ==> h == g
    ensures FindGroup(gs, g.key) == Some(g)
  {
    if gs[0].key != g.key {
      FindGroupFinds(gs[1..], g);
    }
  }

  ghost predicate UniqueKeys(gs: seq<GroupStats>) {
    forall g, h :: g in gs && h in gs && g.key == h.key ==> g == h
  }

  lemma RawGroupsPass(samples: seq<Sample>, key: Sample -> string, cfg: AnalyticsConfig)
    requires SameThresholds(cfg)
    ensures forall g :: g in RawGroups(key, samples, cfg) ==> GroupError(g) == None
  {
    var f, ks := GroupOf(key, samples, cfg), Keys(key, samples);
    forall k: string ensures GroupError(f(k)) == None {
      EveryGroupPasses(k, Bucket(key, k, samples), cfg);
    }
  }

  lemma GroupsOfEnginePass(samples: seq<Sample>, key: Sample -> string, cfg: AnalyticsConfig)
    requires SameThresholds(cfg)
    ensures GroupsError(Groups(key, samples, cfg)) == None && UniqueKeys(Groups(key, samples, cfg))
  {
    var gs, raw := Groups(key, samples, cfg), RawGroups(key, samples, cfg);
    RawGroupsPass(samples, key, cfg);
    RawGroupsNeverTie(key, samples, cfg);
    PassesWhenPermuted(gs, raw) by {
      SortPermutes(GroupLeq, raw);
    }
  }

  lemma {:induction false} PassesWhenPermuted(gs: seq<GroupStats>, raw: seq<GroupStats>)
    requires multiset(gs) == multiset(raw)
    requires UniqueKeys(raw) && forall g :: g in raw ==> GroupError(g) == None
    ensures GroupsError(gs) == None && UniqueKeys(gs)
  {
    forall g | g in gs ensures g in raw {
      assert g in multiset(gs);
    }
    GroupsPass(gs);
  }

  lemma {:induction false} BestGroupPasses(dimension: string, gs: seq<GroupStats>, cfg: AnalyticsConfig)
    requires GroupsError(gs) == None && UniqueKeys(gs)
    requires LabelOrder(cfg.bestGroupMinLabel) >= LabelOrder(LIMITED)
    ensures BreakdownError(BreakdownOfGroups(dimension, gs, cfg)) == None
  {
    BestIsUnbeaten(dimension, gs, cfg);
    var b := BreakdownOfGroups(dimension, gs, cfg);
    if b.best.Some? {
      var g: GroupStats :| g.key == b.best.value && IsBest(g, gs, cfg.bestGroupMinLabel);
      FindGroupFinds(gs, g);
    }
  }

  /** Every breakdown the engine builds passes, when it names no best group below LIMITED. */
  lemma EveryBreakdownPasses(dimension: string, samples: seq<Sample>, key: Sample -> string, cfg: AnalyticsConfig)
    requires SameThresholds(cfg) && LabelOrder(cfg.bestGroupMinLabel) >= LabelOrder(LIMITED)
    ensures BreakdownError(BreakdownOf(dimension, samples, key, cfg)) == None
  {
    GroupsOfEnginePass(samples, key, cfg);
    BestGroupPasses(dimension, Groups(key, samples, cfg), cfg);
  }

  lemma {:induction false} BreakdownsPass(bs: seq<Breakdown>)
    requires forall i :: 0 <= i < |bs| ==> BreakdownError(bs[i]) == None
    ensures BreakdownsError(bs) == None
  {
    if |bs| != 0 {
      BreakdownsPass(bs[1..]);
    }
  }

  /** Whatever the store exports and the filters ask for, the client accepts the report. */
  lemma EveryReportPasses(r: Report, source: Export, f: Filters, tol: real, cfg: AnalyticsConfig)
    requires IsReport(r, source, f, tol, cfg) && cfg.disclaimer != ""
    requires SameThresholds(cfg) && LabelOrder(cfg.bestGroupMinLabel) >= LabelOrder(LIMITED)
    ensures AnalyticsError(r) == None
  {
    if source.StoreUnavailable? {
      EveryGroupPasses("ALL", [], cfg);
    } else {
      var samples := CountedSamples(RecordsOf(source), f, tol);
      EveryGroupPasses("ALL", samples, cfg);
      forall i | 0 <= i < |r.breakdowns| ensures BreakdownError(r.breakdowns[i]) == None {
        EveryBreakdownPasses(DIMENSIONS[i].0, samples, DIMENSIONS[i].1, cfg);
      }
      BreakdownsPass(r.breakdowns);
    }
  }
}
