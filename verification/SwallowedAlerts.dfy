/** When the last stored data alert is current, although cooldowns swallow changes; and runs in which it is not. */
module SwallowedAlerts {
  import opened Wrappers
  import opened Seqs
  import opened AlertModels
  import opened AlertStore
  import opened AlertRules
  import opened AlertTraces
  import opened StreamTraces
  import opened AlertService
  import opened WatchRuns
  import opened WatchAlerts
  import opened StoredAlerts

  // ---------------------------------------------------------------- the answers to a history of calls

  /** The call raises an alert after others that were answered. */
  ghost predicate Raises(cfg: AlertConfig, calls: seq<Call>, fired: seq<bool>, c: Call)
    requires |fired| == |calls|
  {
    forall j :: 0 <= j < |calls| && fired[j] && calls[j].key == c.key ==>
      c.now - calls[j].now >= cfg.cooldown(cfg.category(c.candidate.kind))
  }

  /** Which calls raise an alert, decided one after the other. */
  ghost function Answers(cfg: AlertConfig, calls: seq<Call>): (fired: seq<bool>)
    ensures |fired| == |calls|
  {
    if |calls| == 0 then []
    else
      var n := |calls| - 1;
      var before := Answers(cfg, calls[..n]);
      before + [Raises(cfg, calls[..n], before, calls[n])]
  }

  lemma {:induction false} AnswersFollowHistory(cfg: AlertConfig, calls: seq<Call>, i: nat)
    requires i < |calls|
    ensures ByHistory(cfg, calls, Answers(cfg, calls), i)
  {
    var n := |calls| - 1;
    if i < n {
      AnswersFollowHistory(cfg, calls[..n], i);
    }
  }

  /** The stored alerts of a run are the announced changes that the history of calls lets through. */
  lemma {:induction false} StoredAreAnswered(cfg: AlertConfig, run: ServiceRun, n: nat)
    requires IsServiceRun(cfg, run) && MonotoneClock(run.events) && n <= |run.events|
    ensures StoredMarks(run, n) == Kept(AnnouncedMarks(cfg, run, n), Answers(cfg, CallsTo(cfg, run, n)))
  {
    var calls := CallsTo(cfg, run, n);
    var fired := StoredByHistory(cfg, run, n);
    forall i: nat | i < |calls| ensures ByHistory(cfg, calls, Answers(cfg, calls), i) {
      AnswersFollowHistory(cfg, calls, i);
    }
    HistoryDetermines(cfg, calls, fired, Answers(cfg, calls), |calls|);
    assert fired == Answers(cfg, calls);
  }

  // ---------------------------------------------------------------- what was swallowed since the last stored change

  /** How many selected marks come after the last one that was kept. */
  function SwallowedSince(p: Mark -> bool, ms: seq<Mark>, fired: seq<bool>): nat
    requires |ms| == |fired|
  {
    if |ms| == 0 then 0
    else
      var n := |ms| - 1;
      var before := SwallowedSince(p, ms[..n], fired[..n]);
      if !p(ms[n]) then before else if fired[n] then 0 else before + 1
  }

  /** The last kept one among the selected marks stands so many places before the last one. */
  lemma {:induction false} LastKept(p: Mark -> bool, ms: seq<Mark>, fired: seq<bool>)
    requires |ms| == |fired|
    ensures var all, kept, since := Filter(p, ms), Filter(p, Kept(ms, fired)), SwallowedSince(p, ms, fired);
            && (|kept| == 0 ==> since == |all|)
            && (|kept| > 0 ==> since < |all| && kept[|kept| - 1] == all[|all| - 1 - since])
  {
    if |ms| > 0 {
      var n := |ms| - 1;
      LastKept(p, ms[..n], fired[..n]);
      FilterSnoc(p, Kept(ms[..n], fired[..n]), ms[n]);
    }
  }

  /** Two values that strictly alternate agree exactly at even distances. */
  lemma {:induction false} AlternatingAgree<T>(xs: seq<T>, a: T, b: T, d: nat)
    requires forall i :: 0 <= i < |xs| ==> xs[i] == a || xs[i] == b
    requires (forall i :: 0 < i < |xs| ==> xs[i - 1] != xs[i]) && d < |xs|
    ensures xs[|xs| - 1 - d] == xs[|xs| - 1] <==> d % 2 == 0
  {
    if d > 0 {
      AlternatingAgree(xs, a, b, d - 1);
      assert xs[|xs| - 1 - d] != xs[|xs| - d];
    }
  }

  lemma {:induction false} FirstSelected(p: Mark -> bool, ms: seq<Mark>) returns (i: nat)
    requires |Filter(p, ms)| > 0
    ensures i < |ms| && p(ms[i]) && forall k :: 0 <= k < i ==> !p(ms[k])
  {
    i := 0;
    while i < |ms| && !p(ms[i])
      invariant i <= |ms| && forall k :: 0 <= k < i ==> !p(ms[k])
    {
      i := i + 1;
    }
    if i == |ms| {
      FilterNonePass(p, ms);
    }
  }

  lemma {:induction false} KeptMembers(ms: seq<Mark>, fired: seq<bool>, i: nat)
    requires i < |ms| == |fired| && fired[i]
    ensures ms[i] in Kept(ms, fired)
  {
    if i < |ms| - 1 {
      KeptMembers(ms[..|ms| - 1], fired[..|ms| - 1], i);
    }
  }

  /** The first selected change has no earlier one under its key, so it is kept. */
  lemma {:induction false} SomeIsKept(cfg: AlertConfig, calls: seq<Call>, p: Mark -> bool)
    requires ClosedUnderKeys(p, Map(CallMark, calls)) && |Filter(p, Map(CallMark, calls))| > 0
    ensures |Filter(p, Kept(Map(CallMark, calls), Answers(cfg, calls)))| > 0
  {
    var ms, fired := Map(CallMark, calls), Answers(cfg, calls);
    var i := FirstSelected(p, ms);
    AnswersFollowHistory(cfg, calls, i);
    forall j | 0 <= j < i ensures calls[j].key != calls[i].key {
      assert ms[j].key == calls[j].key && ms[i].key == calls[i].key;
    }
    KeptMembers(ms, fired, i);
    FilterMembers(p, Kept(ms, fired));
    assert ms[i] in Filter(p, Kept(ms, fired));
  }

  // ---------------------------------------------------------------- the last stored data alert

  /** The kinds of the announced DATA alerts of a symbol are the changes of its availability. */
  lemma {:induction false} AnnouncedDataKinds(cfg: AlertConfig, run: ServiceRun, n: nat, symbol: string)
    requires IsServiceRun(cfg, run) && n <= |run.events| && |SnapsOf(symbol, run.events[..n])| > 0
    ensures var snaps := SnapsOf(symbol, run.events[..n]);
            && |Outages(snaps, |snaps|)| > 0
            && Map(KindOf, Filter(MarkOf(symbol, IsDataKind), AnnouncedMarks(cfg, run, n)))
               == DataTypes(Outages(snaps, |snaps|))
  {
    var snaps := SnapsOf(symbol, run.events[..n]);
    AnnouncedIsStream(cfg, run, n, symbol, IsDataKind);
    DataStream(snaps, cfg, |snaps|);
    KindsOfBriefs(
      symbol, Filter(MarkOf(symbol, IsDataKind), AnnouncedMarks(cfg, run, n)), DataTypes(Outages(snaps, |snaps|)));
  }

  /** The changes alternate, and the last of them names the current availability. */
  lemma {:induction false} DataTypesAlternate(outages: seq<bool>)
    requires |outages| > 0
    ensures var types := DataTypes(outages);
            && (forall i :: 0 <= i < |types| ==> types[i] == DATA_UNAVAILABLE || types[i] == DATA_RESTORED)
            && (forall i :: 0 < i < |types| ==> types[i - 1] != types[i])
            && (|types| > 0 ==> types[|types| - 1] == DataType(outages[|outages| - 1]))
  {
    CollapseFacts(outages);
  }

  /** The alert type that names the availability a snapshot shows. */
  function CurrentData(s: Snapshot): AlertType {
    DataType(s.verdict == UNAVAILABLE)
  }

  /** The selected calls swallowed since the last selected one that raised an alert. */
  ghost function Swallowed(cfg: AlertConfig, p: Mark -> bool, calls: seq<Call>): nat {
    SwallowedSince(p, Map(CallMark, calls), Answers(cfg, calls))
  }

  /**
   * There are stored alerts exactly when there are changes, and the last one is of the current kind exactly when the
   * number of changes swallowed since it is even.
   */
  predicate LastIsCurrentIffEven(stored: seq<Mark>, changes: seq<AlertType>, current: AlertType, swallowed: nat) {
    && (|stored| == 0 <==> |changes| == 0)
    && (|stored| > 0 ==> (stored[|stored| - 1].kind == current <==> swallowed % 2 == 0))
  }

  /** The same against the snapshots of a symbol: their changes of availability, and the availability they end with. */
  ghost predicate TellsCurrentIffEven(stored: seq<Mark>, snaps: seq<Snapshot>, swallowed: nat) {
    && |snaps| > 0 && |Outages(snaps, |snaps|)| > 0
    && LastIsCurrentIffEven(
         stored, DataTypes(Outages(snaps, |snaps|)), CurrentData(snaps[|snaps| - 1]), swallowed)
  }

  lemma {:induction false} KindAtDistance(all: seq<Mark>, outages: seq<bool>, d: nat)
    requires |outages| > 0 && Map(KindOf, all) == DataTypes(outages) && d < |all|
    ensures all[|all| - 1 - d].kind == DataType(outages[|outages| - 1]) <==> d % 2 == 0
  {
    var types := DataTypes(outages);
    DataTypesAlternate(outages);
    AlternatingAgree(types, DATA_UNAVAILABLE, DATA_RESTORED, d);
    assert |types| == |all| && types[|all| - 1 - d] == KindOf(all[|all| - 1 - d]);
  }

  /** The same of any marks, when the selected ones tell the changes of a list and not all of them were swallowed. */
  lemma {:induction false} LastKeptIsCurrentIff(p: Mark -> bool, ms: seq<Mark>, fired: seq<bool>, outages: seq<bool>)
    requires |ms| == |fired| && |outages| > 0 && Map(KindOf, Filter(p, ms)) == DataTypes(outages)
    requires |Filter(p, ms)| > 0 ==> |Filter(p, Kept(ms, fired))| > 0
    ensures LastIsCurrentIffEven(
              Filter(p, Kept(ms, fired)), DataTypes(outages), DataType(outages[|outages| - 1]),
              SwallowedSince(p, ms, fired))
  {
    LastKept(p, ms, fired);
    assert |Map(KindOf, Filter(p, ms))| == |Filter(p, ms)|;
    if |Filter(p, Kept(ms, fired))| > 0 {
      KindAtDistance(Filter(p, ms), outages, SwallowedSince(p, ms, fired));
    }
  }

  lemma {:induction false} OutagesEnd(snaps: seq<Snapshot>, n: nat)
    requires 0 < n <= |snaps|
    ensures |Outages(snaps, n)| > 0
    ensures DataType(Outages(snaps, n)[|Outages(snaps, n)| - 1]) == CurrentData(snaps[n - 1])
  {
  }

  /** The calls announce the changes of availability of the snapshots, and the stored marks are those that were kept. */
  ghost predicate AnnounceData(
    cfg: AlertConfig, p: Mark -> bool, calls: seq<Call>, stored: seq<Mark>, snaps: seq<Snapshot>)
  {
    && stored == Kept(Map(CallMark, calls), Answers(cfg, calls)) && ClosedUnderKeys(p, Map(CallMark, calls))
    && |snaps| > 0 && |Outages(snaps, |snaps|)| > 0
    && Map(KindOf, Filter(p, Map(CallMark, calls))) == DataTypes(Outages(snaps, |snaps|))
  }

  lemma {:induction false} LastOfCalls(
      cfg: AlertConfig, p: Mark -> bool, calls: seq<Call>, stored: seq<Mark>, snaps: seq<Snapshot>)
    requires AnnounceData(cfg, p, calls, stored, snaps)
    ensures TellsCurrentIffEven(Filter(p, stored), snaps, Swallowed(cfg, p, calls))
  {
    if |Filter(p, Map(CallMark, calls))| > 0 {
      SomeIsKept(cfg, calls, p);
    }
    OutagesEnd(snaps, |snaps|);
    LastKeptIsCurrentIff(p, Map(CallMark, calls), Answers(cfg, calls), Outages(snaps, |snaps|));
  }

  /**
   * Whatever the cooldowns swallow: a symbol has a stored DATA alert if and only if its availability changed after the
   * baseline, and the last one names the current availability if and only if the number of changes swallowed since it
   * is even.
   */
  lemma {:induction false} LastStoredIsCurrentIff(cfg: AlertConfig, run: ServiceRun, n: nat, symbol: string)
    requires IsServiceRun(cfg, run) && MonotoneClock(run.events) && PlainSymbols(run.events) && n <= |run.events|
    requires |SnapsOf(symbol, run.events[..n])| > 0
    ensures var p := MarkOf(symbol, IsDataKind);
            TellsCurrentIffEven(
              Filter(p, StoredMarks(run, n)), SnapsOf(symbol, run.events[..n]), Swallowed(cfg, p, CallsTo(cfg, run, n)))
  {
    RunAnnouncesData(cfg, run, n, symbol);
    LastOfCalls(
      cfg, MarkOf(symbol, IsDataKind), CallsTo(cfg, run, n), StoredMarks(run, n), SnapsOf(symbol, run.events[..n]));
  }

  lemma {:induction false} RunAnnouncesData(cfg: AlertConfig, run: ServiceRun, n: nat, symbol: string)
    requires IsServiceRun(cfg, run) && MonotoneClock(run.events) && PlainSymbols(run.events) && n <= |run.events|
    requires |SnapsOf(symbol, run.events[..n])| > 0
    ensures AnnounceData(
              cfg, MarkOf(symbol, IsDataKind), CallsTo(cfg, run, n), StoredMarks(run, n),
              SnapsOf(symbol, run.events[..n]))
  {
    AnnouncedDataKinds(cfg, run, n, symbol);
    StoredAreAnswered(cfg, run, n);
    CallsAreClosed(cfg, run, n, symbol);
  }

  lemma {:induction false} CallsAreClosed(cfg: AlertConfig, run: ServiceRun, n: nat, symbol: string)
    requires IsServiceRun(cfg, run) && PlainSymbols(run.events) && n <= |run.events|
    ensures ClosedUnderKeys(MarkOf(symbol, IsDataKind), Map(CallMark, CallsTo(cfg, run, n)))
  {
    ListsArePlain(cfg, run);
    CallsArePlain(CandidateLists(cfg, run), Times(run.events), n);
    KindsAreClosed(CallsTo(cfg, run, n), symbol, IsDataKind);
  }

  // ---------------------------------------------------------------- runs that only change availability

  /** A snapshot of gold that shows nothing but whether data can be decided on. */
  function Probe(v: Verdict, now: int): Snapshot {
    Snapshot(
      "XAUUSD", now, v,
      Some(Evaluation(
        Some(Risk(true, [])), Some(News(CLEAR, None, None, false)), Some(Macro(NEUTRAL_MACRO, true)), {},
        v != UNAVAILABLE)),
      Some(Run(Some(now), 300, [], None, {}, None)))
  }

  /** What such a snapshot leaves in memory, as far as it decides alerts. */
  ghost predicate LeftByProbe(m: Memory, v: Verdict) {
    && m.verdict == v && m.riskLocks == {} && m.sessions == {} && m.newsState == Some(CLEAR)
    && m.macroBias == Some(NEUTRAL_MACRO)
  }

  lemma ProbeMemory(v: Verdict, now: int, previous: Option<Memory>, cfg: AlertConfig)
    ensures LeftByProbe(NextMemory(Probe(v, now), previous, cfg), v)
  {
  }

  lemma {:induction false} ProbeContext(v: Verdict, now: int, m: Memory, was: Verdict, cfg: AlertConfig)
    requires LeftByProbe(m, was)
    ensures ContextAlerts(Probe(v, now), m, cfg) == DataAlerts(Probe(v, now), m)
  {
  }

  lemma {:induction false} ProbeState(v: Verdict, now: int, m: Memory, was: Verdict, cfg: AlertConfig)
    requires LeftByProbe(m, was)
    ensures StateAlerts(Probe(v, now), m, cfg) == []
  {
    var s := Probe(v, now);
    assert LockSet([]) == {};
    FlatMapOfNone(NewLock(m), s.Risk().value.locks);
    NoneGone(m, {}, LOCKS);
    FlatMapOfNone(SetupTag(s), s.run.value.events);
    FlatMapOfNone(WhenNew(m, Grace(s, m, cfg)), []);
  }

  lemma {:induction false} FlatMapOfNone<T, U>(f: T -> seq<U>, s: seq<T>)
    requires |s| == 0
    ensures FlatMap(f, s) == []
  {
  }

  lemma {:induction false} NoneGone(m: Memory, now: set<RiskLock>, listed: seq<RiskLock>)
    requires m.riskLocks == {}
    ensures FlatMap(GoneLock(m, now), listed) == []
  {
    if |listed| > 0 {
      NoneGone(m, now, listed[..|listed| - 1]);
    }
  }

  lemma {:induction false} ProbeAlerts(v: Verdict, now: int, m: Memory, was: Verdict, cfg: AlertConfig)
    requires LeftByProbe(m, was)
    ensures Alerts(Probe(v, now), Some(m), cfg) == DataAlerts(Probe(v, now), m)
  {
    ProbeContext(v, now, m, was, cfg);
    ProbeState(v, now, m, was, cfg);
    assert DataAlerts(Probe(v, now), m) + [] == DataAlerts(Probe(v, now), m);
  }

  /** The data is unavailable at odd steps, a multiple of the pace apart. */
  function ProbeAt(pace: nat, k: nat): Snapshot {
    Probe(if k % 2 == 1 then UNAVAILABLE else WAIT, k * pace)
  }

  ghost predicate IsProbeRun(cfg: AlertConfig, run: ServiceRun, pace: nat) {
    && IsServiceRun(cfg, run)
    && forall k: nat :: k < |run.events| ==> run.events[k] == Evaluated(ProbeAt(pace, k), "FULL")
  }

  lemma ProbeRun(cfg: AlertConfig, pace: nat, n: nat) returns (run: ServiceRun)
    ensures IsProbeRun(cfg, run, pace) && |run.events| == n
  {
    run := FIRST_SERVICE_RUN;
    for k := 0 to n
      invariant IsProbeRun(cfg, run, pace) && |run.events| == k
    {
      run := ExtendRun(cfg, run, Evaluated(ProbeAt(pace, k), "FULL"));
    }
  }

  lemma {:induction false} ProbeRunFacts(cfg: AlertConfig, run: ServiceRun, pace: nat)
    requires IsProbeRun(cfg, run, pace)
    ensures MonotoneClock(run.events) && PlainSymbols(run.events)
  {
    forall i, j | 0 <= i <= j < |run.events| ensures TimeOf(run.events[i]) <= TimeOf(run.events[j]) {
      assert i * pace <= j * pace;
    }
  }

  /** The state before step `k` of such a run: no watches, and the memory of the step before. */
  lemma {:induction false} ProbeRunState(cfg: AlertConfig, run: ServiceRun, pace: nat, k: nat)
    requires IsProbeRun(cfg, run, pace) && k <= |run.events|
    ensures run.states[k].watches == []
    ensures var m := RecalledMemory(run.states[k].memory, "XAUUSD");
            if k == 0 then m.None? else m.Some? && LeftByProbe(m.value, ProbeAt(pace, k - 1).verdict)
  {
    if k > 0 {
      ProbeRunState(cfg, run, pace, k - 1);
      WatchesFollow(cfg, run, k - 1);
      MemoryFollows(cfg, run, k - 1);
      ProbeMemory(
        ProbeAt(pace, k - 1).verdict, (k - 1) * pace, RecalledMemory(run.states[k - 1].memory, "XAUUSD"), cfg);
    }
  }

  function ProbeChange(pace: nat, k: nat): AlertCandidate {
    Change(if k % 2 == 1 then DATA_UNAVAILABLE else DATA_RESTORED, ProbeAt(pace, k), "decision")
  }

  lemma {:induction false} ProbeStep(
      cfg: AlertConfig, st: ServiceState, v: Verdict, now: int, m: Memory, was: Verdict)
    requires st.watches == [] && RecalledMemory(st.memory, "XAUUSD") == Some(m) && LeftByProbe(m, was)
    ensures CandidatesOf(cfg, st, Evaluated(Probe(v, now), "FULL")) == DataAlerts(Probe(v, now), m)
  {
    FlatMapOfNone(ReadyOf(Probe(v, now), "FULL"), st.watches);
    ProbeAlerts(v, now, m, was, cfg);
    assert DataAlerts(Probe(v, now), m) + [] == DataAlerts(Probe(v, now), m);
  }

  lemma {:induction false} FirstProbeStep(cfg: AlertConfig, st: ServiceState, v: Verdict, now: int)
    requires st.watches == [] && RecalledMemory(st.memory, "XAUUSD").None?
    ensures CandidatesOf(cfg, st, Evaluated(Probe(v, now), "FULL")) == []
  {
    FlatMapOfNone(ReadyOf(Probe(v, now), "FULL"), st.watches);
  }

  lemma ProbeDataAlert(pace: nat, k: nat, m: Memory)
    requires k > 0 && LeftByProbe(m, ProbeAt(pace, k - 1).verdict)
    ensures DataAlerts(ProbeAt(pace, k), m) == [ProbeChange(pace, k)]
  {
  }

  /** Every step after the baseline announces a change of availability, and nothing else. */
  lemma {:induction false} ProbeCandidates(cfg: AlertConfig, run: ServiceRun, pace: nat, k: nat)
    requires IsProbeRun(cfg, run, pace) && k < |run.events|
    ensures CandidatesOf(cfg, run.states[k], run.events[k]) == if k == 0 then [] else [ProbeChange(pace, k)]
  {
    ProbeRunState(cfg, run, pace, k);
    var s, st := ProbeAt(pace, k), run.states[k];
    if k == 0 {
      FirstProbeStep(cfg, st, s.verdict, s.now);
    } else {
      var m := RecalledMemory(st.memory, "XAUUSD").value;
      ProbeStep(cfg, st, s.verdict, s.now, m, ProbeAt(pace, k - 1).verdict);
      ProbeDataAlert(pace, k, m);
    }
  }

  function ProbeCall(pace: nat, k: nat): Call {
    CallAt(k * pace)(ProbeChange(pace, k))
  }

  function ProbeCalls(pace: nat, n: nat): seq<Call> {
    if n <= 1 then [] else ProbeCalls(pace, n - 1) + [ProbeCall(pace, n - 1)]
  }

  /** The candidates of such a run at the times of its steps. */
  ghost predicate ProbeLists(css: seq<seq<AlertCandidate>>, times: seq<int>, pace: nat)
    requires |css| == |times|
  {
    forall k: nat :: k < |css| ==> times[k] == k * pace && css[k] == if k == 0 then [] else [ProbeChange(pace, k)]
  }

  lemma {:induction false} CallsOfLists(css: seq<seq<AlertCandidate>>, times: seq<int>, pace: nat, n: nat)
    requires n <= |css| == |times| && ProbeLists(css, times, pace)
    ensures CallsOf(css, times, n) == ProbeCalls(pace, n)
  {
    if n > 0 {
      CallsOfLists(css, times, pace, n - 1);
      OneCallMore(css, times, n - 1);
    }
  }

  lemma {:induction false} CallsOfProbes(cfg: AlertConfig, run: ServiceRun, pace: nat)
    requires IsProbeRun(cfg, run, pace)
    ensures CallsTo(cfg, run, |run.events|) == ProbeCalls(pace, |run.events|)
  {
    ProbeRunLists(cfg, run, pace);
    CallsOfLists(CandidateLists(cfg, run), Times(run.events), pace, |run.events|);
  }

  lemma {:induction false} ProbeRunLists(cfg: AlertConfig, run: ServiceRun, pace: nat)
    requires IsProbeRun(cfg, run, pace)
    ensures ProbeLists(CandidateLists(cfg, run), Times(run.events), pace)
  {
    forall k: nat | k < |run.events|
      ensures CandidatesOf(cfg, run.states[k], run.events[k]) == if k == 0 then [] else [ProbeChange(pace, k)]
    {
      ProbeCandidates(cfg, run, pace, k);
    }
  }

  lemma {:induction false} OneCallMore(css: seq<seq<AlertCandidate>>, times: seq<int>, n: nat)
    requires n < |css| == |times| && |css[n]| <= 1
    ensures CallsOf(css, times, n + 1)
            == if |css[n]| == 0 then CallsOf(css, times, n) else CallsOf(css, times, n) + [CallAt(times[n])(css[n][0])]
  {
    var more := Map(CallAt(times[n]), css[n]);
    if |css[n]| == 0 {
      assert CallsOf(css, times, n) + more == CallsOf(css, times, n);
    } else {
      assert more == [CallAt(times[n])(css[n][0])];
    }
  }

  lemma {:induction false} FourProbeCalls(pace: nat)
    ensures ProbeCalls(pace, 5) == [ProbeCall(pace, 1), ProbeCall(pace, 2), ProbeCall(pace, 3), ProbeCall(pace, 4)]
  {
    assert ProbeCalls(pace, 2) == ProbeCalls(pace, 1) + [ProbeCall(pace, 1)];
    assert ProbeCalls(pace, 3) == ProbeCalls(pace, 2) + [ProbeCall(pace, 2)];
    assert ProbeCalls(pace, 4) == ProbeCalls(pace, 3) + [ProbeCall(pace, 3)];
  }

  lemma ProbeKeys(pace: nat, j: nat, k: nat)
    ensures ProbeCall(pace, j).key == ProbeCall(pace, k).key <==> j % 2 == k % 2
  {
    assert |TypeName(DATA_UNAVAILABLE)| == 16 && |TypeName(DATA_RESTORED)| == 13;
    if j % 2 != k % 2 {
      assert |ProbeCall(pace, j).key| != |ProbeCall(pace, k).key|;
    }
  }

  /** Four calls under two keys in turn: the first two raise alerts, the others when their cooldown has passed. */
  lemma {:induction false} FourInTurn(cfg: AlertConfig, calls: seq<Call>)
    requires |calls| == 4 && calls[0].key == calls[2].key != calls[1].key == calls[3].key
    requires calls[0].candidate.kind == calls[2].candidate.kind && calls[1].candidate.kind == calls[3].candidate.kind
    ensures Answers(cfg, calls)
            == [true, true, calls[2].now - calls[0].now >= cfg.cooldown(cfg.category(calls[2].candidate.kind)),
                calls[3].now - calls[1].now >= cfg.cooldown(cfg.category(calls[3].candidate.kind))]
  {
    AnswersFollowHistory(cfg, calls, 0);
    AnswersFollowHistory(cfg, calls, 1);
    AnswersFollowHistory(cfg, calls, 2);
    AnswersFollowHistory(cfg, calls, 3);
  }

  lemma {:induction false} FourAnswers(cfg: AlertConfig, pace: nat)
    ensures Answers(cfg, ProbeCalls(pace, 5))
            == [true, true, 2 * pace >= cfg.cooldown(cfg.category(DATA_UNAVAILABLE)),
                2 * pace >= cfg.cooldown(cfg.category(DATA_RESTORED))]
  {
    FourProbeCalls(pace);
    ProbeKeys(pace, 1, 2);
    ProbeKeys(pace, 1, 3);
    ProbeKeys(pace, 2, 4);
    FourInTurn(cfg, ProbeCalls(pace, 5));
  }

  lemma {:induction false} FourKept(ms: seq<Mark>, fired: seq<bool>)
    requires |ms| == |fired| == 4
    ensures Kept(ms, fired)
            == (if fired[0] then [ms[0]] else []) + (if fired[1] then [ms[1]] else [])
               + (if fired[2] then [ms[2]] else []) + (if fired[3] then [ms[3]] else [])
  {
    KeptStep(ms, fired, 0);
    KeptStep(ms, fired, 1);
    KeptStep(ms, fired, 2);
    KeptStep(ms, fired, 3);
    assert ms[..4] == ms && fired[..4] == fired;
  }

  function StoredKinds(cfg: AlertConfig, pace: nat): seq<AlertType> {
    [DATA_UNAVAILABLE, DATA_RESTORED]
    + (if 2 * pace >= cfg.cooldown(cfg.category(DATA_UNAVAILABLE)) then [DATA_UNAVAILABLE] else [])
    + (if 2 * pace >= cfg.cooldown(cfg.category(DATA_RESTORED)) then [DATA_RESTORED] else [])
  }

  lemma {:induction false} KeptOfFour(cfg: AlertConfig, pace: nat)
    ensures Map(KindOf, Kept(Map(CallMark, ProbeCalls(pace, 5)), Answers(cfg, ProbeCalls(pace, 5))))
            == StoredKinds(cfg, pace)
  {
    FourProbeCalls(pace);
    FourAnswers(cfg, pace);
    FourKept(Map(CallMark, ProbeCalls(pace, 5)), Answers(cfg, ProbeCalls(pace, 5)));
  }

  /** The stored alerts after four changes of availability. */
  lemma {:induction false} StoredAfterFour(cfg: AlertConfig, run: ServiceRun, pace: nat)
    requires IsProbeRun(cfg, run, pace) && |run.events| == 5
    ensures Map(KindOf, StoredMarks(run, 5)) == StoredKinds(cfg, pace)
  {
    ProbeRunFacts(cfg, run, pace);
    StoredAreAnswered(cfg, run, 5);
    CallsOfProbes(cfg, run, pace);
    KeptOfFour(cfg, pace);
  }

  lemma {:induction false} PairInsideCooldown(cfg: AlertConfig)
    requires cfg.cooldown(cfg.category(DATA_UNAVAILABLE)) == 600
    ensures !OutsideCooldowns(cfg, MarkOf("XAUUSD", IsDataKind), Map(CallMark, ProbeCalls(100, 5)))
  {
    FourProbeCalls(100);
    ProbeKeys(100, 1, 3);
    var ms := Map(CallMark, ProbeCalls(100, 5));
    assert ms[0] == CallMark(ProbeCall(100, 1)) && ms[2] == CallMark(ProbeCall(100, 3));
    assert ms[0].key == ms[2].key && MarkOf("XAUUSD", IsDataKind)(ms[2]);
  }

  lemma {:induction false} RunInsideCooldown(cfg: AlertConfig, run: ServiceRun)
    requires IsProbeRun(cfg, run, 100) && |run.events| == 5 && cfg.cooldown(cfg.category(DATA_UNAVAILABLE)) == 600
    ensures !OutsideCooldowns(cfg, MarkOf("XAUUSD", IsDataKind), AnnouncedMarks(cfg, run, 5))
  {
    CallsOfProbes(cfg, run, 100);
    PairInsideCooldown(cfg);
    assert AnnouncedMarks(cfg, run, 5) == Map(CallMark, ProbeCalls(100, 5));
  }

  /**
   * With the shipped cooldowns of 600 and 900 seconds a run of the service that evaluates every five minutes, with data
   * lost and restored twice in turn, ends with usable data and DATA_UNAVAILABLE as the last stored alert.
   */
  lemma {:induction false} RestorationCanBeSwallowed(cfg: AlertConfig) returns (run: ServiceRun)
    requires cfg.cooldown(cfg.category(DATA_UNAVAILABLE)) == 600 && cfg.cooldown(cfg.category(DATA_RESTORED)) == 900
    ensures IsProbeRun(cfg, run, 300) && |run.events| == 5 && ProbeAt(300, 4).verdict == WAIT
    ensures MonotoneClock(run.events) && PlainSymbols(run.events)
    ensures Map(KindOf, StoredMarks(run, 5)) == [DATA_UNAVAILABLE, DATA_RESTORED, DATA_UNAVAILABLE]
  {
    run := ProbeRun(cfg, 300, 5);
    ProbeRunFacts(cfg, run, 300);
    StoredAfterFour(cfg, run, 300);
  }

  /** Evaluated every 100 seconds, both later changes are swallowed, and the last stored alert is current again. */
  lemma {:induction false} SwallowedPairCancelsOut(cfg: AlertConfig) returns (run: ServiceRun)
    requires cfg.cooldown(cfg.category(DATA_UNAVAILABLE)) == 600 && cfg.cooldown(cfg.category(DATA_RESTORED)) == 900
    ensures IsProbeRun(cfg, run, 100) && |run.events| == 5 && ProbeAt(100, 4).verdict == WAIT
    ensures Map(KindOf, StoredMarks(run, 5)) == [DATA_UNAVAILABLE, DATA_RESTORED]
    ensures !OutsideCooldowns(cfg, MarkOf("XAUUSD", IsDataKind), AnnouncedMarks(cfg, run, 5))
  {
    run := ProbeRun(cfg, 100, 5);
    StoredAfterFour(cfg, run, 100);
    RunInsideCooldown(cfg, run);
  }
}
