/** From the rules to the feed: which announced changes the store keeps over a run of the service. */
module StoredAlerts {
  import opened Wrappers
  import opened Seqs
  import opened AlertModels
  import opened AlertStore
  import opened AlertRules
  import opened AlertRuns
  import opened AlertTraces
  import opened StreamTraces
  import opened AlertService
  import opened WatchRuns
  import opened WatchAlerts

  // ---------------------------------------------------------------- the calls of a run

  function CallAt(now: int): AlertCandidate -> Call {
    (c: AlertCandidate) => Call(DedupeKey(c), c, now)
  }

  /** The calls of `add` for the first `n` lists of candidates, in order. */
  function CallsOf(css: seq<seq<AlertCandidate>>, times: seq<int>, n: nat): seq<Call>
    requires n <= |css| == |times|
  {
    if n == 0 then [] else CallsOf(css, times, n - 1) + Map(CallAt(times[n - 1]), css[n - 1])
  }

  /** The candidates of each event. */
  function CandidateLists(cfg: AlertConfig, run: ServiceRun): (css: seq<seq<AlertCandidate>>)
    requires |run.events| < |run.states| && CoherentEvents(run.events)
    ensures |css| == |run.events|
    ensures forall k :: 0 <= k < |css| ==> css[k] == CandidatesOf(cfg, run.states[k], run.events[k])
  {
    seq(|run.events|, k requires 0 <= k < |run.events| => CandidatesOf(cfg, run.states[k], run.events[k]))
  }

  function Times(events: seq<Event>): (times: seq<int>)
    ensures |times| == |events| && forall k :: 0 <= k < |events| ==> times[k] == TimeOf(events[k])
  {
    Map(TimeOf, events)
  }

  /** The calls of `add` that the first `n` events make, in order. */
  function CallsTo(cfg: AlertConfig, run: ServiceRun, n: nat): seq<Call>
    requires n <= |run.events| < |run.states| && CoherentEvents(run.events)
  {
    CallsOf(CandidateLists(cfg, run), Times(run.events), n)
  }

  predicate Reports(e: Event) {
    e.Evaluated? || e.Failed?
  }

  /** Evaluations and failures happen at nondecreasing times. */
  ghost predicate MonotoneClock(events: seq<Event>) {
    forall i, j :: 0 <= i <= j < |events| && Reports(events[i]) && Reports(events[j]) ==>
      TimeOf(events[i]) <= TimeOf(events[j])
  }

  /** Candidates are added at nondecreasing times. */
  ghost predicate MonotoneLists(css: seq<seq<AlertCandidate>>, times: seq<int>)
    requires |css| == |times|
  {
    forall i, j :: 0 <= i <= j < |css| && css[i] != [] && css[j] != [] ==> times[i] <= times[j]
  }

  lemma {:induction false} ClockOfLists(cfg: AlertConfig, run: ServiceRun)
    requires |run.events| < |run.states| && CoherentEvents(run.events) && MonotoneClock(run.events)
    ensures MonotoneLists(CandidateLists(cfg, run), Times(run.events))
  {
    var css := CandidateLists(cfg, run);
    forall k | 0 <= k < |css| && css[k] != [] ensures Reports(run.events[k]) {
      OnlyReportsRaise(cfg, run.states[k], run.events[k]);
    }
  }

  lemma OnlyReportsRaise(cfg: AlertConfig, st: ServiceState, e: Event)
    requires (e.Evaluated? ==> Coherent(e.s)) && CandidatesOf(cfg, st, e) != []
    ensures Reports(e)
  {
  }

  ghost predicate NoneAfter(calls: seq<Call>, now: int) {
    forall i :: 0 <= i < |calls| ==> calls[i].now <= now
  }

  lemma {:induction false} EarlierCalls(css: seq<seq<AlertCandidate>>, times: seq<int>, n: nat, k: nat)
    requires n <= k < |css| == |times| && MonotoneLists(css, times) && css[k] != []
    ensures NoneAfter(CallsOf(css, times, n), times[k])
  {
    if n > 0 {
      EarlierCalls(css, times, n - 1, k);
      assert css[n - 1] != [] ==> times[n - 1] <= times[k];
    }
  }

  lemma {:induction false} SameTimeCalls(cs: seq<AlertCandidate>, now: int)
    ensures NondecreasingClock(Map(CallAt(now), cs)) && AllAt(Map(CallAt(now), cs), now)
  {
  }

  ghost predicate AllAt(calls: seq<Call>, now: int) {
    forall i :: 0 <= i < |calls| ==> calls[i].now == now
  }

  lemma {:induction false} OrderedAppend(before: seq<Call>, more: seq<Call>, now: int)
    requires NondecreasingClock(before) && NoneAfter(before, now) && AllAt(more, now)
    ensures NondecreasingClock(before + more)
  {
    var all := before + more;
    forall i, j | 0 <= i <= j < |all| ensures all[i].now <= all[j].now {
      assert all[i] == if i < |before| then before[i] else more[i - |before|];
      assert all[j] == if j < |before| then before[j] else more[j - |before|];
    }
  }

  lemma {:induction false} CallsAreOrdered(css: seq<seq<AlertCandidate>>, times: seq<int>, n: nat)
    requires n <= |css| == |times| && MonotoneLists(css, times)
    ensures NondecreasingClock(CallsOf(css, times, n))
  {
    for k := 0 to n
      invariant NondecreasingClock(CallsOf(css, times, k))
    {
      OrderedStep(css, times, k);
    }
  }

  lemma {:induction false} OrderedStep(css: seq<seq<AlertCandidate>>, times: seq<int>, n: nat)
    requires n < |css| == |times| && MonotoneLists(css, times) && NondecreasingClock(CallsOf(css, times, n))
    ensures NondecreasingClock(CallsOf(css, times, n + 1))
  {
    var before, more := CallsOf(css, times, n), Map(CallAt(times[n]), css[n]);
    if css[n] == [] {
      assert before + more == before;
    } else {
      EarlierCalls(css, times, n, n);
      SameTimeCalls(css[n], times[n]);
      OrderedAppend(before, more, times[n]);
    }
  }

  // ---------------------------------------------------------------- the store run inside a service run

  const FIRST_RUN := StoreRun([], [EMPTY_STORE], [])

  function Last(run: StoreRun): StoreState
    requires |run.states| > 0
  {
    run.states[|run.states| - 1]
  }

  lemma ExtendOne(cfg: AlertConfig, run: StoreRun, c: AlertCandidate, now: int) returns (run': StoreRun)
    requires IsRun(cfg, run)
    ensures IsRun(cfg, run') && run'.calls == run.calls + [CallAt(now)(c)]
    ensures var (st, reply) := Adding(cfg, now)(Last(run), c);
            Last(run') == st && run'.replies == run.replies + [reply]
  {
    var (st, reply) := Adding(cfg, now)(Last(run), c);
    run' := StoreRun(run.calls + [CallAt(now)(c)], run.states + [st], run.replies + [reply]);
    forall i: nat | i < |run'.calls| ensures Steps(cfg, run', i) {
      if i < |run.calls| {
        assert Steps(cfg, run, i);
      }
    }
  }

  lemma {:induction false} RaisedOfOneMore(replies: seq<Option<Alert>>, reply: Option<Alert>)
    ensures Raised(replies + [reply]) == if reply.Some? then Raised(replies) + [reply.value] else Raised(replies)
  {
    assert (replies + [reply])[..|replies|] == replies;
  }

  lemma {:induction false} ExtendAll(cfg: AlertConfig, run: StoreRun, cs: seq<AlertCandidate>, now: int)
    returns (run': StoreRun)
    requires IsRun(cfg, run)
    ensures IsRun(cfg, run') && run'.calls == run.calls + Map(CallAt(now), cs)
    ensures Last(run') == AddAll(cfg, Last(run), cs, now).0
    ensures Raised(run'.replies) == Raised(run.replies) + AddAll(cfg, Last(run), cs, now).1
  {
    if |cs| == 0 {
      run' := run;
      assert Map(CallAt(now), cs) == [];
      assert Raised(run.replies) + [] == Raised(run.replies);
    } else {
      var front, c := cs[..|cs| - 1], cs[|cs| - 1];
      var mid := ExtendAll(cfg, run, front, now);
      run' := ExtendOne(cfg, mid, c, now);
      FrontLast(cs);
      MapSnoc(CallAt(now), front, c);
      var reply := Adding(cfg, now)(Last(mid), c).1;
      RaisedOfOneMore(mid.replies, reply);
      AppendReply(Raised(run.replies), AddAll(cfg, Last(run), front, now).1, reply);
    }
  }

  /** The lists are fed to the store one after the other. */
  ghost predicate Feeds(
    cfg: AlertConfig, css: seq<seq<AlertCandidate>>, times: seq<int>, stores: seq<StoreState>,
    raised: seq<seq<Alert>>)
  {
    && |css| == |times| == |raised| && |stores| == |css| + 1 && stores[0] == EMPTY_STORE
    && forall k: nat :: k < |css| ==> FeedsAt(cfg, css, times, stores, raised, k)
  }

  ghost predicate FeedsAt(
    cfg: AlertConfig, css: seq<seq<AlertCandidate>>, times: seq<int>, stores: seq<StoreState>,
    raised: seq<seq<Alert>>, k: nat)
    requires k < |css| == |times| == |raised| && |stores| == |css| + 1
  {
    AddAll(cfg, stores[k], css[k], times[k]) == (stores[k + 1], raised[k])
  }

  function Stores(states: seq<ServiceState>): (stores: seq<StoreState>)
    ensures |stores| == |states| && forall k :: 0 <= k < |states| ==> stores[k] == states[k].store
  {
    Map((st: ServiceState) => st.store, states)
  }

  lemma {:induction false} ServiceFeeds(cfg: AlertConfig, run: ServiceRun)
    requires IsServiceRun(cfg, run)
    ensures Feeds(cfg, CandidateLists(cfg, run), Times(run.events), Stores(run.states), run.raised)
  {
    var css, times, stores := CandidateLists(cfg, run), Times(run.events), Stores(run.states);
    forall k: nat | k < |css| ensures FeedsAt(cfg, css, times, stores, run.raised, k) {
      assert Follows(cfg, run, k);
    }
  }

  /** The store run made of the calls of the first `n` lists. */
  ghost predicate IsInner(cfg: AlertConfig, inner: StoreRun, calls: seq<Call>, last: StoreState, raised: seq<Alert>) {
    IsRun(cfg, inner) && inner.calls == calls && Last(inner) == last && Raised(inner.replies) == raised
  }

  lemma InnerStep(
      cfg: AlertConfig, before: StoreRun, calls: seq<Call>, last: StoreState, raised: seq<Alert>,
      cs: seq<AlertCandidate>, now: int)
    requires IsInner(cfg, before, calls, last, raised)
    ensures var (st, more) := AddAll(cfg, last, cs, now);
            exists inner :: IsInner(cfg, inner, calls + Map(CallAt(now), cs), st, raised + more)
  {
    var inner := ExtendAll(cfg, before, cs, now);
    var (st, more) := AddAll(cfg, last, cs, now);
    assert IsInner(cfg, inner, calls + Map(CallAt(now), cs), st, raised + more);
  }

  /** The calls that a run of the service makes are a run of the store. */
  lemma {:induction false} HasStoreRun(
      cfg: AlertConfig, css: seq<seq<AlertCandidate>>, times: seq<int>, stores: seq<StoreState>,
      raised: seq<seq<Alert>>, n: nat)
    requires Feeds(cfg, css, times, stores, raised) && n <= |css|
    ensures exists inner :: IsInner(cfg, inner, CallsOf(css, times, n), stores[n], History(raised, n))
  {
    if n == 0 {
      assert CallsOf(css, times, n) == [] && History(raised, n) == [];
      assert IsInner(cfg, FIRST_RUN, [], stores[0], []);
    } else {
      HasStoreRun(cfg, css, times, stores, raised, n - 1);
      var before :| IsInner(cfg, before, CallsOf(css, times, n - 1), stores[n - 1], History(raised, n - 1));
      assert FeedsAt(cfg, css, times, stores, raised, n - 1);
      InnerStep(
        cfg, before, CallsOf(css, times, n - 1), stores[n - 1], History(raised, n - 1), css[n - 1], times[n - 1]);
      assert History(raised, n) == History(raised, n - 1) + raised[n - 1];
      assert CallsOf(css, times, n) == CallsOf(css, times, n - 1) + Map(CallAt(times[n - 1]), css[n - 1]);
    }
  }

  /** The store run made of all calls that the first `n` events make. */
  lemma {:induction false} StoreRunOf(cfg: AlertConfig, run: ServiceRun, n: nat) returns (inner: StoreRun)
    requires IsServiceRun(cfg, run) && n <= |run.events|
    ensures IsInner(cfg, inner, CallsTo(cfg, run, n), run.states[n].store, History(run.raised, n))
  {
    var css, times, stores := CandidateLists(cfg, run), Times(run.events), Stores(run.states);
    ServiceFeeds(cfg, run);
    HasStoreRun(cfg, css, times, stores, run.raised, n);
    inner :| IsInner(cfg, inner, CallsOf(css, times, n), stores[n], History(run.raised, n));
  }

  // ---------------------------------------------------------------- marks

  /** What an announced change and the alert stored for it have in common. */
  datatype Mark = Mark(symbol: string, kind: AlertType, key: string, at: int)

  function CallMark(c: Call): Mark {
    Mark(c.candidate.symbol, c.candidate.kind, c.key, c.now)
  }

  function AlertMark(a: Alert): Mark {
    Mark(a.symbol, a.kind, a.dedupeKey, a.createdAt)
  }

  function AnnouncedMarks(cfg: AlertConfig, run: ServiceRun, n: nat): seq<Mark>
    requires n <= |run.events| < |run.states| && CoherentEvents(run.events)
  {
    Map(CallMark, CallsTo(cfg, run, n))
  }

  function StoredMarks(run: ServiceRun, n: nat): seq<Mark>
    requires n <= |run.raised|
  {
    Map(AlertMark, History(run.raised, n))
  }

  /** The marks that were kept. */
  function Kept(ms: seq<Mark>, fired: seq<bool>): seq<Mark>
    requires |ms| == |fired|
  {
    if |ms| == 0 then []
    else
      var before := Kept(ms[..|ms| - 1], fired[..|ms| - 1]);
      if fired[|ms| - 1] then before + [ms[|ms| - 1]] else before
  }

  lemma MarkOfReply(cfg: AlertConfig, run: StoreRun, i: nat)
    requires IsRun(cfg, run) && i < |run.calls| && run.replies[i].Some?
    ensures AlertMark(run.replies[i].value) == CallMark(run.calls[i])
  {
    assert Steps(cfg, run, i);
  }

  lemma {:induction false} RaisedAreKept(cfg: AlertConfig, run: StoreRun, n: nat)
    requires IsRun(cfg, run) && n <= |run.calls|
    ensures Map(AlertMark, Raised(run.replies[..n])) == Kept(Map(CallMark, run.calls)[..n], Fired(run.replies)[..n])
  {
    if n > 0 {
      RaisedAreKept(cfg, run, n - 1);
      RaisedSnoc(run.replies, n - 1);
      KeptStep(Map(CallMark, run.calls), Fired(run.replies), n - 1);
      if run.replies[n - 1].Some? {
        MarkOfReply(cfg, run, n - 1);
        MapSnoc(AlertMark, Raised(run.replies[..n - 1]), run.replies[n - 1].value);
      }
    }
  }

  lemma KeptStep(ms: seq<Mark>, fired: seq<bool>, n: nat)
    requires n < |ms| == |fired|
    ensures Kept(ms[..n + 1], fired[..n + 1])
            == if fired[n] then Kept(ms[..n], fired[..n]) + [ms[n]] else Kept(ms[..n], fired[..n])
  {
    assert ms[..n + 1][..n] == ms[..n] && fired[..n + 1][..n] == fired[..n];
  }

  /** All selected marks were kept. */
  ghost predicate AllKept(p: Mark -> bool, ms: seq<Mark>, fired: seq<bool>)
    requires |ms| == |fired|
  {
    forall i :: 0 <= i < |ms| && p(ms[i]) ==> fired[i]
  }

  lemma {:induction false} KeptIsShorter(p: Mark -> bool, ms: seq<Mark>, fired: seq<bool>)
    requires |ms| == |fired|
    ensures |Filter(p, Kept(ms, fired))| <= |Filter(p, ms)|
    ensures |Filter(p, Kept(ms, fired))| == |Filter(p, ms)| <==> AllKept(p, ms, fired)
    ensures AllKept(p, ms, fired) ==> Filter(p, Kept(ms, fired)) == Filter(p, ms)
  {
    if |ms| > 0 {
      var n := |ms| - 1;
      KeptIsShorter(p, ms[..n], fired[..n]);
      FilterSnoc(p, Kept(ms[..n], fired[..n]), ms[n]);
      KeptSplits(p, ms, fired);
    }
  }

  lemma KeptSplits(p: Mark -> bool, ms: seq<Mark>, fired: seq<bool>)
    requires |ms| == |fired| > 0
    ensures var n := |ms| - 1;
            AllKept(p, ms, fired) <==> AllKept(p, ms[..n], fired[..n]) && (p(ms[n]) ==> fired[n])
  {
    var n := |ms| - 1;
    if AllKept(p, ms[..n], fired[..n]) && (p(ms[n]) ==> fired[n]) {
      forall i | 0 <= i < |ms| && p(ms[i]) ensures fired[i] {
        assert i == n || (ms[..n][i] == ms[i] && fired[..n][i] == fired[i]);
      }
    }
  }

  // ---------------------------------------------------------------- cooldowns

  /** The selection holds every mark under the key of a selected one. */
  ghost predicate ClosedUnderKeys(p: Mark -> bool, ms: seq<Mark>) {
    forall i, j :: 0 <= i < |ms| && 0 <= j < |ms| && p(ms[j]) && ms[i].key == ms[j].key ==> p(ms[i])
  }

  /** Every selected change comes at least its cooldown after each earlier one under its key. */
  ghost predicate OutsideCooldowns(cfg: AlertConfig, p: Mark -> bool, ms: seq<Mark>) {
    forall i, j :: 0 <= i < j < |ms| && p(ms[j]) && ms[i].key == ms[j].key ==>
      ms[j].at - ms[i].at >= cfg.cooldown(cfg.category(ms[j].kind))
  }

  lemma {:induction false} AllKeptIffSpaced(cfg: AlertConfig, calls: seq<Call>, fired: seq<bool>, p: Mark -> bool)
    requires |fired| == |calls| && forall i: nat :: i < |calls| ==> ByHistory(cfg, calls, fired, i)
    requires ClosedUnderKeys(p, Map(CallMark, calls))
    ensures AllKept(p, Map(CallMark, calls), fired) <==> OutsideCooldowns(cfg, p, Map(CallMark, calls))
  {
    var ms := Map(CallMark, calls);
    if AllKept(p, ms, fired) {
      forall i, j | 0 <= i < j < |ms| && p(ms[j]) && ms[i].key == ms[j].key
        ensures ms[j].at - ms[i].at >= cfg.cooldown(cfg.category(ms[j].kind))
      {
        assert fired[i] && fired[j] && ByHistory(cfg, calls, fired, j);
      }
    }
    if OutsideCooldowns(cfg, p, ms) {
      forall j | 0 <= j < |ms| && p(ms[j]) ensures fired[j] {
        assert ByHistory(cfg, calls, fired, j);
        forall i | 0 <= i < j && fired[i] && calls[i].key == calls[j].key
          ensures calls[j].now - calls[i].now >= cfg.cooldown(cfg.category(calls[j].candidate.kind))
        {
          assert ms[i].key == ms[j].key;
        }
      }
    }
  }

  /**
   * Over a run of the service with a nondecreasing clock: which announced changes are stored is decided by the history
   * of calls alone, and the stored alerts are those changes in order.
   */
  lemma {:induction false} StoredByHistory(cfg: AlertConfig, run: ServiceRun, n: nat) returns (fired: seq<bool>)
    requires IsServiceRun(cfg, run) && MonotoneClock(run.events) && n <= |run.events|
    ensures |fired| == |CallsTo(cfg, run, n)|
    ensures forall i: nat :: i < |fired| ==> ByHistory(cfg, CallsTo(cfg, run, n), fired, i)
    ensures StoredMarks(run, n) == Kept(AnnouncedMarks(cfg, run, n), fired)
  {
    var inner := StoreRunOf(cfg, run, n);
    fired := Fired(inner.replies);
    ClockOfLists(cfg, run);
    CallsAreOrdered(CandidateLists(cfg, run), Times(run.events), n);
    PruningIsInvisible(cfg, inner);
    RaisedAreKept(cfg, inner, |inner.calls|);
    assert inner.replies[..|inner.calls|] == inner.replies;
    assert Map(CallMark, inner.calls)[..|inner.calls|] == Map(CallMark, inner.calls);
    assert fired[..|inner.calls|] == fired;
  }

  // ---------------------------------------------------------------- changes of one kind

  /** The marks of a symbol and of some kinds. */
  function MarkOf(symbol: string, kinds: AlertType -> bool): Mark -> bool {
    (m: Mark) => m.symbol == symbol && kinds(m.kind)
  }

  ghost predicate PlainCalls(calls: seq<Call>) {
    forall i :: 0 <= i < |calls| ==>
      calls[i].key == DedupeKey(calls[i].candidate) && PlainSymbol(calls[i].candidate.symbol)
  }

  lemma {:induction false} KindsAreClosed(calls: seq<Call>, symbol: string, kinds: AlertType -> bool)
    requires PlainCalls(calls)
    ensures ClosedUnderKeys(MarkOf(symbol, kinds), Map(CallMark, calls))
  {
    var ms := Map(CallMark, calls);
    forall i, j | 0 <= i < |ms| && 0 <= j < |ms| && MarkOf(symbol, kinds)(ms[j]) && ms[i].key == ms[j].key
      ensures MarkOf(symbol, kinds)(ms[i])
    {
      DedupeKeyInjective(calls[i].candidate, calls[j].candidate);
    }
  }

  /** Every candidate of an event concerns a plain symbol. */
  lemma {:induction false} CandidatesArePlain(cfg: AlertConfig, run: ServiceRun, n: nat)
    requires IsServiceRun(cfg, run) && PlainSymbols(run.events) && n < |run.events|
    ensures forall c :: c in CandidatesOf(cfg, run.states[n], run.events[n]) ==> PlainSymbol(c.symbol)
  {
    var st, e := run.states[n], run.events[n];
    forall c | c in CandidatesOf(cfg, st, e) ensures PlainSymbol(c.symbol) {
      if e.Evaluated? {
        SymbolOfCandidate(cfg, st, e, c);
      }
    }
  }

  lemma {:induction false} SymbolOfCandidate(cfg: AlertConfig, st: ServiceState, e: Event, c: AlertCandidate)
    requires e.Evaluated? && Coherent(e.s) && c in CandidatesOf(cfg, st, e)
    ensures c.symbol == e.s.symbol
  {
    var derived, ready := Alerts(e.s, RecalledMemory(st.memory, e.s.symbol), cfg), ReadyOf(e.s, e.authority);
    if c in derived {
      DeriveNeverReady(e.s, RecalledMemory(st.memory, e.s.symbol).value, cfg, c);
    } else {
      assert c in FlatMap(ready, st.watches);
      FlatMapMembers(ready, st.watches, c);
    }
  }

  lemma {:induction false} CallsArePlain(css: seq<seq<AlertCandidate>>, times: seq<int>, n: nat)
    requires n <= |css| == |times|
    requires forall k: nat, c: AlertCandidate :: k < |css| && c in css[k] ==> PlainSymbol(c.symbol)
    ensures PlainCalls(CallsOf(css, times, n))
  {
    if n > 0 {
      CallsArePlain(css, times, n - 1);
      PlainAppend(CallsOf(css, times, n - 1), css[n - 1], times[n - 1]);
    }
  }

  lemma {:induction false} ListsArePlain(cfg: AlertConfig, run: ServiceRun)
    requires IsServiceRun(cfg, run) && PlainSymbols(run.events)
    ensures forall k: nat, c: AlertCandidate ::
              k < |run.events| && c in CandidateLists(cfg, run)[k] ==> PlainSymbol(c.symbol)
  {
    var css := CandidateLists(cfg, run);
    forall k: nat, c: AlertCandidate | k < |run.events| && c in css[k] ensures PlainSymbol(c.symbol) {
      CandidatesArePlain(cfg, run, k);
    }
  }

  lemma {:induction false} PlainAppend(calls: seq<Call>, cs: seq<AlertCandidate>, now: int)
    requires PlainCalls(calls) && forall c :: c in cs ==> PlainSymbol(c.symbol)
    ensures PlainCalls(calls + Map(CallAt(now), cs))
  {
    var more := Map(CallAt(now), cs);
    forall i | 0 <= i < |more|
      ensures more[i].key == DedupeKey(more[i].candidate) && PlainSymbol(more[i].candidate.symbol) {
      assert cs[i] in cs && more[i] == CallAt(now)(cs[i]);
    }
    AppendPlain(calls, more);
  }

  lemma AppendPlain(a: seq<Call>, b: seq<Call>)
    requires PlainCalls(a) && PlainCalls(b)
    ensures PlainCalls(a + b)
  {
    forall i | 0 <= i < |a + b|
      ensures (a + b)[i].key == DedupeKey((a + b)[i].candidate) && PlainSymbol((a + b)[i].candidate.symbol) {
      assert (a + b)[i] == if i < |a| then a[i] else b[i - |a|];
    }
  }

  /**
   * The stored alerts of some kinds of a symbol are exactly its announced changes of these kinds, in order, if and only
   * if every change comes at least its cooldown after each earlier one under its key.
   */
  lemma {:induction false} StoredAsAnnouncedIff(
      cfg: AlertConfig, run: ServiceRun, n: nat, symbol: string, kinds: AlertType -> bool)
    requires IsServiceRun(cfg, run) && MonotoneClock(run.events) && PlainSymbols(run.events) && n <= |run.events|
    ensures var p, announced := MarkOf(symbol, kinds), AnnouncedMarks(cfg, run, n);
            && (Filter(p, StoredMarks(run, n)) == Filter(p, announced) <==> OutsideCooldowns(cfg, p, announced))
            && (|Filter(p, StoredMarks(run, n))| == |Filter(p, announced)| <==> OutsideCooldowns(cfg, p, announced))
  {
    var p, calls := MarkOf(symbol, kinds), CallsTo(cfg, run, n);
    var fired := StoredByHistory(cfg, run, n);
    ListsArePlain(cfg, run);
    CallsArePlain(CandidateLists(cfg, run), Times(run.events), n);
    KindsAreClosed(calls, symbol, kinds);
    AllKeptIffSpaced(cfg, calls, fired, p);
    KeptIsShorter(p, AnnouncedMarks(cfg, run, n), fired);
  }

  // ---------------------------------------------------------------- the snapshots of a symbol

  /** The snapshots of one symbol that the events evaluate, in order. */
  function SnapsOf(symbol: string, events: seq<Event>): seq<Snapshot> {
    if |events| == 0 then []
    else
      var before, e := SnapsOf(symbol, events[..|events| - 1]), events[|events| - 1];
      if e.Evaluated? && e.s.symbol == symbol then before + [e.s] else before
  }

  lemma {:induction false} SnapsStep(symbol: string, events: seq<Event>, n: nat)
    requires n < |events|
    ensures var before, e := SnapsOf(symbol, events[..n]), events[n];
            SnapsOf(symbol, events[..n + 1]) == if e.Evaluated? && e.s.symbol == symbol then before + [e.s] else before
  {
    assert events[..n + 1][..n] == events[..n];
  }

  lemma {:induction false} SnapsAreCoherent(symbol: string, events: seq<Event>, n: nat)
    requires CoherentEvents(events) && n <= |events|
    ensures CoherentRun(SnapsOf(symbol, events[..n]))
  {
    if n > 0 {
      SnapsAreCoherent(symbol, events, n - 1);
      SnapsStep(symbol, events, n - 1);
    }
  }

  lemma {:induction false} MemoryOfPrefix(snaps: seq<Snapshot>, more: seq<Snapshot>, cfg: AlertConfig, n: nat)
    requires n <= |snaps|
    ensures MemoryAt(snaps + more, cfg, n) == MemoryAt(snaps, cfg, n)
  {
    if n > 0 {
      MemoryOfPrefix(snaps, more, cfg, n - 1);
      assert (snaps + more)[n - 1] == snaps[n - 1];
    }
  }

  lemma {:induction false} MemoryStep(snaps: seq<Snapshot>, s: Snapshot, cfg: AlertConfig)
    ensures MemoryAt(snaps + [s], cfg, |snaps| + 1) == Some(NextMemory(s, MemoryAt(snaps, cfg, |snaps|), cfg))
  {
    MemoryOfPrefix(snaps, [s], cfg, |snaps|);
  }

  /** What the service remembers of a symbol is the memory of the run of its snapshots. */
  lemma {:induction false} ServiceRemembers(cfg: AlertConfig, run: ServiceRun, n: nat, symbol: string)
    requires IsServiceRun(cfg, run) && n <= |run.events|
    ensures var snaps := SnapsOf(symbol, run.events[..n]);
            RecalledMemory(run.states[n].memory, symbol) == MemoryAt(snaps, cfg, |snaps|)
  {
    if n > 0 {
      ServiceRemembers(cfg, run, n - 1, symbol);
      SnapsStep(symbol, run.events, n - 1);
      var e := run.events[n - 1];
      MemoryFollows(cfg, run, n - 1);
      if e.Evaluated? && e.s.symbol == symbol {
        MemoryStep(SnapsOf(symbol, run.events[..n - 1]), e.s, cfg);
      }
    }
  }

  lemma MemoryFollows(cfg: AlertConfig, run: ServiceRun, n: nat)
    requires IsServiceRun(cfg, run) && n < |run.events|
    ensures run.states[n + 1].memory == MemoryAfter(cfg, run.states[n].memory, run.events[n])
  {
    assert Follows(cfg, run, n);
  }

  lemma {:induction false} StreamOfPrefix(
      kinds: AlertType -> bool, snaps: seq<Snapshot>, more: seq<Snapshot>, cfg: AlertConfig, n: nat)
    requires n <= |snaps| && CoherentRun(snaps) && CoherentRun(snaps + more)
    ensures StreamOf(kinds, snaps + more, cfg, 0, n) == StreamOf(kinds, snaps, cfg, 0, n)
  {
    if n > 0 {
      StreamOfPrefix(kinds, snaps, more, cfg, n - 1);
      MemoryOfPrefix(snaps, more, cfg, n - 1);
      assert (snaps + more)[n - 1] == snaps[n - 1];
    }
  }

  lemma {:induction false} StreamSnoc(kinds: AlertType -> bool, snaps: seq<Snapshot>, s: Snapshot, cfg: AlertConfig)
    requires CoherentRun(snaps) && CoherentRun(snaps + [s]) && Coherent(s)
    ensures StreamOf(kinds, snaps + [s], cfg, 0, |snaps| + 1)
            == StreamOf(kinds, snaps, cfg, 0, |snaps|)
               + Map(Brief, Filter(KindIn(kinds), Alerts(s, MemoryAt(snaps, cfg, |snaps|), cfg)))
  {
    StreamOfPrefix(kinds, snaps, [s], cfg, |snaps|);
    MemoryOfPrefix(snaps, [s], cfg, |snaps|);
  }

  // ---------------------------------------------------------------- announced marks are the stream

  /** Type and dedupe key of a mark, and of an alert of a symbol told by type and reference. */
  function MarkBrief(m: Mark): (AlertType, string) {
    (m.kind, m.key)
  }

  function KeyedBrief(symbol: string): ((AlertType, string)) -> (AlertType, string) {
    (b: (AlertType, string)) => (b.0, symbol + ":" + TypeName(b.0) + ":" + b.1)
  }

  /** The kinds are raised by the rules, not by watches or failures. */
  ghost predicate RuleKinds(kinds: AlertType -> bool) {
    !kinds(READY) && !kinds(MONITOR_FAILURE)
  }

  /** The selected marks of candidates. */
  function SelectedBriefs(symbol: string, kinds: AlertType -> bool, cs: seq<AlertCandidate>, now: int)
    : seq<(AlertType, string)>
  {
    Map(MarkBrief, Filter(MarkOf(symbol, kinds), Map(CallMark, Map(CallAt(now), cs))))
  }

  lemma {:induction false} SelectedAppend(
      symbol: string, kinds: AlertType -> bool, a: seq<AlertCandidate>, b: seq<AlertCandidate>, now: int)
    ensures SelectedBriefs(symbol, kinds, a + b, now)
            == SelectedBriefs(symbol, kinds, a, now) + SelectedBriefs(symbol, kinds, b, now)
  {
    var ma, mb := Map(CallMark, Map(CallAt(now), a)), Map(CallMark, Map(CallAt(now), b));
    assert Map(CallMark, Map(CallAt(now), a + b)) == ma + mb;
    FilterAppend(MarkOf(symbol, kinds), ma, mb);
    MapAppend(MarkBrief, Filter(MarkOf(symbol, kinds), ma), Filter(MarkOf(symbol, kinds), mb));
  }

  lemma {:induction false} NoneSelected(
      symbol: string, kinds: AlertType -> bool, cs: seq<AlertCandidate>, now: int)
    requires forall i :: 0 <= i < |cs| ==> cs[i].symbol != symbol || !kinds(cs[i].kind)
    ensures SelectedBriefs(symbol, kinds, cs, now) == []
  {
    FilterNonePass(MarkOf(symbol, kinds), Map(CallMark, Map(CallAt(now), cs)));
  }

  lemma {:induction false} OneSelected(symbol: string, kinds: AlertType -> bool, c: AlertCandidate, now: int)
    requires c.symbol == symbol
    ensures SelectedBriefs(symbol, kinds, [c], now) == if kinds(c.kind) then [KeyedBrief(symbol)(Brief(c))] else []
  {
    var m := CallMark(CallAt(now)(c));
    assert Map(CallMark, Map(CallAt(now), [c])) == [m];
    assert [m][..0] == [];
    if kinds(c.kind) {
      assert Filter(MarkOf(symbol, kinds), [m]) == [m];
    } else {
      assert Filter(MarkOf(symbol, kinds), [m]) == [];
    }
  }

  /** Selecting marks of candidates of the symbol is selecting the candidates by their kinds. */
  lemma {:induction false} SelectedByKind(
      symbol: string, kinds: AlertType -> bool, cs: seq<AlertCandidate>, now: int)
    requires forall i :: 0 <= i < |cs| ==> cs[i].symbol == symbol
    ensures SelectedBriefs(symbol, kinds, cs, now) == Map(KeyedBrief(symbol), Map(Brief, Filter(KindIn(kinds), cs)))
  {
    if |cs| == 0 {
      NoneSelected(symbol, kinds, cs, now);
    } else {
      var front, c := cs[..|cs| - 1], cs[|cs| - 1];
      SelectedByKind(symbol, kinds, front, now);
      OneSelected(symbol, kinds, c, now);
      FrontLast(cs);
      SelectedAppend(symbol, kinds, front, [c], now);
      BriefSnoc(symbol, kinds, front, c);
    }
  }

  lemma {:induction false} BriefSnoc(
      symbol: string, kinds: AlertType -> bool, front: seq<AlertCandidate>, c: AlertCandidate)
    ensures Map(KeyedBrief(symbol), Map(Brief, Filter(KindIn(kinds), front + [c])))
            == Map(KeyedBrief(symbol), Map(Brief, Filter(KindIn(kinds), front)))
               + if kinds(c.kind) then [KeyedBrief(symbol)(Brief(c))] else []
  {
    FilterSnoc(KindIn(kinds), front, c);
  }

  /** What the candidates of an event add to the selection. */
  lemma {:induction false} EventSelects(
      cfg: AlertConfig, st: ServiceState, e: Event, symbol: string, kinds: AlertType -> bool)
    requires (e.Evaluated? ==> Coherent(e.s)) && RuleKinds(kinds)
    ensures SelectedBriefs(symbol, kinds, CandidatesOf(cfg, st, e), TimeOf(e))
            == if e.Evaluated? && e.s.symbol == symbol
               then Map(KeyedBrief(symbol), Map(Brief, Filter(
                      KindIn(kinds), Alerts(e.s, RecalledMemory(st.memory, symbol), cfg))))
               else []
  {
    var cs := CandidatesOf(cfg, st, e);
    if e.Evaluated? && e.s.symbol == symbol {
      EvaluationSelects(cfg, st, e, kinds);
    } else {
      forall i | 0 <= i < |cs| ensures cs[i].symbol != symbol || !kinds(cs[i].kind) {
        assert cs[i] in cs;
        if e.Evaluated? {
          SymbolOfCandidate(cfg, st, e, cs[i]);
        }
      }
      NoneSelected(symbol, kinds, cs, TimeOf(e));
    }
  }

  lemma {:induction false} EvaluationSelects(
      cfg: AlertConfig, st: ServiceState, e: Event, kinds: AlertType -> bool)
    requires e.Evaluated? && Coherent(e.s) && RuleKinds(kinds)
    ensures var symbol := e.s.symbol;
            SelectedBriefs(symbol, kinds, CandidatesOf(cfg, st, e), TimeOf(e))
            == Map(KeyedBrief(symbol), Map(Brief, Filter(
                 KindIn(kinds), Alerts(e.s, RecalledMemory(st.memory, symbol), cfg))))
  {
    var symbol, derived := e.s.symbol, Alerts(e.s, RecalledMemory(st.memory, e.s.symbol), cfg);
    var ready := FlatMap(ReadyOf(e.s, e.authority), st.watches);
    SelectedAppend(symbol, kinds, derived, ready, TimeOf(e));
    forall i | 0 <= i < |derived| ensures derived[i].symbol == symbol {
      assert derived[i] in derived;
      DeriveNeverReady(e.s, RecalledMemory(st.memory, symbol).value, cfg, derived[i]);
    }
    SelectedByKind(symbol, kinds, derived, TimeOf(e));
    ReadyNotSelected(e.s, e.authority, st.watches, kinds);
    NoneSelected(symbol, kinds, ready, TimeOf(e));
    NothingBehind(SelectedBriefs(symbol, kinds, derived, TimeOf(e)));
  }

  lemma NothingBehind(xs: seq<(AlertType, string)>)
    ensures xs + [] == xs
  {
  }

  lemma {:induction false} ReadyNotSelected(
      s: Snapshot, authority: string, ws: seq<ReadyWatch>, kinds: AlertType -> bool)
    requires RuleKinds(kinds)
    ensures forall i :: 0 <= i < |FlatMap(ReadyOf(s, authority), ws)| ==>
              !kinds(FlatMap(ReadyOf(s, authority), ws)[i].kind)
  {
    var cs := FlatMap(ReadyOf(s, authority), ws);
    forall i | 0 <= i < |cs| ensures !kinds(cs[i].kind) {
      FlatMapMembers(ReadyOf(s, authority), ws, cs[i]);
    }
  }

  /** The announced marks of a symbol and some kinds are the stream of its snapshots. */
  ghost predicate TellsStream(cfg: AlertConfig, run: ServiceRun, n: nat, symbol: string, kinds: AlertType -> bool)
    requires n <= |run.events| < |run.states| && CoherentEvents(run.events)
    requires CoherentRun(SnapsOf(symbol, run.events[..n]))
  {
    var snaps := SnapsOf(symbol, run.events[..n]);
    Map(MarkBrief, Filter(MarkOf(symbol, kinds), AnnouncedMarks(cfg, run, n)))
    == Map(KeyedBrief(symbol), StreamOf(kinds, snaps, cfg, 0, |snaps|))
  }

  lemma {:induction false} TellsStep(
      cfg: AlertConfig, run: ServiceRun, n: nat, symbol: string, kinds: AlertType -> bool)
    requires IsServiceRun(cfg, run) && n < |run.events| && RuleKinds(kinds)
    requires CoherentRun(SnapsOf(symbol, run.events[..n])) && CoherentRun(SnapsOf(symbol, run.events[..n + 1]))
    requires TellsStream(cfg, run, n, symbol, kinds)
    ensures TellsStream(cfg, run, n + 1, symbol, kinds)
  {
    AnnouncedStep(cfg, run, n, symbol, kinds);
    StreamGrows(cfg, run, n, symbol, kinds);
  }

  lemma {:induction false} AnnouncedIsStream(
      cfg: AlertConfig, run: ServiceRun, n: nat, symbol: string, kinds: AlertType -> bool)
    requires IsServiceRun(cfg, run) && n <= |run.events| && RuleKinds(kinds)
    ensures CoherentRun(SnapsOf(symbol, run.events[..n])) && TellsStream(cfg, run, n, symbol, kinds)
  {
    SnapsAreCoherent(symbol, run.events, 0);
    assert CallsTo(cfg, run, 0) == [];
    for k := 0 to n
      invariant CoherentRun(SnapsOf(symbol, run.events[..k])) && TellsStream(cfg, run, k, symbol, kinds)
    {
      SnapsAreCoherent(symbol, run.events, k + 1);
      TellsStep(cfg, run, k, symbol, kinds);
    }
  }

  lemma {:induction false} StreamGrows(
      cfg: AlertConfig, run: ServiceRun, n: nat, symbol: string, kinds: AlertType -> bool)
    requires IsServiceRun(cfg, run) && n < |run.events| && RuleKinds(kinds)
    requires CoherentRun(SnapsOf(symbol, run.events[..n])) && CoherentRun(SnapsOf(symbol, run.events[..n + 1]))
    ensures var snaps, snaps' := SnapsOf(symbol, run.events[..n]), SnapsOf(symbol, run.events[..n + 1]);
            Map(KeyedBrief(symbol), StreamOf(kinds, snaps', cfg, 0, |snaps'|))
            == Map(KeyedBrief(symbol), StreamOf(kinds, snaps, cfg, 0, |snaps|))
               + SelectedBriefs(
                   symbol, kinds, CandidatesOf(cfg, run.states[n], run.events[n]), TimeOf(run.events[n]))
  {
    var e, snaps := run.events[n], SnapsOf(symbol, run.events[..n]);
    SnapsStep(symbol, run.events, n);
    EventSelects(cfg, run.states[n], e, symbol, kinds);
    if e.Evaluated? && e.s.symbol == symbol {
      ServiceRemembers(cfg, run, n, symbol);
      KeyedStreamSnoc(symbol, kinds, snaps, e.s, cfg);
    } else {
      NothingBehind(Map(KeyedBrief(symbol), StreamOf(kinds, snaps, cfg, 0, |snaps|)));
    }
  }

  lemma {:induction false} KeyedStreamSnoc(
      symbol: string, kinds: AlertType -> bool, snaps: seq<Snapshot>, s: Snapshot, cfg: AlertConfig)
    requires CoherentRun(snaps) && CoherentRun(snaps + [s]) && Coherent(s)
    ensures Map(KeyedBrief(symbol), StreamOf(kinds, snaps + [s], cfg, 0, |snaps| + 1))
            == Map(KeyedBrief(symbol), StreamOf(kinds, snaps, cfg, 0, |snaps|))
               + Map(KeyedBrief(symbol), Map(Brief, Filter(
                   KindIn(kinds), Alerts(s, MemoryAt(snaps, cfg, |snaps|), cfg))))
  {
    StreamSnoc(kinds, snaps, s, cfg);
    MapAppend(
      KeyedBrief(symbol), StreamOf(kinds, snaps, cfg, 0, |snaps|),
      Map(Brief, Filter(KindIn(kinds), Alerts(s, MemoryAt(snaps, cfg, |snaps|), cfg))));
  }

  lemma {:induction false} AnnouncedStep(
      cfg: AlertConfig, run: ServiceRun, n: nat, symbol: string, kinds: AlertType -> bool)
    requires IsServiceRun(cfg, run) && n < |run.events|
    ensures Map(MarkBrief, Filter(MarkOf(symbol, kinds), AnnouncedMarks(cfg, run, n + 1)))
            == Map(MarkBrief, Filter(MarkOf(symbol, kinds), AnnouncedMarks(cfg, run, n)))
               + SelectedBriefs(
                   symbol, kinds, CandidatesOf(cfg, run.states[n], run.events[n]), TimeOf(run.events[n]))
  {
    ListSelects(CandidateLists(cfg, run), Times(run.events), n, symbol, kinds);
  }

  lemma {:induction false} ListSelects(
      css: seq<seq<AlertCandidate>>, times: seq<int>, n: nat, symbol: string, kinds: AlertType -> bool)
    requires n < |css| == |times|
    ensures Map(MarkBrief, Filter(MarkOf(symbol, kinds), Map(CallMark, CallsOf(css, times, n + 1))))
            == Map(MarkBrief, Filter(MarkOf(symbol, kinds), Map(CallMark, CallsOf(css, times, n))))
               + SelectedBriefs(symbol, kinds, css[n], times[n])
  {
    var calls, more := CallsOf(css, times, n), Map(CallAt(times[n]), css[n]);
    MapAppend(CallMark, calls, more);
    FilterAppend(MarkOf(symbol, kinds), Map(CallMark, calls), Map(CallMark, more));
    MapAppend(
      MarkBrief, Filter(MarkOf(symbol, kinds), Map(CallMark, calls)),
      Filter(MarkOf(symbol, kinds), Map(CallMark, more)));
  }

  /**
   * The feed tells what the rules say: the stored alerts of some kinds of a symbol are, by type and key, exactly the
   * stream of its snapshots, if and only if every announced change comes at least its cooldown after each earlier one
   * under its key.
   */
  lemma {:induction false} StoredTraceIff(
      cfg: AlertConfig, run: ServiceRun, n: nat, symbol: string, kinds: AlertType -> bool)
    requires IsServiceRun(cfg, run) && MonotoneClock(run.events) && PlainSymbols(run.events) && n <= |run.events|
    requires RuleKinds(kinds)
    ensures CoherentRun(SnapsOf(symbol, run.events[..n]))
    ensures var snaps, p := SnapsOf(symbol, run.events[..n]), MarkOf(symbol, kinds);
            Map(MarkBrief, Filter(p, StoredMarks(run, n)))
            == Map(KeyedBrief(symbol), StreamOf(kinds, snaps, cfg, 0, |snaps|))
            <==> OutsideCooldowns(cfg, p, AnnouncedMarks(cfg, run, n))
  {
    AnnouncedIsStream(cfg, run, n, symbol, kinds);
    StoredAsAnnouncedIff(cfg, run, n, symbol, kinds);
  }

  function KindOf(m: Mark): AlertType {
    m.kind
  }

  /**
   * The stored DATA alerts of a symbol tell exactly the changes of its availability if and only if no change falls into
   * its cooldown. That the last of them is current asks for less; the module on swallowed alerts says what.
   */
  lemma {:induction false} DataAlertsStoredIff(cfg: AlertConfig, run: ServiceRun, n: nat, symbol: string)
    requires IsServiceRun(cfg, run) && MonotoneClock(run.events) && PlainSymbols(run.events) && n <= |run.events|
    requires |SnapsOf(symbol, run.events[..n])| > 0
    ensures var snaps, p := SnapsOf(symbol, run.events[..n]), MarkOf(symbol, IsDataKind);
            && |Outages(snaps, |snaps|)| > 0
            && (Map(KindOf, Filter(p, StoredMarks(run, n))) == DataTypes(Outages(snaps, |snaps|))
                <==> OutsideCooldowns(cfg, p, AnnouncedMarks(cfg, run, n)))
  {
    var snaps, p := SnapsOf(symbol, run.events[..n]), MarkOf(symbol, IsDataKind);
    AnnouncedIsStream(cfg, run, n, symbol, IsDataKind);
    StoredAsAnnouncedIff(cfg, run, n, symbol, IsDataKind);
    DataStream(snaps, cfg, |snaps|);
    KindsOfBriefs(symbol, Filter(p, AnnouncedMarks(cfg, run, n)), DataTypes(Outages(snaps, |snaps|)));
    SameLength(Filter(p, StoredMarks(run, n)), DataTypes(Outages(snaps, |snaps|)));
  }

  lemma SameLength(ms: seq<Mark>, types: seq<AlertType>)
    ensures Map(KindOf, ms) == types ==> |ms| == |types|
  {
  }

  lemma KindsOfBriefs(symbol: string, ms: seq<Mark>, types: seq<AlertType>)
    requires Map(MarkBrief, ms) == Map(KeyedBrief(symbol), Map(DataBrief, types))
    ensures Map(KindOf, ms) == types
  {
    var l, r := Map(MarkBrief, ms), Map(KeyedBrief(symbol), Map(DataBrief, types));
    assert |ms| == |l| == |r| == |types|;
    forall i | 0 <= i < |ms| ensures ms[i].kind == types[i] {
      assert l[i] == r[i];
    }
  }

  /** The stored lock alerts of a symbol are the announced lock changes exactly when none falls into its cooldown. */
  lemma {:induction false} LockAlertsStoredIff(cfg: AlertConfig, run: ServiceRun, n: nat, symbol: string)
    requires IsServiceRun(cfg, run) && MonotoneClock(run.events) && PlainSymbols(run.events) && n <= |run.events|
    requires |SnapsOf(symbol, run.events[..n])| > 0
    ensures CoherentRun(SnapsOf(symbol, run.events[..n]))
    ensures var snaps, p := SnapsOf(symbol, run.events[..n]), MarkOf(symbol, IsLockKind);
            Map(MarkBrief, Filter(p, StoredMarks(run, n)))
            == Map(KeyedBrief(symbol), Map(LockBrief, LocksBetween(snaps, cfg, 1, |snaps|)))
            <==> OutsideCooldowns(cfg, p, AnnouncedMarks(cfg, run, n))
  {
    var snaps := SnapsOf(symbol, run.events[..n]);
    StoredTraceIff(cfg, run, n, symbol, IsLockKind);
    LockStream(snaps, cfg, 1, |snaps|);
    SilentBaseline(IsLockKind, snaps, cfg, |snaps|);
  }

  lemma {:induction false} SilentBaseline(kinds: AlertType -> bool, snaps: seq<Snapshot>, cfg: AlertConfig, n: nat)
    requires 0 < n <= |snaps| && CoherentRun(snaps)
    ensures StreamOf(kinds, snaps, cfg, 0, n) == StreamOf(kinds, snaps, cfg, 1, n)
  {
    if n == 1 {
      StreamStep(kinds, snaps, cfg, 0, 1);
    } else {
      SilentBaseline(kinds, snaps, cfg, n - 1);
    }
  }
}
