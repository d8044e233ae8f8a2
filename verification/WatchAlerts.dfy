/** Each firing of a watch raises exactly one READY alert, and every watched symbol is monitored. */
module WatchAlerts {
  import opened Wrappers
  import opened Domain
  import opened Seqs
  import opened Text
  import opened AlertModels
  import opened AlertStore
  import opened AlertRules
  import opened AlertTraces
  import opened ReadyChecklist
  import opened AlertService
  import opened WatchRuns

  // ---------------------------------------------------------------- dedupe keys of READY alerts

  predicate PlainSymbol(symbol: string) {
    ':' !in symbol
  }

  function ReadyKey(symbol: string, id: string): string {
    DedupeKey(AlertCandidate(READY, symbol, id, 0, None, None))
  }

  lemma KeyIgnoresRest(c: AlertCandidate)
    requires c.kind == READY
    ensures DedupeKey(c) == ReadyKey(c.symbol, c.reference)
  {
  }

  /** Only a READY candidate of the same symbol and watch has the key. */
  lemma OtherKeys(c: AlertCandidate, symbol: string, id: string)
    requires PlainSymbol(c.symbol) && PlainSymbol(symbol) && DedupeKey(c) == ReadyKey(symbol, id)
    ensures c.kind == READY && c.symbol == symbol && c.reference == id
  {
    DedupeKeyInjective(c, AlertCandidate(READY, symbol, id, 0, None, None));
  }

  // ---------------------------------------------------------------- counting alerts under a key

  /** How many of the alerts were raised under the key. */
  function Count(key: string, alerts: seq<Alert>): nat {
    if |alerts| == 0 then 0
    else Count(key, alerts[..|alerts| - 1]) + if alerts[|alerts| - 1].dedupeKey == key then 1 else 0
  }

  lemma {:induction false} CountAppend(key: string, a: seq<Alert>, b: seq<Alert>)
    ensures Count(key, a + b) == Count(key, a) + Count(key, b)
  {
    if |b| == 0 {
      assert a + b == a;
    } else {
      CountAppend(key, a, b[..|b| - 1]);
      assert (a + b)[..|a + b| - 1] == a + b[..|b| - 1];
    }
  }

  ghost predicate NoneUnder(key: string, cs: seq<AlertCandidate>) {
    forall i :: 0 <= i < |cs| ==> DedupeKey(cs[i]) != key
  }

  /** One call of `add`, seen from one key. */
  lemma AddUnderOtherKey(cfg: AlertConfig, st: StoreState, k: string, c: AlertCandidate, now: int, key: string)
    requires k != key
    ensures var (st', reply) := AddStep(cfg, st, k, c, now);
            (key in st'.lastByKey ==> key in st.lastByKey) && (reply.Some? ==> reply.value.dedupeKey != key)
  {
  }

  lemma AddUnderNewKey(cfg: AlertConfig, st: StoreState, key: string, c: AlertCandidate, now: int)
    requires key !in st.lastByKey
    ensures var reply := AddStep(cfg, st, key, c, now).1; reply.Some? && reply.value.dedupeKey == key
  {
  }

  lemma {:induction false} AddAllUnderOtherKeys(
      cfg: AlertConfig, st: StoreState, cs: seq<AlertCandidate>, now: int, key: string)
    requires NoneUnder(key, cs)
    ensures var (st', raised) := AddAll(cfg, st, cs, now);
            Count(key, raised) == 0 && (key in st'.lastByKey ==> key in st.lastByKey)
  {
    if |cs| != 0 {
      var c := cs[|cs| - 1];
      AddAllUnderOtherKeys(cfg, st, cs[..|cs| - 1], now, key);
      var (before, replies) := AddAll(cfg, st, cs[..|cs| - 1], now);
      AddUnderOtherKey(cfg, before, DedupeKey(c), c, now, key);
      CountReply(key, replies, Adding(cfg, now)(before, c).1);
    }
  }

  lemma {:induction false} CountReply(key: string, replies: seq<Alert>, reply: Option<Alert>)
    ensures reply.Some? ==> Count(key, replies + [reply.value])
                            == Count(key, replies) + if reply.value.dedupeKey == key then 1 else 0
  {
    if reply.Some? {
      assert (replies + [reply.value])[..|replies|] == replies;
    }
  }

  /** A single candidate under a key the store does not know raises one alert under it. */
  lemma {:induction false} AddAllWithNewKey(
      cfg: AlertConfig, st: StoreState, a: seq<AlertCandidate>, c: AlertCandidate, b: seq<AlertCandidate>, now: int,
      key: string)
    requires NoneUnder(key, a) && NoneUnder(key, b) && DedupeKey(c) == key && key !in st.lastByKey
    ensures Count(key, AddAll(cfg, st, a + [c] + b, now).1) == 1
  {
    var step := Adding(cfg, now);
    var (st1, r1) := AddAll(cfg, st, a, now);
    var (st2, r2) := AddAll(cfg, st1, [c], now);
    FoldAppend(step, st, a + [c], b);
    FoldAppend(step, st, a, [c]);
    AddAllUnderOtherKeys(cfg, st, a, now, key);
    AddAllUnderOtherKeys(cfg, st2, b, now, key);
    AddUnderNewKey(cfg, st1, key, c, now);
    SingleReply(cfg, st1, c, now);
    CountAppend(key, r1 + r2, AddAll(cfg, st2, b, now).1);
    CountAppend(key, r1, r2);
    CountReply(key, [], AddStep(cfg, st1, key, c, now).1);
  }

  lemma SingleReply(cfg: AlertConfig, st: StoreState, c: AlertCandidate, now: int)
    ensures var reply := AddStep(cfg, st, DedupeKey(c), c, now).1;
            reply.Some? ==> AddAll(cfg, st, [c], now).1 == [] + [reply.value]
  {
    FoldStep(Adding(cfg, now), st, [c], 0);
    assert [c][..1] == [c];
  }

  // ---------------------------------------------------------------- one READY alert per firing

  /** Symbols of instruments contain no colon. */
  ghost predicate PlainSymbols(events: seq<Event>) {
    forall i :: 0 <= i < |events| ==>
      match events[i]
      case AddWatch(instrument, _, _, _) => instrument.Some? ==> PlainSymbol(instrument.value)
      case Evaluated(s, _) => PlainSymbol(s.symbol)
      case Failed(symbol, _) => PlainSymbol(symbol)
      case RemoveWatch(_) => true
  }

  /** Event `k` makes the watch of this symbol and id fire. */
  ghost predicate WatchFires(run: ServiceRun, k: nat, symbol: string, id: string)
    requires k < |run.events| < |run.states|
  {
    exists w :: w in run.states[k].watches && w.symbol == symbol && w.id == id && FiresAt(run, k, w)
  }

  /** One of the first `n` events made it fire. */
  ghost predicate HasFired(run: ServiceRun, n: nat, symbol: string, id: string)
    requires n <= |run.events| < |run.states|
  {
    exists k :: 0 <= k < n && WatchFires(run, k, symbol, id)
  }

  /** The store knows the key of the READY alert only when the watch has fired. */
  ghost predicate KeyMeansFired(run: ServiceRun, n: nat, symbol: string, id: string)
    requires n <= |run.events| < |run.states|
  {
    ReadyKey(symbol, id) in run.states[n].store.lastByKey ==> HasFired(run, n, symbol, id)
  }

  /** The watch is FIRED exactly when it has fired. */
  ghost predicate StateMeansFired(run: ServiceRun, n: nat, symbol: string, id: string)
    requires n <= |run.events| < |run.states|
  {
    forall w :: w in run.states[n].watches && w.symbol == symbol && w.id == id ==>
      (w.state == FIRED <==> HasFired(run, n, symbol, id))
  }

  /** The candidates of an evaluation that are not READY candidates have other keys. */
  lemma DerivedKeys(s: Snapshot, p: Option<Memory>, cfg: AlertConfig, symbol: string, id: string)
    requires Coherent(s) && PlainSymbol(s.symbol) && PlainSymbol(symbol)
    ensures NoneUnder(ReadyKey(symbol, id), Alerts(s, p, cfg))
  {
    var cs := Alerts(s, p, cfg);
    forall i | 0 <= i < |cs| ensures DedupeKey(cs[i]) != ReadyKey(symbol, id) {
      assert cs[i] in cs;
      DeriveNeverReady(s, p.value, cfg, cs[i]);
      if DedupeKey(cs[i]) == ReadyKey(symbol, id) {
        OtherKeys(cs[i], symbol, id);
      }
    }
  }

  /** READY candidates of watches that are not this one have other keys. */
  lemma {:induction false} OtherWatchesKeys(
      s: Snapshot, authority: string, ws: seq<ReadyWatch>, symbol: string, id: string)
    requires PlainSymbol(s.symbol) && PlainSymbol(symbol)
    requires forall w :: w in ws && w.symbol == symbol && w.id == id ==> !FiresNow(w, s, authority)
    ensures NoneUnder(ReadyKey(symbol, id), FlatMap(ReadyOf(s, authority), ws))
  {
    var cs := FlatMap(ReadyOf(s, authority), ws);
    forall i | 0 <= i < |cs| ensures DedupeKey(cs[i]) != ReadyKey(symbol, id) {
      FlatMapMembers(ReadyOf(s, authority), ws, cs[i]);
      var k :| 0 <= k < |ws| && cs[i] in ReadyOf(s, authority)(ws[k]);
      assert ws[k] in ws && cs[i] == ReadyCandidate(ws[k], s);
      if DedupeKey(cs[i]) == ReadyKey(symbol, id) {
        OtherKeys(cs[i], symbol, id);
      }
    }
  }

  /** An event that does not make the watch fire raises nothing under its key. */
  lemma QuietStep(cfg: AlertConfig, st: ServiceState, e: Event, symbol: string, id: string)
    requires (e.Evaluated? ==> Coherent(e.s) && PlainSymbol(e.s.symbol)) && (e.Failed? ==> PlainSymbol(e.symbol))
    requires PlainSymbol(symbol)
    requires e.Evaluated? ==>
               forall w :: w in st.watches && w.symbol == symbol && w.id == id ==> !FiresNow(w, e.s, e.authority)
    ensures NoneUnder(ReadyKey(symbol, id), CandidatesOf(cfg, st, e))
  {
    if e.Evaluated? {
      DerivedKeys(e.s, RecalledMemory(st.memory, e.s.symbol), cfg, symbol, id);
      OtherWatchesKeys(e.s, e.authority, st.watches, symbol, id);
    } else if e.Failed? {
      var c := FailureCandidate(e.symbol, e.now);
      if DedupeKey(c) == ReadyKey(symbol, id) {
        OtherKeys(c, symbol, id);
      }
    }
  }

  /** The candidates of an event that makes a watch fire: one under its key among others. */
  lemma FiringCandidates(cfg: AlertConfig, st: ServiceState, e: Event, k: nat)
    returns (a: seq<AlertCandidate>, c: AlertCandidate, b: seq<AlertCandidate>)
    requires e.Evaluated? && Coherent(e.s) && PlainSymbol(e.s.symbol)
    requires UniqueIds(st.watches) && k < |st.watches| && FiresNow(st.watches[k], e.s, e.authority)
    ensures CandidatesOf(cfg, st, e) == a + [c] + b
    ensures var key := ReadyKey(st.watches[k].symbol, st.watches[k].id);
            NoneUnder(key, a) && NoneUnder(key, b) && DedupeKey(c) == key
  {
    var w, derived := st.watches[k], Alerts(e.s, RecalledMemory(st.memory, e.s.symbol), cfg);
    DerivedKeys(e.s, RecalledMemory(st.memory, e.s.symbol), cfg, w.symbol, w.id);
    var before;
    before, c, b := FiringReadies(e.s, e.authority, st.watches, k);
    a := derived + before;
    AroundOne(derived, before, c, b, FlatMap(ReadyOf(e.s, e.authority), st.watches));
    NoneUnderAppend(ReadyKey(w.symbol, w.id), derived, before);
  }

  lemma AroundOne(
      derived: seq<AlertCandidate>, before: seq<AlertCandidate>, c: AlertCandidate, b: seq<AlertCandidate>,
      readies: seq<AlertCandidate>)
    requires readies == before + [c] + b
    ensures derived + readies == derived + before + [c] + b
  {
  }

  lemma NoneUnderAppend(key: string, a: seq<AlertCandidate>, b: seq<AlertCandidate>)
    requires NoneUnder(key, a) && NoneUnder(key, b)
    ensures NoneUnder(key, a + b)
  {
    forall i | 0 <= i < |a + b| ensures DedupeKey((a + b)[i]) != key {
      assert (a + b)[i] == if i < |a| then a[i] else b[i - |a|];
    }
  }

  /** Among the READY candidates of an evaluation, one is the firing watch's. */
  lemma FiringReadies(s: Snapshot, authority: string, ws: seq<ReadyWatch>, k: nat)
    returns (a: seq<AlertCandidate>, c: AlertCandidate, b: seq<AlertCandidate>)
    requires PlainSymbol(s.symbol) && UniqueIds(ws) && k < |ws| && FiresNow(ws[k], s, authority)
    ensures FlatMap(ReadyOf(s, authority), ws) == a + [c] + b
    ensures var key := ReadyKey(ws[k].symbol, ws[k].id);
            NoneUnder(key, a) && NoneUnder(key, b) && DedupeKey(c) == key
  {
    var w, ready := ws[k], ReadyOf(s, authority);
    a, c, b := FlatMap(ready, ws[..k]), ReadyCandidate(w, s), FlatMap(ready, ws[k + 1..]);
    KeyIgnoresRest(c);
    OtherWatchesKeys(s, authority, ws[..k], w.symbol, w.id);
    OtherWatchesKeys(s, authority, ws[k + 1..], w.symbol, w.id);
    assert ws == ws[..k] + [w] + ws[k + 1..];
    FlatMapAround(ready, ws[..k], w, ws[k + 1..]);
  }

  lemma {:induction false} FlatMapAround<T, U>(f: T -> seq<U>, a: seq<T>, x: T, b: seq<T>)
    ensures FlatMap(f, a + [x] + b) == FlatMap(f, a) + f(x) + FlatMap(f, b)
  {
    FlatMapAppend(f, a + [x], b);
    FlatMapAppend(f, a, [x]);
    assert [x][..0] == [];
  }

  /** All alerts of the first `n` events. */
  function History(raised: seq<seq<Alert>>, n: nat): seq<Alert>
    requires n <= |raised|
  {
    if n == 0 then [] else History(raised, n - 1) + raised[n - 1]
  }

  /** What one event does under the key of one watch. */
  lemma StepUnderKey(cfg: AlertConfig, run: ServiceRun, n: nat, symbol: string, id: string)
    requires IsServiceRun(cfg, run) && PlainSymbols(run.events) && n < |run.events| && PlainSymbol(symbol)
    requires KeyMeansFired(run, n, symbol, id) && StateMeansFired(run, n, symbol, id)
    ensures var fires := WatchFires(run, n, symbol, id);
            && Count(ReadyKey(symbol, id), run.raised[n]) == (if fires then 1 else 0)
            && (fires ==> !HasFired(run, n, symbol, id))
            && (!fires ==> (ReadyKey(symbol, id) in run.states[n + 1].store.lastByKey
                            ==> ReadyKey(symbol, id) in run.states[n].store.lastByKey))
  {
    var st, e, key := run.states[n], run.events[n], ReadyKey(symbol, id);
    assert Follows(cfg, run, n);
    if WatchFires(run, n, symbol, id) {
      var w :| w in st.watches && w.symbol == symbol && w.id == id && FiresAt(run, n, w);
      AlwaysIdentified(cfg, run, n);
      var k :| 0 <= k < |st.watches| && st.watches[k] == w;
      var a, c, b := FiringCandidates(cfg, st, e, k);
      AddAllWithNewKey(cfg, st.store, a, c, b, TimeOf(e), key);
    } else {
      QuietStep(cfg, st, e, symbol, id);
      AddAllUnderOtherKeys(cfg, st.store, CandidatesOf(cfg, st, e), TimeOf(e), key);
    }
  }

  lemma HasFiredStep(run: ServiceRun, n: nat, symbol: string, id: string)
    requires n < |run.events| < |run.states|
    ensures HasFired(run, n + 1, symbol, id) <==> HasFired(run, n, symbol, id) || WatchFires(run, n, symbol, id)
  {
    if HasFired(run, n, symbol, id) {
      var k :| 0 <= k < n && WatchFires(run, k, symbol, id);
      assert 0 <= k < n + 1 && WatchFires(run, k, symbol, id);
    }
  }

  /** Only a watch whose id was drawn before can have fired. */
  lemma FiredWasIssued(cfg: AlertConfig, run: ServiceRun, n: nat, symbol: string, id: string)
    requires IsServiceRun(cfg, run) && n < |run.events| && HasFired(run, n + 1, symbol, id)
    ensures Issued(run.events, n, id)
  {
    var k :| 0 <= k < n + 1 && WatchFires(run, k, symbol, id);
    AlwaysIdentified(cfg, run, k);
    var w :| w in run.states[k].watches && w.symbol == symbol && w.id == id && FiresAt(run, k, w);
    IssuedLater(run.events, k, n, id);
  }

  lemma StateStep(cfg: AlertConfig, run: ServiceRun, n: nat, symbol: string, id: string)
    requires IsServiceRun(cfg, run) && n < |run.events| && StateMeansFired(run, n, symbol, id)
    ensures StateMeansFired(run, n + 1, symbol, id)
  {
    forall w' | w' in run.states[n + 1].watches && w'.symbol == symbol && w'.id == id
      ensures w'.state == FIRED <==> HasFired(run, n + 1, symbol, id)
    {
      StateStepOf(cfg, run, n, w');
    }
  }

  lemma StateStepOf(cfg: AlertConfig, run: ServiceRun, n: nat, w': ReadyWatch)
    requires IsServiceRun(cfg, run) && n < |run.events| && StateMeansFired(run, n, w'.symbol, w'.id)
    requires w' in run.states[n + 1].watches
    ensures w'.state == FIRED <==> HasFired(run, n + 1, w'.symbol, w'.id)
  {
    if Issued(run.events, n, w'.id) {
      AlwaysIdentified(cfg, run, n);
      var w := Predecessor(cfg, run, n, w');
      EvolvedKeeps(w, run.events[n]);
      HasFiredStep(run, n, w'.symbol, w'.id);
      OnlyWatchOfId(run, n, w);
    } else {
      if HasFired(run, n + 1, w'.symbol, w'.id) {
        FiredWasIssued(cfg, run, n, w'.symbol, w'.id);
      }
      WatchesFollow(cfg, run, n);
      AlwaysIdentified(cfg, run, n);
      WatchesComeFrom(cfg, run.states[n].watches, run.events[n], w');
      NewWatchWaits(cfg, run.events, n, run.states[n].watches, w');
    }
  }

  lemma OnlyWatchOfId(run: ServiceRun, n: nat, w: ReadyWatch)
    requires n < |run.events| < |run.states| && UniqueIds(run.states[n].watches) && w in run.states[n].watches
    ensures WatchFires(run, n, w.symbol, w.id) <==> FiresAt(run, n, w)
  {
  }

  lemma NewWatchWaits(cfg: AlertConfig, events: seq<Event>, n: nat, ws: seq<ReadyWatch>, w': ReadyWatch)
    requires n < |events| && WellIdentified(events, n, ws) && !Issued(events, n, w'.id)
    requires (exists w :: w in ws && w' == Evolved(w, events[n])) || IsCreated(w', events[n])
    ensures w'.state == WAITING
  {
    if w :| w in ws && w' == Evolved(w, events[n]) {
      EvolvedKeeps(w, events[n]);
    }
  }

  lemma HistoryStep(key: string, raised: seq<seq<Alert>>, n: nat)
    requires n < |raised|
    ensures Count(key, History(raised, n + 1)) == Count(key, History(raised, n)) + Count(key, raised[n])
  {
    CountAppend(key, History(raised, n), raised[n]);
  }

  /**
   * In every run with fresh ids a watch fires at most once, a watch is FIRED exactly when it has fired, and the alerts
   * raised so far hold exactly one READY alert for it when it has fired and none otherwise: its key is never in
   * cooldown.
   */
  lemma {:induction false} OneReadyAlertPerFiring(cfg: AlertConfig, run: ServiceRun, n: nat, symbol: string, id: string)
    requires IsServiceRun(cfg, run) && PlainSymbols(run.events) && n <= |run.events| && PlainSymbol(symbol)
    ensures StateMeansFired(run, n, symbol, id) && KeyMeansFired(run, n, symbol, id)
    ensures Count(ReadyKey(symbol, id), History(run.raised, n)) == if HasFired(run, n, symbol, id) then 1 else 0
    ensures FiresOnce(run, n, symbol, id)
  {
    if n > 0 {
      OneReadyAlertPerFiring(cfg, run, n - 1, symbol, id);
      ReadyStepUnderKey(cfg, run, n - 1, symbol, id);
      OnceStep(run, n - 1, symbol, id);
    }
  }

  /** No two of the first `n` events make the watch fire. */
  ghost predicate FiresOnce(run: ServiceRun, n: nat, symbol: string, id: string)
    requires n <= |run.events| < |run.states|
  {
    forall i, j :: 0 <= i < j < n && WatchFires(run, i, symbol, id) ==> !WatchFires(run, j, symbol, id)
  }

  lemma OnceStep(run: ServiceRun, n: nat, symbol: string, id: string)
    requires n < |run.events| < |run.states| && FiresOnce(run, n, symbol, id)
    requires WatchFires(run, n, symbol, id) ==> !HasFired(run, n, symbol, id)
    ensures FiresOnce(run, n + 1, symbol, id)
  {
    forall i, j | 0 <= i < j < n + 1 && WatchFires(run, i, symbol, id) ensures !WatchFires(run, j, symbol, id) {
      if j == n {
        assert HasFired(run, n, symbol, id);
      }
    }
  }

  lemma {:induction false} ReadyStepUnderKey(cfg: AlertConfig, run: ServiceRun, n: nat, symbol: string, id: string)
    requires IsServiceRun(cfg, run) && PlainSymbols(run.events) && n < |run.events| && PlainSymbol(symbol)
    requires StateMeansFired(run, n, symbol, id) && KeyMeansFired(run, n, symbol, id)
    requires Count(ReadyKey(symbol, id), History(run.raised, n)) == if HasFired(run, n, symbol, id) then 1 else 0
    ensures StateMeansFired(run, n + 1, symbol, id) && KeyMeansFired(run, n + 1, symbol, id)
    ensures Count(ReadyKey(symbol, id), History(run.raised, n + 1))
            == if HasFired(run, n + 1, symbol, id) then 1 else 0
    ensures WatchFires(run, n, symbol, id) ==> !HasFired(run, n, symbol, id)
  {
    StepUnderKey(cfg, run, n, symbol, id);
    StateStep(cfg, run, n, symbol, id);
    HasFiredStep(run, n, symbol, id);
    HistoryStep(ReadyKey(symbol, id), run.raised, n);
  }

  // ---------------------------------------------------------------- the store over a run

  /** The store numbers the alerts of a history and buffers the newest of them. */
  ghost predicate Holds(cfg: AlertConfig, st: StoreState, history: seq<Alert>) {
    st.lastNumber == |history| && st.buffer == LastN(history, cfg.bufferSize) && Numbered(history)
  }

  lemma AddHolds(cfg: AlertConfig, st: StoreState, history: seq<Alert>, key: string, c: AlertCandidate, now: int)
    requires Holds(cfg, st, history)
    ensures var (st', reply) := AddStep(cfg, st, key, c, now);
            Holds(cfg, st', if reply.Some? then history + [reply.value] else history)
  {
    var (st', reply) := AddStep(cfg, st, key, c, now);
    HoldsStep(history, st, st', reply, cfg.bufferSize);
  }

  lemma {:induction false} AddAllHolds(
      cfg: AlertConfig, st: StoreState, history: seq<Alert>, cs: seq<AlertCandidate>, now: int)
    requires Holds(cfg, st, history)
    ensures var (st', raised) := AddAll(cfg, st, cs, now); Holds(cfg, st', history + raised)
  {
    if |cs| == 0 {
      assert history + [] == history;
    } else {
      var c := cs[|cs| - 1];
      AddAllHolds(cfg, st, history, cs[..|cs| - 1], now);
      var (before, raised) := AddAll(cfg, st, cs[..|cs| - 1], now);
      AddHolds(cfg, before, history + raised, DedupeKey(c), c, now);
      var (after, reply) := Adding(cfg, now)(before, c);
      assert reply.Some? ==> history + raised + [reply.value] == history + (raised + [reply.value]);
    }
  }

  /** After every event the service's store holds the newest alerts of all events, numbered in order. */
  lemma {:induction false} StoreHoldsHistory(cfg: AlertConfig, run: ServiceRun, n: nat)
    requires IsServiceRun(cfg, run) && n <= |run.events|
    ensures Holds(cfg, run.states[n].store, History(run.raised, n))
  {
    if n > 0 {
      StoreHoldsHistory(cfg, run, n - 1);
      assert Follows(cfg, run, n - 1);
      var st, e := run.states[n - 1], run.events[n - 1];
      AddAllHolds(cfg, st.store, History(run.raised, n - 1), CandidatesOf(cfg, st, e), TimeOf(e));
    }
  }

  // ---------------------------------------------------------------- what the alerts of an event carry

  function KeyText(c: AlertCandidate): string {
    c.symbol + ":" + TypeName(c.kind) + ":" + c.reference
  }

  ghost predicate CarriesOne(cfg: AlertConfig, a: Alert, cs: seq<AlertCandidate>, now: int) {
    exists c :: c in cs && Carries(cfg, a, KeyText(c), c, now)
  }

  lemma {:induction false} RaisedCarry(cfg: AlertConfig, st: StoreState, cs: seq<AlertCandidate>, now: int, a: Alert)
    requires a in AddAll(cfg, st, cs, now).1
    ensures CarriesOne(cfg, a, cs, now)
  {
    if |cs| != 0 {
      var front, c := cs[..|cs| - 1], cs[|cs| - 1];
      var (before, replies) := AddAll(cfg, st, front, now);
      if a in replies {
        RaisedCarry(cfg, st, front, now, a);
        var d :| d in front && Carries(cfg, a, KeyText(d), d, now);
        assert d in cs;
      } else {
        assert Adding(cfg, now)(before, c).1 == Some(a);
        assert c in cs && Carries(cfg, a, KeyText(c), c, now);
      }
    }
  }

  /** Every alert that an event raises carries the fields of one of the event's candidates. */
  lemma {:induction false} EventAlertsCarry(cfg: AlertConfig, run: ServiceRun, n: nat, a: Alert)
    requires IsServiceRun(cfg, run) && n < |run.events| && a in run.raised[n]
    ensures CarriesOne(cfg, a, CandidatesOf(cfg, run.states[n], run.events[n]), TimeOf(run.events[n]))
  {
    assert Follows(cfg, run, n);
    RaisedCarry(cfg, run.states[n].store, CandidatesOf(cfg, run.states[n], run.events[n]), TimeOf(run.events[n]), a);
  }

  lemma {:induction false} CountedIsThere(key: string, alerts: seq<Alert>) returns (a: Alert)
    requires Count(key, alerts) > 0
    ensures a in alerts && a.dedupeKey == key
  {
    a := alerts[|alerts| - 1];
    if a.dedupeKey != key {
      a := CountedIsThere(key, alerts[..|alerts| - 1]);
    }
  }

  /** The alert of a firing watch: READY, under the id of the watch, with its symbol and direction, at that time. */
  lemma {:induction false} ReadyAlertIs(cfg: AlertConfig, run: ServiceRun, n: nat, w: ReadyWatch) returns (a: Alert)
    requires IsServiceRun(cfg, run) && PlainSymbols(run.events) && n < |run.events| && PlainSymbol(w.symbol)
    requires w in run.states[n].watches && w.state != FIRED && Triggers(run.events[n], w.symbol, w.direction)
    ensures a in run.raised[n] && a.kind == READY && a.symbol == w.symbol && a.direction == w.direction
    ensures a.dedupeKey == w.symbol + ":READY:" + w.id && a.price.None?
    ensures a.occurredAt == a.createdAt == run.events[n].s.now
  {
    a := FiringRaises(cfg, run, n, w);
    var c := CandidateOfAlert(cfg, run, n, a);
    ReadyOrigin(cfg, run, n, w, c);
    ReadyKeyText(w.symbol, w.id);
  }

  lemma {:induction false} FiringRaises(cfg: AlertConfig, run: ServiceRun, n: nat, w: ReadyWatch) returns (a: Alert)
    requires IsServiceRun(cfg, run) && PlainSymbols(run.events) && n < |run.events| && PlainSymbol(w.symbol)
    requires w in run.states[n].watches && w.state != FIRED && Triggers(run.events[n], w.symbol, w.direction)
    ensures a in run.raised[n] && a.dedupeKey == ReadyKey(w.symbol, w.id)
  {
    TriggersIff(run, n, w);
    assert WatchFires(run, n, w.symbol, w.id);
    OneReadyAlertPerFiring(cfg, run, n, w.symbol, w.id);
    StepUnderKey(cfg, run, n, w.symbol, w.id);
    a := CountedIsThere(ReadyKey(w.symbol, w.id), run.raised[n]);
  }

  lemma {:induction false} CandidateOfAlert(cfg: AlertConfig, run: ServiceRun, n: nat, a: Alert)
    returns (c: AlertCandidate)
    requires IsServiceRun(cfg, run) && n < |run.events| && a in run.raised[n]
    ensures c in CandidatesOf(cfg, run.states[n], run.events[n]) && DedupeKey(c) == a.dedupeKey
    ensures a.kind == c.kind && a.symbol == c.symbol && a.direction == c.direction && a.price == c.price
    ensures a.occurredAt == c.occurredAt && a.createdAt == TimeOf(run.events[n])
  {
    EventAlertsCarry(cfg, run, n, a);
    var cs, now := CandidatesOf(cfg, run.states[n], run.events[n]), TimeOf(run.events[n]);
    c :| c in cs && Carries(cfg, a, KeyText(c), c, now);
  }

  lemma ReadyKeyText(symbol: string, id: string)
    ensures ReadyKey(symbol, id) == symbol + ":READY:" + id
  {
  }

  lemma {:induction false} ReadyOrigin(cfg: AlertConfig, run: ServiceRun, n: nat, w: ReadyWatch, c: AlertCandidate)
    requires IsServiceRun(cfg, run) && PlainSymbols(run.events) && n < |run.events| && PlainSymbol(w.symbol)
    requires w in run.states[n].watches && run.events[n].Evaluated? && run.events[n].s.symbol == w.symbol
    requires c in CandidatesOf(cfg, run.states[n], run.events[n]) && DedupeKey(c) == ReadyKey(w.symbol, w.id)
    ensures c == AlertCandidate(READY, w.symbol, w.id, run.events[n].s.now, None, w.direction)
  {
    var s, authority, ws := run.events[n].s, run.events[n].authority, run.states[n].watches;
    AlwaysIdentified(cfg, run, n);
    var derived := Alerts(s, RecalledMemory(run.states[n].memory, s.symbol), cfg);
    if c in derived {
      DerivedKeys(s, RecalledMemory(run.states[n].memory, s.symbol), cfg, w.symbol, w.id);
    } else {
      assert c in FlatMap(ReadyOf(s, authority), ws);
      FlatMapMembers(ReadyOf(s, authority), ws, c);
      var k :| 0 <= k < |ws| && c in ReadyOf(s, authority)(ws[k]);
      OtherKeys(c, w.symbol, w.id);
      assert ws[k] in ws;
      SameIdSameWatch(ws, w, ws[k]);
    }
  }

  /** The READY alert that an evaluation tells of a watch of its symbol that has not fired. */
  function ReadyTold(e: Event): ReadyWatch -> seq<AlertCandidate> {
    (w: ReadyWatch) =>
      if e.Evaluated? && w.state != FIRED && Triggers(e, w.symbol, w.direction)
      then [AlertCandidate(READY, w.symbol, w.id, e.s.now, None, w.direction)] else []
  }

  lemma {:induction false} ReadiesAreTold(e: Event, ws: seq<ReadyWatch>)
    requires e.Evaluated?
    ensures FlatMap(ReadyOf(e.s, e.authority), ws) == FlatMap(ReadyTold(e), ws)
  {
    if |ws| != 0 {
      ReadiesAreTold(e, ws[..|ws| - 1]);
    }
  }

  /** What events add to the store, in order: the alerts of the rules, then those of the watches in their order. */
  lemma {:induction false} CandidatesAreTold(cfg: AlertConfig, run: ServiceRun, n: nat)
    requires IsServiceRun(cfg, run) && n < |run.events|
    ensures var st, e := run.states[n], run.events[n];
            CandidatesOf(cfg, st, e)
            == if e.Evaluated?
               then Alerts(e.s, if e.s.symbol in st.memory then Some(st.memory[e.s.symbol]) else None, cfg)
                    + FlatMap(ReadyTold(e), st.watches)
               else if e.Failed? then [AlertCandidate(MONITOR_FAILURE, e.symbol, "monitor", e.now, None, None)]
               else []
  {
    if run.events[n].Evaluated? {
      ReadiesAreTold(run.events[n], run.states[n].watches);
    }
  }

  /** A symbol that fails raises nothing but one failure alert of its own. */
  lemma FailureAlertIs(cfg: AlertConfig, run: ServiceRun, n: nat, a: Alert)
    requires IsServiceRun(cfg, run) && n < |run.events| && run.events[n].Failed? && a in run.raised[n]
    ensures a.kind == MONITOR_FAILURE && a.symbol == run.events[n].symbol && a.price.None? && a.direction.None?
    ensures a.dedupeKey == a.symbol + ":MONITOR_FAILURE:monitor" && a.occurredAt == a.createdAt == run.events[n].now
  {
    var c := CandidateOfAlert(cfg, run, n, a);
    FailureIs(cfg, run.states[n], run.events[n], c);
  }

  lemma FailureIs(cfg: AlertConfig, st: ServiceState, e: Event, c: AlertCandidate)
    requires e.Failed? && c in CandidatesOf(cfg, st, e)
    ensures c == AlertCandidate(MONITOR_FAILURE, e.symbol, "monitor", e.now, None, None)
    ensures DedupeKey(c) == e.symbol + ":MONITOR_FAILURE:monitor"
  {
    FailureKey(c);
  }

  lemma FailureKey(c: AlertCandidate)
    requires c.kind == MONITOR_FAILURE && c.reference == "monitor"
    ensures DedupeKey(c) == c.symbol + ":MONITOR_FAILURE:monitor"
  {
  }

  // ---------------------------------------------------------------- watches added and removed

  /** When a request for a watch is refused, and why. */
  lemma {:induction false} AddRefusedIff(
      cfg: AlertConfig, ws: seq<ReadyWatch>, instrument: Option<string>, direction: Option<Direction>, id: string,
      now: int)
    ensures var reply, limit := AddWatchReply(cfg, ws, instrument, direction, id, now), cfg.maxMonitoredSymbols;
            var all := cfg.monitoredSymbols + Extra(cfg.monitoredSymbols, ws);
            && (reply == Failure(UNKNOWN_SYMBOL) <==> instrument.None?)
            && (reply == Failure(WATCH_LIMIT) <==> instrument.Some? && |ws| >= cfg.maxReadyWatches)
            && (reply == Failure(SYMBOL_LIMIT)
                <==> instrument.Some? && |ws| < cfg.maxReadyWatches && |all| >= limit
                     && instrument.value !in all[..limit])
  {
    AllIsGivenAndExtra(cfg.monitoredSymbols, ws);
  }

  function NotId(id: string): ReadyWatch -> bool {
    (w: ReadyWatch) => w.id != id
  }

  lemma {:induction false} FilterAround(id: string, a: seq<ReadyWatch>, w: ReadyWatch, b: seq<ReadyWatch>)
    requires w.id == id && (forall v :: v in a ==> v.id != id) && forall v :: v in b ==> v.id != id
    ensures Filter(NotId(id), a + [w] + b) == a + b
  {
    FilterAppend(NotId(id), a + [w], b);
    FilterSnoc(NotId(id), a, w);
    FilterAllPass(NotId(id), a);
    FilterAllPass(NotId(id), b);
  }

  /** Removing an id leaves exactly the watches of other ids, in their order. */
  lemma {:induction false} RemovalLeavesOthers(ws: seq<ReadyWatch>, id: string)
    requires UniqueIds(ws)
    ensures Remove(ws, id) == Filter(NotId(id), ws)
  {
    var k := IndexOf(ws, id);
    if k < |ws| {
      assert ws == ws[..k] + [ws[k]] + ws[k + 1..];
      FilterAround(id, ws[..k], ws[k], ws[k + 1..]);
    } else {
      FilterAllPass(NotId(id), ws);
    }
  }

  // ---------------------------------------------------------------- monitored symbols

  /** The watched symbols that the given list lacks, each once. */
  function Extra(symbols: seq<string>, ws: seq<ReadyWatch>): seq<string> {
    if |ws| == 0 then []
    else
      var before, symbol := Extra(symbols, ws[..|ws| - 1]), ws[|ws| - 1].symbol;
      if symbol in symbols || symbol in before then before else before + [symbol]
  }

  lemma {:induction false} AllIsGivenAndExtra(symbols: seq<string>, ws: seq<ReadyWatch>)
    ensures AllSymbols(symbols, ws) == symbols + Extra(symbols, ws)
    ensures Distinct(Extra(symbols, ws))
    ensures forall x :: x in Extra(symbols, ws) <==> x !in symbols && exists w :: w in ws && w.symbol == x
  {
    if |ws| != 0 {
      var front, last := ws[..|ws| - 1], ws[|ws| - 1];
      AllIsGivenAndExtra(symbols, front);
      assert forall w :: w in ws <==> w in front || w == last;
    }
  }

  /** Enough room: the given list alone fills the limit and holds all watched symbols, or everything fits. */
  ghost predicate Fits(symbols: seq<string>, limit: nat, ws: seq<ReadyWatch>) {
    if |symbols| >= limit then forall w :: w in ws ==> w.symbol in symbols[..limit]
    else |AllSymbols(symbols, ws)| <= limit
  }

  /** With room for all of them, truncation drops no watched symbol. */
  lemma FitsMeansMonitored(cfg: AlertConfig, ws: seq<ReadyWatch>, w: ReadyWatch)
    requires Fits(cfg.monitoredSymbols, cfg.maxMonitoredSymbols, ws) && w in ws
    ensures w.symbol in Monitored(cfg, ws)
  {
    var symbols := cfg.monitoredSymbols;
    AllIsGivenAndExtra(symbols, ws);
    if |symbols| >= cfg.maxMonitoredSymbols {
      assert Monitored(cfg, ws) == symbols[..cfg.maxMonitoredSymbols];
    } else {
      assert w.symbol in symbols || w.symbol in Extra(symbols, ws);
    }
  }

  /** Watches with no more symbols need no more room. */
  lemma FitsShrinks(symbols: seq<string>, limit: nat, ws: seq<ReadyWatch>, ws': seq<ReadyWatch>)
    requires Fits(symbols, limit, ws)
    requires forall w' :: w' in ws' ==> exists w :: w in ws && w.symbol == w'.symbol
    ensures Fits(symbols, limit, ws')
  {
    AllIsGivenAndExtra(symbols, ws);
    AllIsGivenAndExtra(symbols, ws');
    DistinctIsShorter(Extra(symbols, ws'), Extra(symbols, ws));
  }

  /** A watch that is admitted fits. */
  lemma FitsGrows(cfg: AlertConfig, ws: seq<ReadyWatch>, w: ReadyWatch)
    requires Fits(cfg.monitoredSymbols, cfg.maxMonitoredSymbols, ws)
    requires w.symbol in Monitored(cfg, ws) || |Monitored(cfg, ws)| < cfg.maxMonitoredSymbols
    ensures Fits(cfg.monitoredSymbols, cfg.maxMonitoredSymbols, ws + [w])
  {
    var symbols, limit := cfg.monitoredSymbols, cfg.maxMonitoredSymbols;
    assert (ws + [w])[..|ws|] == ws;
    AllIsGivenAndExtra(symbols, ws);
    if |symbols| >= limit {
      assert Monitored(cfg, ws) == symbols[..limit];
    }
  }

  /** A call of `add_watch` that fails changes nothing. */
  lemma FailedAddChangesNothing(
      cfg: AlertConfig, ws: seq<ReadyWatch>, instrument: Option<string>, direction: Option<Direction>, id: string,
      now: int)
    requires AddWatchReply(cfg, ws, instrument, direction, id, now).Failure?
    ensures WatchesAfter(cfg, ws, AddWatch(instrument, direction, id, now)) == ws
  {
  }

  lemma FitsStep(cfg: AlertConfig, events: seq<Event>, n: nat, ws: seq<ReadyWatch>)
    requires n < |events| && FreshIds(events) && WellIdentified(events, n, ws)
    requires Fits(cfg.monitoredSymbols, cfg.maxMonitoredSymbols, ws)
    ensures Fits(cfg.monitoredSymbols, cfg.maxMonitoredSymbols, WatchesAfter(cfg, ws, events[n]))
  {
    var e := events[n];
    if e.AddWatch? {
      CreatedIsAppended(cfg, events, n, ws);
      if Creates(cfg, ws, e.instrument, e.direction) {
        FitsGrows(cfg, ws, NewWatch(e.id, e.instrument.value, e.direction, e.now));
      }
    } else {
      var ws' := WatchesAfter(cfg, ws, e);
      forall w' | w' in ws' ensures exists w :: w in ws && w.symbol == w'.symbol {
        WatchesComeFrom(cfg, ws, e, w');
        var w :| w in ws && w' == Evolved(w, e);
        EvolvedKeeps(w, e);
      }
      FitsShrinks(cfg.monitoredSymbols, cfg.maxMonitoredSymbols, ws, ws');
    }
  }

  lemma {:induction false} AlwaysFits(cfg: AlertConfig, run: ServiceRun, n: nat)
    requires IsServiceRun(cfg, run) && n <= |run.events|
    ensures Fits(cfg.monitoredSymbols, cfg.maxMonitoredSymbols, run.states[n].watches)
  {
    if n > 0 {
      AlwaysFits(cfg, run, n - 1);
      AlwaysIdentified(cfg, run, n - 1);
      WatchesFollow(cfg, run, n - 1);
      FitsStep(cfg, run.events, n - 1, run.states[n - 1].watches);
    }
  }

  /**
   * In every reachable state every watched symbol is monitored: the truncation to the limit never drops one, even
   * when the configured list alone exceeds the limit.
   */
  lemma WatchedSymbolsAreMonitored(cfg: AlertConfig, run: ServiceRun, n: nat, w: ReadyWatch)
    requires IsServiceRun(cfg, run) && n <= |run.events| && w in run.states[n].watches
    ensures w.symbol in Monitored(cfg, run.states[n].watches)
  {
    AlwaysFits(cfg, run, n);
    FitsMeansMonitored(cfg, run.states[n].watches, w);
  }

  // ---------------------------------------------------------------- asking for a watch again

  lemma {:induction false} OnlyOpenWatch(ws: seq<ReadyWatch>, w: ReadyWatch)
    requires NoTwins(ws) && w in ws && w.state != FIRED
    ensures OpenWatch(ws, w.symbol, w.direction) == Some(w)
  {
    var v := OpenWatch(ws, w.symbol, w.direction).value;
    var i :| 0 <= i < |ws| && ws[i] == w;
    var j :| 0 <= j < |ws| && ws[j] == v;
    assert i == j || i < j || j < i;
  }

  /**
   * In every reachable state, asking for a watch that is open is answered with that watch if and only if the limit is
   * not reached: the limit is checked before the open watch is looked up. Either way nothing changes.
   */
  lemma {:induction false} AddIsIdempotentIffBelowLimit(
      cfg: AlertConfig, run: ServiceRun, n: nat, w: ReadyWatch, id: string, now: int)
    requires IsServiceRun(cfg, run) && n <= |run.events| && w in run.states[n].watches && w.state != FIRED
    ensures var ws := run.states[n].watches;
            var reply := AddWatchReply(cfg, ws, Some(w.symbol), w.direction, id, now);
            && (reply == Success(w) <==> |ws| < cfg.maxReadyWatches)
            && (reply != Success(w) ==> reply == Failure(WATCH_LIMIT))
            && WatchesAfter(cfg, ws, AddWatch(Some(w.symbol), w.direction, id, now)) == ws
  {
    WatchesStayLimited(cfg, run, n);
    WatchedSymbolsAreMonitored(cfg, run, n, w);
    OnlyOpenWatch(run.states[n].watches, w);
  }

  /** A watch that `add_watch` grants is open in the state after the call. */
  lemma {:induction false} GrantedIsOpen(cfg: AlertConfig, run: ServiceRun, n: nat, w: ReadyWatch)
    requires IsServiceRun(cfg, run) && n < |run.events| && run.events[n].AddWatch?
    requires var e := run.events[n];
             AddWatchReply(cfg, run.states[n].watches, e.instrument, e.direction, e.id, e.now) == Success(w)
    ensures w in run.states[n + 1].watches && w.state != FIRED
    ensures Some(w.symbol) == run.events[n].instrument && w.direction == run.events[n].direction
    ensures var e := run.events[n];
            w in run.states[n].watches
            || w == ReadyWatch(e.id, w.symbol, e.direction, WAITING, [], AwaitsCycle, e.now, None, None)
  {
    AlwaysIdentified(cfg, run, n);
    WatchesFollow(cfg, run, n);
    CreatedIsAppended(cfg, run.events, n, run.states[n].watches);
  }

  /** Only watches of gold for long, all fired, drawn under the first numbers. */
  ghost predicate AllFired(cfg: AlertConfig, run: ServiceRun, k: nat) {
    && IsServiceRun(cfg, run) && IdsBelow(run.events, k)
    && var ws := run.states[|run.events|].watches;
       |ws| == k && forall i :: 0 <= i < k ==> ws[i].state == FIRED && ws[i].symbol == "XAUUSD"
  }

  lemma {:induction false} NextIsNotDrawn(cfg: AlertConfig, run: ServiceRun, k: nat)
    requires AllFired(cfg, run, k)
    ensures NotDrawn(run.events, Decimal(k)) && forall w :: w in run.states[|run.events|].watches ==> w.id != Decimal(k)
  {
    forall j: nat | j < k ensures Decimal(j) != Decimal(k) {
      if Decimal(j) == Decimal(k) {
        DecimalInjective(j, k);
      }
    }
    AlwaysIdentified(cfg, run, |run.events|);
    forall w | w in run.states[|run.events|].watches ensures w.id != Decimal(k) {
      var i :| 0 <= i < |run.events| && run.events[i].AddWatch? && run.events[i].id == w.id;
    }
  }

  lemma GoldIsMonitored(cfg: AlertConfig, ws: seq<ReadyWatch>)
    requires cfg.monitoredSymbols == ["XAUUSD"] && cfg.maxMonitoredSymbols > 0
    ensures "XAUUSD" in Monitored(cfg, ws)
  {
    AllIsGivenAndExtra(cfg.monitoredSymbols, ws);
    assert Monitored(cfg, ws)[0] == "XAUUSD";
  }

  lemma {:induction false} NoneOpen(ws: seq<ReadyWatch>, symbol: string, direction: Option<Direction>)
    requires forall i :: 0 <= i < |ws| ==> ws[i].state == FIRED
    ensures OpenWatch(ws, symbol, direction).None?
  {
  }

  /** One more watch of gold for long. */
  lemma {:induction false} AddOneMore(cfg: AlertConfig, run: ServiceRun, k: nat) returns (run': ServiceRun)
    requires AllFired(cfg, run, k) && k < cfg.maxReadyWatches
    requires cfg.monitoredSymbols == ["XAUUSD"] && cfg.maxMonitoredSymbols > 0
    ensures IsServiceRun(cfg, run')
    ensures run'.events == run.events + [AddWatch(Some("XAUUSD"), Some(BULLISH), Decimal(k), 0)]
    ensures run'.states[|run'.events|].watches
            == run.states[|run.events|].watches + [NewWatch(Decimal(k), "XAUUSD", Some(BULLISH), 0)]
  {
    var ws, e := run.states[|run.events|].watches, AddWatch(Some("XAUUSD"), Some(BULLISH), Decimal(k), 0);
    NextIsNotDrawn(cfg, run, k);
    GoldIsMonitored(cfg, ws);
    NoneOpen(ws, "XAUUSD", Some(BULLISH));
    PutAppends(ws, NewWatch(Decimal(k), "XAUUSD", Some(BULLISH), 0));
    run' := ExtendRun(cfg, run, e);
  }

  lemma {:induction false} FireOneMore(cfg: AlertConfig, run: ServiceRun, k: nat) returns (run': ServiceRun)
    requires AllFired(cfg, run, k) && k < cfg.maxReadyWatches
    requires cfg.monitoredSymbols == ["XAUUSD"] && cfg.maxMonitoredSymbols > 0
    ensures AllFired(cfg, run', k + 1)
  {
    var added := AddOneMore(cfg, run, k);
    run' := EvaluateLong(cfg, added);
    AllFire(added.states[|added.events|].watches, ReversalSnapshot(0));
    DrawnBelow(run.events, run'.events, k);
  }

  lemma {:induction false} EvaluateLong(cfg: AlertConfig, run: ServiceRun) returns (run': ServiceRun)
    requires IsServiceRun(cfg, run)
    ensures IsServiceRun(cfg, run') && run'.events == run.events + [Evaluated(ReversalSnapshot(0), "FULL")]
    ensures run'.states[|run'.events|].watches
            == CheckedAll(run.states[|run.events|].watches, ReversalSnapshot(0), "FULL")
  {
    run' := ExtendRun(cfg, run, Evaluated(ReversalSnapshot(0), "FULL"));
    WatchesFollow(cfg, run', |run.events|);
  }

  /** Evaluated for long with full authority, every watch of gold that has not fired fires. */
  lemma AllFire(ws: seq<ReadyWatch>, s: Snapshot)
    requires s.symbol == "XAUUSD" && Fires(s, Some(BULLISH), "FULL")
    requires forall i :: 0 <= i < |ws| ==>
               ws[i].symbol == "XAUUSD" && (ws[i].state == FIRED || ws[i].direction == Some(BULLISH))
    ensures var ws' := CheckedAll(ws, s, "FULL");
            forall i :: 0 <= i < |ws'| ==> ws'[i].state == FIRED && ws'[i].symbol == "XAUUSD"
  {
  }

  ghost predicate IdsBelow(events: seq<Event>, k: nat) {
    forall i :: 0 <= i < |events| && events[i].AddWatch? ==> exists j: nat :: j < k && events[i].id == Decimal(j)
  }

  lemma {:induction false} DrawnBelow(events: seq<Event>, events': seq<Event>, k: nat)
    requires IdsBelow(events, k) && |events'| == |events| + 2 && events'[..|events|] == events
    requires events'[|events|].AddWatch? && events'[|events|].id == Decimal(k) && !events'[|events| + 1].AddWatch?
    ensures IdsBelow(events', k + 1)
  {
    forall i | 0 <= i < |events'| && events'[i].AddWatch?
      ensures exists j: nat :: j < k + 1 && events'[i].id == Decimal(j)
    {
      if i < |events| {
        assert events'[i] == events[i];
        var j: nat :| j < k && events[i].id == Decimal(j);
      }
    }
  }

  /**
   * With gold monitored, as shipped, and any limit of at least one, a run of the service reaches a state with an open
   * watch that a second call for the same symbol and direction does not get: watches that have fired fill the limit.
   */
  lemma {:induction false} RepeatedAddCanFail(cfg: AlertConfig) returns (run: ServiceRun, w: ReadyWatch)
    requires cfg.monitoredSymbols == ["XAUUSD"] && cfg.maxMonitoredSymbols > 0 && cfg.maxReadyWatches > 0
    ensures IsServiceRun(cfg, run) && w in run.states[|run.events|].watches && w.state != FIRED
    ensures forall id: string, now: int ::
              AddWatchReply(cfg, run.states[|run.events|].watches, Some(w.symbol), w.direction, id, now)
              == Failure(WATCH_LIMIT)
  {
    var before := FIRST_SERVICE_RUN;
    for k := 0 to cfg.maxReadyWatches - 1
      invariant AllFired(cfg, before, k)
    {
      before := FireOneMore(cfg, before, k);
    }
    run := AddOneMore(cfg, before, cfg.maxReadyWatches - 1);
    w := NewWatch(Decimal(cfg.maxReadyWatches - 1), "XAUUSD", Some(BULLISH), 0);
  }
}
