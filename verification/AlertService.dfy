/** The alert monitor's state and its atomic steps: watches added and removed, symbols evaluated, failures. */
module AlertService {
  import opened Wrappers
  import opened Domain
  import opened Seqs
  import opened AlertModels
  import opened AlertStore
  import opened AlertRules
  import opened ReadyChecklist

  datatype Required = AwaitsCycle | NothingRequired | Missing(name: ConditionName)

  datatype ReadyWatch = ReadyWatch(
    id: string, symbol: string, direction: Option<Direction>, state: WatchState, conditions: seq<Condition>,
    required: Required, createdAt: int, lastCheckedAt: Option<int>, firedAt: Option<int>)

  datatype AddError = UNKNOWN_SYMBOL | WATCH_LIMIT | SYMBOL_LIMIT

  // ---------------------------------------------------------------- monitored symbols

  /** The given symbols, then the watched ones that are not among them yet. */
  function AllSymbols(symbols: seq<string>, watches: seq<ReadyWatch>): seq<string> {
    if |watches| == 0 then symbols
    else
      var out, symbol := AllSymbols(symbols, watches[..|watches| - 1]), watches[|watches| - 1].symbol;
      if symbol in out then out else out + [symbol]
  }

  function Monitored(cfg: AlertConfig, watches: seq<ReadyWatch>): seq<string> {
    FirstN(AllSymbols(cfg.monitoredSymbols, watches), cfg.maxMonitoredSymbols)
  }

  // ---------------------------------------------------------------- the dictionary of watches

  /** Position of the watch with an id, behind all watches when there is none. */
  function IndexOf(watches: seq<ReadyWatch>, id: string): (k: nat)
    ensures k <= |watches| && (k < |watches| ==> watches[k].id == id)
    ensures forall i :: 0 <= i < k ==> watches[i].id != id
  {
    if |watches| == 0 then 0
    else
      var k := IndexOf(watches[..|watches| - 1], id);
      if k < |watches| - 1 || watches[k].id == id then k else |watches|
  }

  /** Assignment to a dictionary that remembers the order of insertion. */
  function Put(watches: seq<ReadyWatch>, w: ReadyWatch): seq<ReadyWatch> {
    var k := IndexOf(watches, w.id);
    if k < |watches| then watches[k := w] else watches + [w]
  }

  function Remove(watches: seq<ReadyWatch>, id: string): seq<ReadyWatch> {
    var k := IndexOf(watches, id);
    if k < |watches| then Without(watches, k) else watches
  }

  predicate IsOpenFor(w: ReadyWatch, symbol: string, direction: Option<Direction>) {
    w.symbol == symbol && w.direction == direction && w.state != FIRED
  }

  /** The first watch of a symbol and direction that has not fired. */
  function OpenWatch(watches: seq<ReadyWatch>, symbol: string, direction: Option<Direction>): (r: Option<ReadyWatch>)
    ensures r.Some? ==> r.value in watches && IsOpenFor(r.value, symbol, direction)
    ensures r.None? ==> forall w :: w in watches ==> !IsOpenFor(w, symbol, direction)
  {
    if |watches| == 0 then None
    else
      var before, last := OpenWatch(watches[..|watches| - 1], symbol, direction), watches[|watches| - 1];
      if before.Some? then before
      else if IsOpenFor(last, symbol, direction) then Some(last)
      else None
  }

  function NewWatch(id: string, symbol: string, direction: Option<Direction>, now: int): ReadyWatch {
    ReadyWatch(id, symbol, direction, WAITING, [], AwaitsCycle, now, None, None)
  }

  /** The instrument is the result of looking up the requested symbol; the id is the one drawn for a new watch. */
  function AddWatchReply(
    cfg: AlertConfig, watches: seq<ReadyWatch>, instrument: Option<string>, direction: Option<Direction>, id: string,
    now: int): Result<ReadyWatch, AddError>
  {
    if instrument.None? then Failure(UNKNOWN_SYMBOL)
    else if |watches| >= cfg.maxReadyWatches then Failure(WATCH_LIMIT)
    else
      var symbols, symbol := Monitored(cfg, watches), instrument.value;
      if symbol !in symbols && |symbols| >= cfg.maxMonitoredSymbols then Failure(SYMBOL_LIMIT)
      else
        match OpenWatch(watches, symbol, direction)
        case Some(w) => Success(w)
        case None => Success(NewWatch(id, symbol, direction, now))
  }

  /** Whether the call creates a watch. */
  predicate Creates(
    cfg: AlertConfig, watches: seq<ReadyWatch>, instrument: Option<string>, direction: Option<Direction>)
  {
    && instrument.Some? && |watches| < cfg.maxReadyWatches
    && (instrument.value in Monitored(cfg, watches) || |Monitored(cfg, watches)| < cfg.maxMonitoredSymbols)
    && OpenWatch(watches, instrument.value, direction).None?
  }

  // ---------------------------------------------------------------- evaluation of one symbol

  function ChecklistOf(s: Snapshot, direction: Option<Direction>, authority: string): (c: seq<Condition>)
    ensures IsChecklist(s, direction, authority, c)
  {
    Map(ConditionAt(s, direction, authority), NAMES)
  }

  function ConditionAt(s: Snapshot, direction: Option<Direction>, authority: string): ConditionName -> Condition {
    (name: ConditionName) => Condition(name, StatusOf(s, direction, authority, name))
  }

  function RequiredOf(conditions: seq<Condition>): Required {
    match NextRequired(conditions) case None => NothingRequired case Some(name) => Missing(name)
  }

  /** The watch fires in this cycle. */
  predicate FiresNow(w: ReadyWatch, s: Snapshot, authority: string) {
    w.symbol == s.symbol && w.state != FIRED && Fires(s, w.direction, authority)
  }

  /** A cycle updates every watch of its symbol that has not fired yet. */
  ghost function Checked(w: ReadyWatch, s: Snapshot, authority: string): ReadyWatch {
    if w.symbol != s.symbol || w.state == FIRED then w
    else
      var conditions := ChecklistOf(s, w.direction, authority);
      ReadyWatch(
        w.id, w.symbol, w.direction, StateOf(s, w.direction, authority), conditions, RequiredOf(conditions),
        w.createdAt, Some(s.now), if Fires(s, w.direction, authority) then Some(s.now) else w.firedAt)
  }

  ghost function CheckedAll(watches: seq<ReadyWatch>, s: Snapshot, authority: string): (r: seq<ReadyWatch>)
    ensures |r| == |watches| && forall i :: 0 <= i < |watches| ==> r[i] == Checked(watches[i], s, authority)
  {
    seq(|watches|, i requires 0 <= i < |watches| => Checked(watches[i], s, authority))
  }

  function ReadyCandidate(w: ReadyWatch, s: Snapshot): AlertCandidate {
    AlertCandidate(READY, s.symbol, w.id, s.now, None, w.direction)
  }

  function ReadyOf(s: Snapshot, authority: string): ReadyWatch -> seq<AlertCandidate> {
    (w: ReadyWatch) => if FiresNow(w, s, authority) then [ReadyCandidate(w, s)] else []
  }

  /** Inputs handled one after the other by a machine that may reply: the last state and the replies. */
  function Fold<S, C, A>(step: (S, C) -> (S, Option<A>), st: S, cs: seq<C>): (S, seq<A>) {
    if |cs| == 0 then (st, [])
    else
      var (before, replies) := Fold(step, st, cs[..|cs| - 1]);
      var (after, reply) := step(before, cs[|cs| - 1]);
      (after, if reply.Some? then replies + [reply.value] else replies)
  }

  lemma {:induction false} FoldAppend<S, C, A>(
      step: (S, C) -> (S, Option<A>), st: S, a: seq<C>, b: seq<C>)
    ensures Fold(step, st, a + b)
            == (Fold(step, Fold(step, st, a).0, b).0, Fold(step, st, a).1 + Fold(step, Fold(step, st, a).0, b).1)
    decreases |b|
  {
    var mid := Fold(step, st, a);
    if |b| == 0 {
      assert a + b == a;
      FoldNothing(step, mid.0, b);
      assert mid.1 + [] == mid.1;
    } else {
      var front, last := b[..|b| - 1], b[|b| - 1];
      FoldAppend(step, st, a, front);
      FoldSnoc(step, st, a + front, last);
      FoldSnoc(step, mid.0, front, last);
      FrontLast(b);
      assert a + b == (a + front) + [last];
      AppendReply(mid.1, Fold(step, mid.0, front).1, step(Fold(step, mid.0, front).0, last).1);
    }
  }

  lemma AppendReply<A>(a: seq<A>, b: seq<A>, reply: Option<A>)
    ensures reply.Some? ==> a + (b + [reply.value]) == a + b + [reply.value]
  {
  }

  lemma {:induction false} FoldNothing<S, C, A>(step: (S, C) -> (S, Option<A>), st: S, cs: seq<C>)
    requires |cs| == 0
    ensures Fold(step, st, cs) == (st, [])
  {
  }

  lemma {:induction false} FoldSnoc<S, C, A>(step: (S, C) -> (S, Option<A>), st: S, cs: seq<C>, c: C)
    ensures var before := Fold(step, st, cs);
            var after := step(before.0, c);
            Fold(step, st, cs + [c])
            == (after.0, if after.1.Some? then before.1 + [after.1.value] else before.1)
  {
    assert (cs + [c])[..|cs|] == cs;
  }

  lemma FoldStep<S, C, A>(step: (S, C) -> (S, Option<A>), st: S, cs: seq<C>, i: nat)
    requires i < |cs|
    ensures var (before, replies) := Fold(step, st, cs[..i]);
            var (after, reply) := step(before, cs[i]);
            Fold(step, st, cs[..i + 1]) == (after, if reply.Some? then replies + [reply.value] else replies)
  {
    FoldSnoc(step, st, cs[..i], cs[i]);
    assert cs[..i + 1] == cs[..i] + [cs[i]];
  }

  function Adding(cfg: AlertConfig, now: int): (StoreState, AlertCandidate) -> (StoreState, Option<Alert>) {
    (st: StoreState, c: AlertCandidate) => AddStep(cfg, st, DedupeKey(c), c, now)
  }

  /** Candidates added to the store one after the other: the new state and the alerts raised. */
  function AddAll(cfg: AlertConfig, st: StoreState, cs: seq<AlertCandidate>, now: int): (StoreState, seq<Alert>) {
    Fold(Adding(cfg, now), st, cs)
  }

  function FailureCandidate(symbol: string, now: int): AlertCandidate {
    AlertCandidate(MONITOR_FAILURE, symbol, "monitor", now, None, None)
  }

  // ---------------------------------------------------------------- the state machine

  datatype ServiceState = ServiceState(
    store: StoreState, memory: map<string, Memory>, watches: seq<ReadyWatch>)

  const EMPTY_SERVICE := ServiceState(EMPTY_STORE, map[], [])

  /** Each event runs without interruption: the program gives up control only while it waits for data. */
  datatype Event =
    | AddWatch(instrument: Option<string>, direction: Option<Direction>, id: string, now: int)
    | RemoveWatch(id: string)
    | Evaluated(s: Snapshot, authority: string)
    | Failed(symbol: string, now: int)

  function RecalledMemory(memory: map<string, Memory>, symbol: string): Option<Memory> {
    if symbol in memory then Some(memory[symbol]) else None
  }

  function CandidatesOf(cfg: AlertConfig, st: ServiceState, e: Event): seq<AlertCandidate>
    requires e.Evaluated? ==> Coherent(e.s)
  {
    match e
    case Evaluated(s, authority) =>
      Alerts(s, RecalledMemory(st.memory, s.symbol), cfg) + FlatMap(ReadyOf(s, authority), st.watches)
    case Failed(symbol, now) => [FailureCandidate(symbol, now)]
    case AddWatch(_, _, _, _) => []
    case RemoveWatch(_) => []
  }

  function TimeOf(e: Event): int {
    match e
    case AddWatch(_, _, _, now) => now
    case RemoveWatch(_) => 0
    case Evaluated(s, _) => s.now
    case Failed(_, now) => now
  }

  function MemoryAfter(cfg: AlertConfig, memory: map<string, Memory>, e: Event): map<string, Memory> {
    if e.Evaluated? then memory[e.s.symbol := NextMemory(e.s, RecalledMemory(memory, e.s.symbol), cfg)] else memory
  }

  ghost function WatchesAfter(cfg: AlertConfig, watches: seq<ReadyWatch>, e: Event): seq<ReadyWatch> {
    match e
    case AddWatch(instrument, direction, id, now) =>
      if Creates(cfg, watches, instrument, direction)
      then Put(watches, NewWatch(id, instrument.value, direction, now)) else watches
    case RemoveWatch(id) => Remove(watches, id)
    case Evaluated(s, authority) => CheckedAll(watches, s, authority)
    case Failed(_, _) => watches
  }

  /** One event: the new state and the alerts raised. */
  ghost function Step(cfg: AlertConfig, st: ServiceState, e: Event): (ServiceState, seq<Alert>)
    requires e.Evaluated? ==> Coherent(e.s)
  {
    var (store, raised) := AddAll(cfg, st.store, CandidatesOf(cfg, st, e), TimeOf(e));
    (ServiceState(store, MemoryAfter(cfg, st.memory, e), WatchesAfter(cfg, st.watches, e)), raised)
  }

  // ---------------------------------------------------------------- the service

  class AlertService {
    const cfg: AlertConfig
    const store: AlertStore
    var memory: map<string, Memory>
    var watches: seq<ReadyWatch>

    ghost predicate Valid() {
      store.cfg == cfg
    }

    ghost function State(): ServiceState
      reads this, store
    {
      ServiceState(store.State(), memory, watches)
    }

    constructor (cfg: AlertConfig)
      ensures Valid() && this.cfg == cfg && fresh(store) && State() == EMPTY_SERVICE
    {
      this.cfg := cfg;
      store := new AlertStore(cfg);
      memory, watches := map[], [];
    }

    method MonitoredSymbols() returns (out: seq<string>)
      ensures out == Monitored(cfg, watches)
    {
      out := cfg.monitoredSymbols;
      for i := 0 to |watches|
        invariant out == AllSymbols(cfg.monitoredSymbols, watches[..i])
      {
        assert watches[..i + 1][..i] == watches[..i];
        if watches[i].symbol !in out {
          out := out + [watches[i].symbol];
        }
      }
      assert watches[..|watches|] == watches;
      out := FirstN(out, cfg.maxMonitoredSymbols);
    }

    method Add(instrument: Option<string>, direction: Option<Direction>, id: string, now: int)
      returns (r: Result<ReadyWatch, AddError>)
      requires Valid()
      modifies this`watches
      ensures r == AddWatchReply(cfg, old(watches), instrument, direction, id, now)
      ensures State() == Step(cfg, old(State()), AddWatch(instrument, direction, id, now)).0
    {
      if instrument.None? {
        return Failure(UNKNOWN_SYMBOL);
      }
      if |watches| >= cfg.maxReadyWatches {
        return Failure(WATCH_LIMIT);
      }
      var symbols := MonitoredSymbols();
      if instrument.value !in symbols && |symbols| >= cfg.maxMonitoredSymbols {
        return Failure(SYMBOL_LIMIT);
      }
      var same := FindOpen(instrument.value, direction);
      if same.Some? {
        return Success(same.value);
      }
      var w := NewWatch(id, instrument.value, direction, now);
      watches := Put(watches, w);
      r := Success(w);
    }

    method FindOpen(symbol: string, direction: Option<Direction>) returns (r: Option<ReadyWatch>)
      ensures r == OpenWatch(watches, symbol, direction)
    {
      r := None;
      for i := 0 to |watches|
        invariant r.None? && OpenWatch(watches[..i], symbol, direction).None?
      {
        assert watches[..i + 1][..i] == watches[..i];
        if IsOpenFor(watches[i], symbol, direction) {
          r := Some(watches[i]);
          OpenWatchFound(watches, symbol, direction, i);
          return;
        }
      }
      assert watches[..|watches|] == watches;
    }

    method RemoveById(id: string) returns (found: bool)
      requires Valid()
      modifies this`watches
      ensures found <==> exists i :: 0 <= i < |old(watches)| && old(watches)[i].id == id
      ensures State() == Step(cfg, old(State()), RemoveWatch(id)).0
    {
      found := IndexOf(watches, id) < |watches|;
      watches := Remove(watches, id);
    }

    /** Adds candidates to the store in order. */
    method AddEach(cs: seq<AlertCandidate>, now: int) returns (raised: seq<Alert>)
      requires Valid()
      modifies store
      ensures (store.State(), raised) == AddAll(cfg, old(store.State()), cs, now)
    {
      raised := [];
      for i := 0 to |cs|
        invariant (store.State(), raised) == AddAll(cfg, old(store.State()), cs[..i], now)
      {
        FoldStep(Adding(cfg, now), old(store.State()), cs, i);
        var alert := store.Add(cs[i], now);
        if alert.Some? {
          raised := raised + [alert.value];
        }
      }
      assert cs[..|cs|] == cs;
    }

    /** What one evaluation of a symbol does once decision, evaluation and setup run are there. */
    method Evaluate(s: Snapshot, authority: string) returns (raised: seq<Alert>)
      requires Valid() && Coherent(s)
      modifies this, store
      ensures (State(), raised) == Step(cfg, old(State()), Evaluated(s, authority))
    {
      ghost var before := State();
      var candidates, remembered := Derive(s, RecalledMemory(memory, s.symbol), cfg);
      memory := memory[s.symbol := remembered];
      raised := AddEach(candidates, s.now);
      var ready := CheckWatches(s, authority);
      FoldAppend(Adding(cfg, s.now), before.store, candidates, FlatMap(ReadyOf(s, authority), before.watches));
      raised := raised + ready;
    }

    /** The loop over the watches of the symbol. Watches that have fired are left alone. */
    method CheckWatches(s: Snapshot, authority: string) returns (raised: seq<Alert>)
      requires Valid()
      modifies this`watches, store
      ensures watches == CheckedAll(old(watches), s, authority)
      ensures (store.State(), raised)
              == AddAll(cfg, old(store.State()), FlatMap(ReadyOf(s, authority), old(watches)), s.now)
    {
      ghost var all, start := watches, store.State();
      raised := [];
      for i := 0 to |watches|
        invariant |watches| == |all| && watches == CheckedAll(all[..i], s, authority) + all[i..]
        invariant (store.State(), raised) == AddAll(cfg, start, FlatMap(ReadyOf(s, authority), all[..i]), s.now)
      {
        ReadyStep(cfg, start, all, s, authority, i);
        CheckedStep(all, s, authority, i);
        var updated, ready := CheckOne(watches[i], s, authority);
        raised := raised + ready;
        watches := watches[i := updated];
      }
      assert all[..|all|] == all;
    }

    method CheckOne(w: ReadyWatch, s: Snapshot, authority: string) returns (updated: ReadyWatch, raised: seq<Alert>)
      requires Valid()
      modifies store
      ensures updated == Checked(w, s, authority)
      ensures (store.State(), raised) == AddAll(cfg, old(store.State()), ReadyOf(s, authority)(w), s.now)
    {
      if w.symbol != s.symbol || w.state == FIRED {
        return w, [];
      }
      var state, conditions, fire := Checklist(s, w.direction, authority);
      assert conditions == ChecklistOf(s, w.direction, authority);
      updated := w.(
        state := state, conditions := conditions, required := RequiredOf(conditions), lastCheckedAt := Some(s.now));
      raised := [];
      if fire {
        updated := updated.(firedAt := Some(s.now));
        raised := AddEach([ReadyCandidate(w, s)], s.now);
      }
    }

    /** A symbol that could not be evaluated raises one failure alert, with its cooldown. */
    method Fail(symbol: string, now: int) returns (raised: seq<Alert>)
      requires Valid()
      modifies store
      ensures (State(), raised) == Step(cfg, old(State()), Failed(symbol, now))
    {
      raised := AddEach([FailureCandidate(symbol, now)], now);
    }
  }

  lemma {:induction false} OpenWatchFound(
      watches: seq<ReadyWatch>, symbol: string, direction: Option<Direction>, i: nat)
    requires i < |watches| && OpenWatch(watches[..i], symbol, direction).None?
    requires IsOpenFor(watches[i], symbol, direction)
    ensures OpenWatch(watches, symbol, direction) == Some(watches[i])
    decreases |watches|
  {
    if i < |watches| - 1 {
      var front := watches[..|watches| - 1];
      assert front[..i] == watches[..i];
      OpenWatchFound(front, symbol, direction, i);
    }
  }

  /** The READY candidates of one more watch, fed to the store after those of the watches before it. */
  lemma ReadyStep(
      cfg: AlertConfig, start: StoreState, watches: seq<ReadyWatch>, s: Snapshot, authority: string, i: nat)
    requires i < |watches|
    ensures var (st, raised) := AddAll(cfg, start, FlatMap(ReadyOf(s, authority), watches[..i]), s.now);
            var (st', ready) := AddAll(cfg, st, ReadyOf(s, authority)(watches[i]), s.now);
            AddAll(cfg, start, FlatMap(ReadyOf(s, authority), watches[..i + 1]), s.now) == (st', raised + ready)
  {
    FlatMapStep(ReadyOf(s, authority), watches, i);
    FoldAppend(
      Adding(cfg, s.now), start, FlatMap(ReadyOf(s, authority), watches[..i]), ReadyOf(s, authority)(watches[i]));
  }

  lemma CheckedStep(watches: seq<ReadyWatch>, s: Snapshot, authority: string, i: nat)
    requires i < |watches|
    ensures var was, now := CheckedAll(watches[..i], s, authority) + watches[i..],
              CheckedAll(watches[..i + 1], s, authority) + watches[i + 1..];
            was[i] == watches[i] && now == was[i := Checked(watches[i], s, authority)]
  {
  }
}
