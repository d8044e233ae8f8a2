/** The alert stream as a trace of the states behind it: countdowns, macro bias, data availability, risk locks. */
module StreamTraces {
  import opened Wrappers
  import opened Seqs
  import opened AlertModels
  import opened AlertRules
  import opened AlertRuns
  import opened AlertTraces

  // ---------------------------------------------------------------- news countdowns

  /** Only configured thresholds are remembered, and with a threshold every larger one of the same event. */
  ghost predicate UpwardClosed(keys: set<(string, int)>, minutes: seq<int>) {
    && (forall k :: k in keys ==> k.1 in minutes)
    && forall k, m :: k in keys && m in minutes && k.1 <= m ==> (k.0, m) in keys
  }

  lemma CrossedIsClosed(news: News, minutes: seq<int>)
    ensures UpwardClosed(Crossed(news, minutes), minutes)
  {
    var keys := Crossed(news, minutes);
    forall k, m | k in keys && m in minutes && k.1 <= m ensures (k.0, m) in keys {
      var i :| 0 <= i < |minutes| && minutes[i] == m;
    }
  }

  lemma UnionIsClosed(a: set<(string, int)>, b: set<(string, int)>, minutes: seq<int>)
    requires UpwardClosed(a, minutes) && UpwardClosed(b, minutes)
    ensures UpwardClosed(a + b, minutes)
  {
  }

  /** In every run the remembered thresholds of every event stay upward closed. */
  lemma {:induction false} CountdownsStayClosed(snaps: seq<Snapshot>, cfg: AlertConfig, n: nat)
    requires 0 < n <= |snaps|
    ensures UpwardClosed(MemoryAt(snaps, cfg, n).value.countdowns, cfg.countdownMinutes)
  {
    var s := snaps[n - 1];
    if s.News().Some? {
      CrossedIsClosed(s.News().value, cfg.countdownMinutes);
    }
    if n > 1 {
      CountdownsStayClosed(snaps, cfg, n - 1);
      ClosedStep(s, MemoryAt(snaps, cfg, n - 1).value, cfg);
    }
  }

  lemma ClosedStep(s: Snapshot, p: Memory, cfg: AlertConfig)
    requires UpwardClosed(p.countdowns, cfg.countdownMinutes)
    ensures UpwardClosed(NextMemory(s, Some(p), cfg).countdowns, cfg.countdownMinutes)
  {
    if s.News().Some? {
      CrossedIsClosed(s.News().value, cfg.countdownMinutes);
      UnionIsClosed(Crossed(s.News().value, cfg.countdownMinutes), p.countdowns, cfg.countdownMinutes);
    }
  }

  /** The least listed threshold among the keys of an event. */
  lemma {:induction false} LeastThresholdIsLeast(id: string, minutes: seq<int>, keys: set<(string, int)>)
    ensures var (m, found) := LeastThreshold(id, minutes, keys);
            && (found <==> exists x :: x in minutes && (id, x) in keys)
            && (found ==> m in minutes && (id, m) in keys && forall x :: x in minutes && (id, x) in keys ==> m <= x)
  {
    if |minutes| != 0 {
      var front, last := minutes[..|minutes| - 1], minutes[|minutes| - 1];
      LeastThresholdIsLeast(id, front, keys);
      assert forall x :: x in minutes <==> x in front || x == last;
    }
  }

  /** An announcement names a threshold that was not remembered, below all remembered ones, and is remembered. */
  lemma AnnouncementFacts(s: Snapshot, p: Memory, cfg: AlertConfig, id: string, m: int)
    requires UpwardClosed(p.countdowns, cfg.countdownMinutes) && Announced(s, p, cfg) == Some((id, m))
    ensures (id, m) in NextMemory(s, Some(p), cfg).countdowns && (id, m) !in p.countdowns
    ensures forall t :: (id, t) in p.countdowns ==> m < t
  {
    var keys := NewCountdowns(s, p, cfg);
    CrossedIsClosed(s.News().value, cfg.countdownMinutes);
    LeastThresholdIsLeast(id, cfg.countdownMinutes, keys);
    var k :| k in keys;
    assert k == (id, k.1);
  }

  /** News assessments are present at the steps from `i` to `j`. */
  ghost predicate NewsPresent(snaps: seq<Snapshot>, i: nat, j: nat) {
    forall k :: i <= k <= j && k < |snaps| ==> snaps[k].News().Some?
  }

  /** While news assessments are present, nothing announced is forgotten. */
  lemma {:induction false} CountdownsAccumulate(snaps: seq<Snapshot>, cfg: AlertConfig, i: nat, j: nat)
    requires 0 < i <= j <= |snaps| && NewsPresent(snaps, i, j)
    ensures MemoryAt(snaps, cfg, i).value.countdowns <= MemoryAt(snaps, cfg, j).value.countdowns
    decreases j
  {
    if i < j {
      CountdownsAccumulate(snaps, cfg, i, j - 1);
      assert snaps[j - 1].News().Some?;
    }
  }

  /**
   * The thresholds announced for one event strictly decrease over every stretch with news assessments, whatever
   * the minutes to the event do, so none is announced twice.
   */
  lemma {:induction false} CountdownsDecrease(
      snaps: seq<Snapshot>, cfg: AlertConfig, i: nat, j: nat, id: string, m: int, m': int)
    requires 0 < i < j < |snaps| && NewsPresent(snaps, i, j)
    requires Announced(snaps[i], MemoryAt(snaps, cfg, i).value, cfg) == Some((id, m))
    requires Announced(snaps[j], MemoryAt(snaps, cfg, j).value, cfg) == Some((id, m'))
    ensures m' < m
  {
    CountdownsStayClosed(snaps, cfg, i);
    CountdownsStayClosed(snaps, cfg, j);
    AnnouncementFacts(snaps[i], MemoryAt(snaps, cfg, i).value, cfg, id, m);
    CountdownsAccumulate(snaps, cfg, i + 1, j);
    AnnouncementFacts(snaps[j], MemoryAt(snaps, cfg, j).value, cfg, id, m');
  }

  /**
   * A cycle without a news assessment forgets every announced threshold: the next cycle announces again what the
   * cycle before the gap announced, when it shows the same news. A service that is wired with a news source never
   * produces such a gap.
   */
  lemma {:induction false} GapRepeatsCountdown(s: Snapshot, p: Memory, gap: Snapshot, cfg: AlertConfig)
    requires UpwardClosed(p.countdowns, cfg.countdownMinutes) && Announced(s, p, cfg).Some? && gap.News().None?
    ensures var after := NextMemory(gap, Some(NextMemory(s, Some(p), cfg)), cfg);
            Announced(s, after, cfg) == Announced(s, p, cfg)
  {
    var after := NextMemory(gap, Some(NextMemory(s, Some(p), cfg)), cfg);
    var id, minutes := s.News().value.nextEvent.value.id, cfg.countdownMinutes;
    var crossed, keys := Crossed(s.News().value, minutes), NewCountdowns(s, p, cfg);
    assert after.countdowns == {} && NewCountdowns(s, after, cfg) == crossed;
    CrossedIsClosed(s.News().value, minutes);
    LeastThresholdIsLeast(id, minutes, keys);
    LeastThresholdIsLeast(id, minutes, crossed);
    var k :| k in keys;
    assert k == (id, k.1) && k in crossed;
    var m := LeastThreshold(id, minutes, crossed).0;
    assert m <= k.1;
    assert (id, m) !in p.countdowns;
  }

  // ---------------------------------------------------------------- changes of a value

  /** A sequence without adjacent repeats. */
  function Collapse<T(==)>(xs: seq<T>): seq<T> {
    if |xs| == 0 then []
    else
      var c := Collapse(xs[..|xs| - 1]);
      if |c| > 0 && c[|c| - 1] == xs[|xs| - 1] then c else c + [xs[|xs| - 1]]
  }

  function Pairs<T>(xs: seq<T>): seq<(T, T)> {
    if |xs| < 2 then [] else Pairs(xs[..|xs| - 1]) + [(xs[|xs| - 2], xs[|xs| - 1])]
  }

  lemma {:induction false} CollapseFacts<T>(xs: seq<T>)
    ensures var c := Collapse(xs);
            && (|c| == 0 <==> |xs| == 0) && (|xs| > 0 ==> c[|c| - 1] == xs[|xs| - 1])
            && forall i :: 0 < i < |c| ==> c[i - 1] != c[i]
  {
    if |xs| != 0 {
      CollapseFacts(xs[..|xs| - 1]);
    }
  }

  /** One more element adds a pair exactly when it differs from the last one. */
  lemma {:induction false} CollapseSnoc<T>(xs: seq<T>, x: T)
    ensures var changes := |xs| > 0 && xs[|xs| - 1] != x;
            && Pairs(Collapse(xs + [x]))
               == (if changes then Pairs(Collapse(xs)) + [(xs[|xs| - 1], x)] else Pairs(Collapse(xs)))
            && Collapse(xs + [x]) == (if changes || |xs| == 0 then Collapse(xs) + [x] else Collapse(xs))
  {
    assert (xs + [x])[..|xs|] == xs;
    CollapseFacts(xs);
    PairsSnoc(Collapse(xs), x);
  }

  lemma {:induction false} PairsSnoc<T>(c: seq<T>, x: T)
    ensures Pairs(c + [x]) == if |c| > 0 then Pairs(c) + [(c[|c| - 1], x)] else []
  {
    assert (c + [x])[..|c|] == c;
  }

  // ---------------------------------------------------------------- macro bias

  /** The available biases of the first `n` snapshots, outages left out. */
  function Biases(snaps: seq<Snapshot>, n: nat): seq<MacroBias>
    requires n <= |snaps|
  {
    if n == 0 then []
    else if BiasOf(snaps[n - 1]).Some? then Biases(snaps, n - 1) + [BiasOf(snaps[n - 1]).value]
    else Biases(snaps, n - 1)
  }

  /** The shifts announced by the first `n` snapshots. */
  function Shifts(snaps: seq<Snapshot>, cfg: AlertConfig, n: nat): seq<(MacroBias, MacroBias)>
    requires n <= |snaps|
  {
    if n <= 1 then []
    else
      match MacroShift(snaps[n - 1], MemoryAt(snaps, cfg, n - 1).value)
      case Some(shift) => Shifts(snaps, cfg, n - 1) + [shift]
      case None => Shifts(snaps, cfg, n - 1)
  }

  lemma {:induction false} RememberedBias(snaps: seq<Snapshot>, cfg: AlertConfig, n: nat)
    requires 0 < n <= |snaps|
    ensures var bs := Biases(snaps, n);
            MemoryAt(snaps, cfg, n).value.macroBias == if |bs| == 0 then None else Some(bs[|bs| - 1])
  {
    if n > 1 {
      RememberedBias(snaps, cfg, n - 1);
    }
  }

  /** One cycle extends the trace of shifts as its bias extends the list of biases. */
  lemma ShiftStep(s: Snapshot, p: Memory, bs: seq<MacroBias>)
    requires p.macroBias == if |bs| == 0 then None else Some(bs[|bs| - 1])
    ensures Pairs(Collapse(if BiasOf(s).Some? then bs + [BiasOf(s).value] else bs))
            == match MacroShift(s, p)
               case Some(shift) => Pairs(Collapse(bs)) + [shift]
               case None => Pairs(Collapse(bs))
  {
    if BiasOf(s).Some? {
      CollapseSnoc(bs, BiasOf(s).value);
    }
  }

  /**
   * Over every run, the MACRO_SHIFT alerts are exactly the adjacent pairs of the available biases with outages
   * removed and repeats collapsed.
   */
  lemma {:induction false} ShiftsTraceBiases(snaps: seq<Snapshot>, cfg: AlertConfig, n: nat)
    requires n <= |snaps|
    ensures Shifts(snaps, cfg, n) == Pairs(Collapse(Biases(snaps, n)))
  {
    if n == 1 {
      assert Biases(snaps, 0) == [];
      if BiasOf(snaps[0]).Some? {
        CollapseSnoc([], BiasOf(snaps[0]).value);
      }
    } else if n > 1 {
      ShiftsTraceBiases(snaps, cfg, n - 1);
      RememberedBias(snaps, cfg, n - 1);
      ShiftStep(snaps[n - 1], MemoryAt(snaps, cfg, n - 1).value, Biases(snaps, n - 1));
    }
  }

  // ---------------------------------------------------------------- data availability

  /** Whether the verdict is UNAVAILABLE at each of the first `n` snapshots. */
  function Outages(snaps: seq<Snapshot>, n: nat): seq<bool>
    requires n <= |snaps|
  {
    if n == 0 then [] else Outages(snaps, n - 1) + [snaps[n - 1].verdict == UNAVAILABLE]
  }

  function DataChanges(snaps: seq<Snapshot>, cfg: AlertConfig, n: nat): seq<AlertType>
    requires n <= |snaps|
  {
    if n <= 1 then []
    else
      match DataChange(snaps[n - 1], MemoryAt(snaps, cfg, n - 1).value)
      case Some(t) => DataChanges(snaps, cfg, n - 1) + [t]
      case None => DataChanges(snaps, cfg, n - 1)
  }

  function DataType(outage: bool): AlertType {
    if outage then DATA_UNAVAILABLE else DATA_RESTORED
  }

  /** The types that announce the changes of a list that is not empty. */
  function DataTypes(outages: seq<bool>): seq<AlertType>
    requires |outages| > 0
  {
    CollapseFacts(outages);
    Map(DataType, Collapse(outages)[1..])
  }

  lemma DataTypesSnoc(before: seq<bool>, o: bool)
    requires |before| > 0
    ensures DataTypes(before + [o])
            == if before[|before| - 1] != o then DataTypes(before) + [DataType(o)] else DataTypes(before)
  {
    CollapseSnoc(before, o);
    CollapseFacts(before);
    TailSnoc(Collapse(before), o);
  }

  lemma TailSnoc(c: seq<bool>, o: bool)
    requires |c| > 0
    ensures Map(DataType, (c + [o])[1..]) == Map(DataType, c[1..]) + [DataType(o)]
  {
    assert (c + [o])[1..] == c[1..] + [o];
    MapSnoc(DataType, c[1..], o);
  }

  lemma DataStep(s: Snapshot, p: Memory, before: seq<bool>)
    requires |before| > 0 && before[|before| - 1] == (p.verdict == UNAVAILABLE)
    ensures DataTypes(before + [s.verdict == UNAVAILABLE])
            == match DataChange(s, p)
               case Some(t) => DataTypes(before) + [t]
               case None => DataTypes(before)
  {
    DataTypesSnoc(before, s.verdict == UNAVAILABLE);
  }

  /**
   * Over every run, DATA_UNAVAILABLE and DATA_RESTORED alerts announce exactly the changes of availability after
   * the baseline.
   */
  lemma {:induction false} DataAlertsTraceOutages(snaps: seq<Snapshot>, cfg: AlertConfig, n: nat)
    requires 0 < n <= |snaps|
    ensures |Outages(snaps, n)| == n && Outages(snaps, n)[n - 1] == (snaps[n - 1].verdict == UNAVAILABLE)
    ensures DataChanges(snaps, cfg, n) == DataTypes(Outages(snaps, n))
  {
    if n == 1 {
      assert Outages(snaps, 0) == [];
      CollapseSnoc([], snaps[0].verdict == UNAVAILABLE);
    } else {
      DataAlertsTraceOutages(snaps, cfg, n - 1);
      MemoryShowsPrevious(snaps, cfg, n - 1);
      DataStep(snaps[n - 1], MemoryAt(snaps, cfg, n - 1).value, Outages(snaps, n - 1));
    }
  }

  /** ... so they strictly alternate. */
  lemma {:induction false} DataAlertsAlternate(snaps: seq<Snapshot>, cfg: AlertConfig, n: nat)
    requires 0 < n <= |snaps|
    ensures var changes := DataChanges(snaps, cfg, n);
            forall i :: 0 < i < |changes| ==> changes[i - 1] != changes[i]
  {
    DataAlertsTraceOutages(snaps, cfg, n);
    CollapseFacts(Outages(snaps, n));
  }

  // ---------------------------------------------------------------- risk locks

  function Apply(locks: set<RiskLock>, c: LockChange): set<RiskLock> {
    if c.Locked? then locks + {c.lock} else locks - {c.lock}
  }

  /** The lock set after a list of announced changes. */
  function Replay(locks: set<RiskLock>, changes: seq<LockChange>): set<RiskLock> {
    if |changes| == 0 then locks else Apply(Replay(locks, changes[..|changes| - 1]), changes[|changes| - 1])
  }

  lemma {:induction false} ReplayAppend(locks: set<RiskLock>, a: seq<LockChange>, b: seq<LockChange>)
    ensures Replay(locks, a + b) == Replay(Replay(locks, a), b)
  {
    if |b| == 0 {
      assert a + b == a;
    } else {
      ReplayAppend(locks, a, b[..|b| - 1]);
      assert (a + b)[..|a + b| - 1] == a + b[..|b| - 1];
    }
  }

  lemma {:induction false} ReplayNewLocks(p: Memory, start: set<RiskLock>, locks: seq<RiskLock>)
    ensures Replay(start, FlatMap(NewLock(p), locks)) == start + (LockSet(locks) - p.riskLocks)
  {
    if |locks| != 0 {
      var front, last := locks[..|locks| - 1], locks[|locks| - 1];
      ReplayNewLocks(p, start, front);
      ReplayAppend(start, FlatMap(NewLock(p), front), NewLock(p)(last));
      assert LockSet(locks) == LockSet(front) + {last} by {
        assert forall i :: 0 <= i < |front| ==> front[i] == locks[i];
      }
      assert [Locked(last)][..0] == [];
    }
  }

  lemma {:induction false} ReplayGoneLocks(p: Memory, now: set<RiskLock>, start: set<RiskLock>, listed: seq<RiskLock>)
    ensures Replay(start, FlatMap(GoneLock(p, now), listed))
            == start - (set l | l in listed && l in p.riskLocks && l !in now)
  {
    if |listed| != 0 {
      var front, last := listed[..|listed| - 1], listed[|listed| - 1];
      ReplayGoneLocks(p, now, start, front);
      ReplayAppend(start, FlatMap(GoneLock(p, now), front), GoneLock(p, now)(last));
      assert [Cleared(last)][..0] == [];
      assert forall l :: l in listed <==> l in front || l == last;
    }
  }

  function LockIndex(l: RiskLock): nat {
    match l
    case ACCOUNT_STATE_STALE => 0
    case DAILY_LOSS_LIMIT => 1
    case WEEKLY_LOSS_LIMIT => 2
    case MAX_OPEN_RISK => 3
    case MAX_POSITIONS => 4
    case MAX_TRADES_PER_DAY => 5
    case CONSECUTIVE_LOSSES => 6
    case PROP_DAILY_DRAWDOWN => 7
    case PROP_TOTAL_DRAWDOWN => 8
    case VOLATILITY => 9
    case INVALID_STOP => 10
    case ADDING_TO_LOSER => 11
    case UNSAFE_SPREAD => 12
    case INSUFFICIENT_MARGIN => 13
    case BELOW_MIN_VOLUME => 14
  }

  lemma EveryLockIsListed(l: RiskLock)
    ensures l in LOCKS
  {
    assert LOCKS[LockIndex(l)] == l;
  }

  /** The lock changes that one cycle announces. */
  function AnnouncedLocks(s: Snapshot, p: Memory): seq<LockChange> {
    if s.Eligible() && s.Risk().Some? then LockChanges(s.Risk().value, p) else []
  }

  /** What a cycle that announces its changes does to any replayed lock set: it sets the locks that changed. */
  lemma {:induction false} AnnouncedLocksSet(s: Snapshot, p: Memory, start: set<RiskLock>)
    requires s.Eligible() && s.Risk().Some?
    ensures var now := LockSet(s.Risk().value.locks);
            Replay(start, AnnouncedLocks(s, p)) == start + (now - p.riskLocks) - (p.riskLocks - now)
  {
    var locks := s.Risk().value.locks;
    var now := LockSet(locks);
    ReplayNewLocks(p, start, locks);
    ReplayAppend(start, FlatMap(NewLock(p), locks), FlatMap(GoneLock(p, now), LOCKS));
    ReplayGoneLocks(p, now, start + (now - p.riskLocks), LOCKS);
    forall l: RiskLock ensures l in LOCKS {
      EveryLockIsListed(l);
    }
  }

  /** With eligible data and a risk assessment, replaying the announced changes gives the current locks. */
  lemma AnnouncedLocksReplay(s: Snapshot, p: Memory, cfg: AlertConfig)
    requires s.Eligible() && s.Risk().Some?
    ensures Replay(p.riskLocks, AnnouncedLocks(s, p)) == NextMemory(s, Some(p), cfg).riskLocks
  {
    AnnouncedLocksSet(s, p, p.riskLocks);
  }

  /** A cycle's lock alerts reproduce the remembered locks exactly when it announces them, or nothing changed. */
  lemma LockTraceFaithfulIff(s: Snapshot, p: Memory, cfg: AlertConfig)
    ensures Replay(p.riskLocks, AnnouncedLocks(s, p)) == NextMemory(s, Some(p), cfg).riskLocks
            <==> (s.Eligible() && s.Risk().Some?) || NextMemory(s, Some(p), cfg).riskLocks == p.riskLocks
  {
    if s.Eligible() && s.Risk().Some? {
      AnnouncedLocksReplay(s, p, cfg);
    }
  }

  /** A lock that ends while data is not eligible is never announced as cleared: the trace goes wrong there. */
  lemma {:induction false} LockTraceBreaksOnIneligibleData(cfg: AlertConfig) returns (first: Snapshot, second: Snapshot)
    ensures CoherentRun([first, second]) && first.Eligible() && !second.Eligible()
    ensures var p := MemoryAt([first, second], cfg, 1).value;
            p.riskLocks == {DAILY_LOSS_LIMIT} && NextMemory(second, Some(p), cfg).riskLocks == {}
            && Replay(p.riskLocks, AnnouncedLocks(second, p)) == {DAILY_LOSS_LIMIT}
  {
    first, second := LockSnapshot(0, [DAILY_LOSS_LIMIT], true), LockSnapshot(300, [], false);
    OneStepMemory(first, second, cfg);
    OneLock(DAILY_LOSS_LIMIT);
  }

  lemma {:induction false} OneStepMemory(first: Snapshot, second: Snapshot, cfg: AlertConfig)
    ensures MemoryAt([first, second], cfg, 1) == Some(NextMemory(first, None, cfg))
  {
    assert MemoryAt([first, second], cfg, 0) == None;
  }

  lemma OneLock(l: RiskLock)
    ensures LockSet([l]) == {l} && LockSet([]) == {}
  {
    assert [l][0] in LockSet([l]);
  }

  /** The changes announced from step `i` up to step `j`. */
  function LocksBetween(snaps: seq<Snapshot>, cfg: AlertConfig, i: nat, j: nat): seq<LockChange>
    requires 0 < i <= j <= |snaps|
  {
    if i == j then []
    else LocksBetween(snaps, cfg, i, j - 1) + AnnouncedLocks(snaps[j - 1], MemoryAt(snaps, cfg, j - 1).value)
  }

  /** One more step that announces its changes extends a faithful replay. */
  lemma {:induction false} LockStep(
      start: set<RiskLock>, changes: seq<LockChange>, s: Snapshot, p: Memory, cfg: AlertConfig)
    requires Replay(start, changes) == p.riskLocks && s.Eligible() && s.Risk().Some?
    ensures Replay(start, changes + AnnouncedLocks(s, p)) == NextMemory(s, Some(p), cfg).riskLocks
  {
    ReplayAppend(start, changes, AnnouncedLocks(s, p));
    AnnouncedLocksReplay(s, p, cfg);
  }

  /** The changes announced from `i` up to `j` lead from the remembered locks to the remembered locks. */
  ghost predicate Replays(snaps: seq<Snapshot>, cfg: AlertConfig, i: nat, j: nat)
    requires 0 < i <= j <= |snaps|
  {
    Replay(MemoryAt(snaps, cfg, i).value.riskLocks, LocksBetween(snaps, cfg, i, j))
    == MemoryAt(snaps, cfg, j).value.riskLocks
  }

  lemma ReplaysStep(snaps: seq<Snapshot>, cfg: AlertConfig, i: nat, j: nat, p: Memory)
    requires 0 < i <= j < |snaps| && Replays(snaps, cfg, i, j) && MemoryAt(snaps, cfg, j) == Some(p)
    requires snaps[j].Eligible() && snaps[j].Risk().Some?
    ensures Replays(snaps, cfg, i, j + 1)
  {
    LockStep(MemoryAt(snaps, cfg, i).value.riskLocks, LocksBetween(snaps, cfg, i, j), snaps[j], p, cfg);
  }

  /** Over every stretch of eligible data with risk assessments, replaying the lock alerts gives the current locks. */
  lemma LockAlertsReplay(snaps: seq<Snapshot>, cfg: AlertConfig, i: nat, j: nat)
    requires 0 < i <= j <= |snaps|
    requires forall k :: i <= k < j ==> snaps[k].Eligible() && snaps[k].Risk().Some?
    ensures Replays(snaps, cfg, i, j)
  {
    for k := i to j
      invariant Replays(snaps, cfg, i, k)
    {
      var p := MemoryBefore(snaps, cfg, k);
      ReplaysStep(snaps, cfg, i, k, p);
    }
  }

  // ---------------------------------------------------------------- where a replay is out of step

  /**
   * How often the shown value changed at silent steps since its last change at a telling step, over the steps from `i`
   * to `j`; the value before step `i` is the one of the snapshot before.
   */
  function Drift(shows: Snapshot -> bool, tells: Snapshot -> bool, snaps: seq<Snapshot>, i: nat, j: nat): nat
    requires 0 < i <= j <= |snaps|
  {
    if i == j then 0
    else
      var before := Drift(shows, tells, snaps, i, j - 1);
      if shows(snaps[j - 1]) == shows(snaps[j - 2]) then before
      else if tells(snaps[j - 1]) then 0
      else before + 1
  }

  /** An even number of silent changes cancels out. */
  predicate InStep(shows: Snapshot -> bool, tells: Snapshot -> bool, snaps: seq<Snapshot>, i: nat, j: nat)
    requires 0 < i <= j <= |snaps|
  {
    Drift(shows, tells, snaps, i, j) % 2 == 0
  }

  /** One step of a value that is replayed from its told changes. */
  lemma InStepStep(
      shows: Snapshot -> bool, tells: Snapshot -> bool, snaps: seq<Snapshot>, i: nat, j: nat, replayed: bool,
      replayed': bool)
    requires 0 < i <= j < |snaps|
    requires (replayed == shows(snaps[j - 1])) <==> InStep(shows, tells, snaps, i, j)
    requires replayed'
             == if shows(snaps[j]) != shows(snaps[j - 1]) && tells(snaps[j]) then shows(snaps[j]) else replayed
    ensures (replayed' == shows(snaps[j])) <==> InStep(shows, tells, snaps, i, j + 1)
  {
  }

  function ShownLocks(s: Snapshot): set<RiskLock> {
    if s.Risk().Some? then LockSet(s.Risk().value.locks) else {}
  }

  function ShowsLock(l: RiskLock): Snapshot -> bool {
    (s: Snapshot) => l in ShownLocks(s)
  }

  /** The cycle announces its lock changes. */
  function TellsLockChanges(): Snapshot -> bool {
    (s: Snapshot) => s.Eligible() && s.Risk().Some?
  }

  lemma {:induction false} LocksRemembered(snaps: seq<Snapshot>, cfg: AlertConfig, n: nat)
    requires 0 < n <= |snaps|
    ensures MemoryAt(snaps, cfg, n).value.riskLocks == ShownLocks(snaps[n - 1])
  {
  }

  /** The lock set that the changes announced from step `i` up to step `j` give. */
  function ReplayedLocks(snaps: seq<Snapshot>, cfg: AlertConfig, i: nat, j: nat): set<RiskLock>
    requires 0 < i <= j <= |snaps|
  {
    Replay(MemoryAt(snaps, cfg, i).value.riskLocks, LocksBetween(snaps, cfg, i, j))
  }

  lemma ReplayedStep(snaps: seq<Snapshot>, cfg: AlertConfig, i: nat, j: nat, l: RiskLock)
    requires 0 < i <= j < |snaps|
    ensures var shows, tells := ShowsLock(l), TellsLockChanges();
            l in ReplayedLocks(snaps, cfg, i, j + 1)
            <==> if shows(snaps[j]) != shows(snaps[j - 1]) && tells(snaps[j]) then shows(snaps[j])
                 else l in ReplayedLocks(snaps, cfg, i, j)
  {
    var p := MemoryBefore(snaps, cfg, j);
    var start := MemoryAt(snaps, cfg, i).value.riskLocks;
    LocksRemembered(snaps, cfg, j);
    LocksBetweenStep(snaps, cfg, i, j + 1, p);
    ReplayAppend(start, LocksBetween(snaps, cfg, i, j), AnnouncedLocks(snaps[j], p));
    if snaps[j].Eligible() && snaps[j].Risk().Some? {
      AnnouncedLocksSet(snaps[j], p, ReplayedLocks(snaps, cfg, i, j));
    }
  }

  /** The replay agrees with the snapshot before step `j` on the lock exactly when the drift is even. */
  ghost predicate TellsLock(snaps: seq<Snapshot>, cfg: AlertConfig, i: nat, j: nat, l: RiskLock)
    requires 0 < i <= j <= |snaps|
  {
    (l in ReplayedLocks(snaps, cfg, i, j)) == ShowsLock(l)(snaps[j - 1])
    <==> InStep(ShowsLock(l), TellsLockChanges(), snaps, i, j)
  }

  lemma TellsLockStep(snaps: seq<Snapshot>, cfg: AlertConfig, i: nat, j: nat, l: RiskLock)
    requires 0 < i <= j < |snaps| && TellsLock(snaps, cfg, i, j, l)
    ensures TellsLock(snaps, cfg, i, j + 1, l)
  {
    ReplayedStep(snaps, cfg, i, j, l);
    InStepStep(
      ShowsLock(l), TellsLockChanges(), snaps, i, j, l in ReplayedLocks(snaps, cfg, i, j),
      l in ReplayedLocks(snaps, cfg, i, j + 1));
  }

  /**
   * Over every run, the announced changes tell a lock correctly if and only if it changed an even number of times in
   * silent cycles since its last announced change.
   */
  lemma {:induction false} LockTraceIff(snaps: seq<Snapshot>, cfg: AlertConfig, i: nat, j: nat, l: RiskLock)
    requires 0 < i <= j <= |snaps|
    ensures (l in ReplayedLocks(snaps, cfg, i, j) <==> l in MemoryAt(snaps, cfg, j).value.riskLocks)
            <==> InStep(ShowsLock(l), TellsLockChanges(), snaps, i, j)
  {
    LocksRemembered(snaps, cfg, j);
    TellsLockAtFirst(snaps, cfg, i, l);
    for k := i to j
      invariant TellsLock(snaps, cfg, i, k, l)
    {
      TellsLockStep(snaps, cfg, i, k, l);
    }
  }

  lemma TellsLockAtFirst(snaps: seq<Snapshot>, cfg: AlertConfig, i: nat, l: RiskLock)
    requires 0 < i <= |snaps|
    ensures TellsLock(snaps, cfg, i, i, l)
  {
    LocksRemembered(snaps, cfg, i);
  }

  /** ... so the replay gives the current locks if and only if that holds of every lock. */
  lemma ReplaysIff(snaps: seq<Snapshot>, cfg: AlertConfig, i: nat, j: nat)
    requires 0 < i <= j <= |snaps|
    ensures Replays(snaps, cfg, i, j)
            <==> forall l: RiskLock :: InStep(ShowsLock(l), TellsLockChanges(), snaps, i, j)
  {
    forall l: RiskLock
      ensures (l in ReplayedLocks(snaps, cfg, i, j) <==> l in MemoryAt(snaps, cfg, j).value.riskLocks)
              <==> InStep(ShowsLock(l), TellsLockChanges(), snaps, i, j)
    {
      LockTraceIff(snaps, cfg, i, j, l);
    }
  }

  /** A snapshot of a symbol with some risk locks, on eligible data or not. */
  function LockSnapshot(now: int, locks: seq<RiskLock>, eligible: bool): Snapshot {
    Snapshot(
      "XAUUSD", now, WAIT, Some(Evaluation(Some(Risk(locks == [], locks)), None, None, {}, eligible)),
      Some(Run(None, 300, [], None, {}, None)))
  }

  /** A lock that ends and returns while data is not eligible leaves the replay in step: eligible data is not needed. */
  lemma SilentReturnStaysInStep(cfg: AlertConfig) returns (snaps: seq<Snapshot>)
    ensures |snaps| == 3 && CoherentRun(snaps) && !snaps[1].Eligible() && !snaps[2].Eligible()
    ensures ShownLocks(snaps[1]) != ShownLocks(snaps[0])
    ensures !Replays(snaps, cfg, 1, 2) && Replays(snaps, cfg, 1, 3)
  {
    snaps := [
      LockSnapshot(0, [DAILY_LOSS_LIMIT], true), LockSnapshot(300, [], false),
      LockSnapshot(600, [DAILY_LOSS_LIMIT], false)];
    OneLock(DAILY_LOSS_LIMIT);
    ReplaysIff(snaps, cfg, 1, 2);
    ReplaysIff(snaps, cfg, 1, 3);
    forall l: RiskLock
      ensures Drift(ShowsLock(l), TellsLockChanges(), snaps, 1, 1) == 0
      ensures Drift(ShowsLock(l), TellsLockChanges(), snaps, 1, 2) == if l == DAILY_LOSS_LIMIT then 1 else 0
      ensures Drift(ShowsLock(l), TellsLockChanges(), snaps, 1, 3) == if l == DAILY_LOSS_LIMIT then 2 else 0
    {
    }
    assert !InStep(ShowsLock(DAILY_LOSS_LIMIT), TellsLockChanges(), snaps, 1, 2);
  }

  // ---------------------------------------------------------------- the stream of a run

  /** Type and reference of an alert. */
  function Brief(c: AlertCandidate): (AlertType, string) {
    (c.kind, c.reference)
  }

  /** The alerts of the kinds that the snapshots from `i` up to `j` raise, in order, as types and references. */
  function StreamOf(kinds: AlertType -> bool, snaps: seq<Snapshot>, cfg: AlertConfig, i: nat, j: nat)
    : seq<(AlertType, string)>
    requires i <= j <= |snaps| && CoherentRun(snaps)
  {
    if i == j then []
    else StreamOf(kinds, snaps, cfg, i, j - 1) + Map(Brief, Filter(KindIn(kinds), AlertsAt(snaps, cfg, j - 1)))
  }

  /** The baseline is silent, every later cycle adds its alerts of the kinds. */
  lemma StreamStep(kinds: AlertType -> bool, snaps: seq<Snapshot>, cfg: AlertConfig, i: nat, j: nat)
    requires i < j <= |snaps| && CoherentRun(snaps)
    ensures j == 1 ==> StreamOf(kinds, snaps, cfg, i, j) == []
    ensures j > 1 ==> StreamOf(kinds, snaps, cfg, i, j)
                      == StreamOf(kinds, snaps, cfg, i, j - 1)
                         + Map(Brief, Filter(KindIn(kinds),
                             Alerts(snaps[j - 1], Some(MemoryAt(snaps, cfg, j - 1).value), cfg)))
  {
    assert Filter(KindIn(kinds), []) == [];
  }

  function ShiftBrief(shift: (MacroBias, MacroBias)): (AlertType, string) {
    (MACRO_SHIFT, BiasName(shift.0) + ">" + BiasName(shift.1))
  }

  function DataBrief(t: AlertType): (AlertType, string) {
    (t, "decision")
  }

  function LockBrief(c: LockChange): (AlertType, string) {
    (if c.Locked? then RISK_LOCK else RISK_LOCK_CLEARED, LockName(c.lock))
  }

  lemma MacroBriefs(s: Snapshot, p: Memory, shifts: seq<(MacroBias, MacroBias)>)
    ensures Map(ShiftBrief, shifts) + Map(Brief, MacroAlerts(s, p))
            == Map(ShiftBrief, match MacroShift(s, p) case Some(x) => shifts + [x] case None => shifts)
  {
  }

  /** The MACRO_SHIFT alerts in the stream of a run tell the changes of the available bias, and nothing else. */
  lemma {:induction false} MacroStream(snaps: seq<Snapshot>, cfg: AlertConfig, n: nat)
    requires n <= |snaps| && CoherentRun(snaps)
    ensures StreamOf(IsMacroKind, snaps, cfg, 0, n) == Map(ShiftBrief, Pairs(Collapse(Biases(snaps, n))))
  {
    ShiftsTraceBiases(snaps, cfg, n);
    MacroStreamShifts(snaps, cfg, n);
  }

  lemma {:induction false} MacroStreamShifts(snaps: seq<Snapshot>, cfg: AlertConfig, n: nat)
    requires n <= |snaps| && CoherentRun(snaps)
    ensures StreamOf(IsMacroKind, snaps, cfg, 0, n) == Map(ShiftBrief, Shifts(snaps, cfg, n))
  {
    if n > 0 {
      StreamStep(IsMacroKind, snaps, cfg, 0, n);
      if n > 1 {
        var p := MemoryAt(snaps, cfg, n - 1).value;
        MacroStreamShifts(snaps, cfg, n - 1);
        MacroAlertsSelected(snaps[n - 1], p, cfg);
        MacroBriefs(snaps[n - 1], p, Shifts(snaps, cfg, n - 1));
      }
    }
  }

  lemma DataBriefs(s: Snapshot, p: Memory, types: seq<AlertType>)
    ensures Map(DataBrief, types) + Map(Brief, DataAlerts(s, p))
            == Map(DataBrief, match DataChange(s, p) case Some(t) => types + [t] case None => types)
  {
  }

  /** The DATA alerts in the stream of a run tell the changes of availability after the baseline, and nothing else. */
  lemma {:induction false} DataStream(snaps: seq<Snapshot>, cfg: AlertConfig, n: nat)
    requires 0 < n <= |snaps| && CoherentRun(snaps)
    ensures |Outages(snaps, n)| > 0
    ensures StreamOf(IsDataKind, snaps, cfg, 0, n) == Map(DataBrief, DataTypes(Outages(snaps, n)))
  {
    DataAlertsTraceOutages(snaps, cfg, n);
    DataStreamChanges(snaps, cfg, n);
  }

  lemma {:induction false} DataStreamChanges(snaps: seq<Snapshot>, cfg: AlertConfig, n: nat)
    requires n <= |snaps| && CoherentRun(snaps)
    ensures StreamOf(IsDataKind, snaps, cfg, 0, n) == Map(DataBrief, DataChanges(snaps, cfg, n))
  {
    if n > 0 {
      StreamStep(IsDataKind, snaps, cfg, 0, n);
      if n > 1 {
        var p := MemoryAt(snaps, cfg, n - 1).value;
        DataStreamChanges(snaps, cfg, n - 1);
        DataAlertsSelected(snaps[n - 1], p, cfg);
        DataBriefs(snaps[n - 1], p, DataChanges(snaps, cfg, n - 1));
      }
    }
  }

  lemma {:induction false} BriefsOfLocks(s: Snapshot, changes: seq<LockChange>)
    ensures Map(Brief, Map(LockAlert(s), changes)) == Map(LockBrief, changes)
  {
  }

  lemma {:induction false} LockBriefs(s: Snapshot, p: Memory, changes: seq<LockChange>)
    ensures Map(LockBrief, changes) + Map(Brief, if s.Eligible() then LockAlerts(s, p) else [])
            == Map(LockBrief, changes + AnnouncedLocks(s, p))
  {
    MapAppend(LockBrief, changes, AnnouncedLocks(s, p));
    BriefsOfLocks(s, AnnouncedLocks(s, p));
  }

  lemma LockStreamStep(s: Snapshot, p: Memory, cfg: AlertConfig, changes: seq<LockChange>)
    requires Coherent(s)
    ensures Map(LockBrief, changes) + Map(Brief, Filter(KindIn(IsLockKind), Alerts(s, Some(p), cfg)))
            == Map(LockBrief, changes + AnnouncedLocks(s, p))
  {
    LockAlertsSelected(s, p, cfg);
    LockBriefs(s, p, changes);
  }

  lemma LocksBetweenStep(snaps: seq<Snapshot>, cfg: AlertConfig, i: nat, j: nat, p: Memory)
    requires 0 < i < j <= |snaps| && MemoryAt(snaps, cfg, j - 1) == Some(p)
    ensures LocksBetween(snaps, cfg, i, j) == LocksBetween(snaps, cfg, i, j - 1) + AnnouncedLocks(snaps[j - 1], p)
  {
  }

  ghost predicate TellsLocks(snaps: seq<Snapshot>, cfg: AlertConfig, i: nat, j: nat)
    requires 0 < i <= j <= |snaps| && CoherentRun(snaps)
  {
    StreamOf(IsLockKind, snaps, cfg, i, j) == Map(LockBrief, LocksBetween(snaps, cfg, i, j))
  }

  /** The lock alerts in the stream after the baseline are the announced lock changes. */
  lemma LockStream(snaps: seq<Snapshot>, cfg: AlertConfig, i: nat, j: nat)
    requires 0 < i <= j <= |snaps| && CoherentRun(snaps)
    ensures TellsLocks(snaps, cfg, i, j)
  {
    NoLocksYet(snaps, cfg, i);
    for k := i to j
      invariant TellsLocks(snaps, cfg, i, k)
    {
      var p := MemoryBefore(snaps, cfg, k);
      LockStreamTail(snaps, cfg, i, k + 1, p);
    }
  }

  lemma MemoryBefore(snaps: seq<Snapshot>, cfg: AlertConfig, n: nat) returns (p: Memory)
    requires 0 < n <= |snaps|
    ensures MemoryAt(snaps, cfg, n) == Some(p)
  {
    p := MemoryAt(snaps, cfg, n).value;
  }

  lemma NoLocksYet(snaps: seq<Snapshot>, cfg: AlertConfig, i: nat)
    requires 0 < i <= |snaps| && CoherentRun(snaps)
    ensures TellsLocks(snaps, cfg, i, i)
  {
  }

  lemma LockStreamTail(snaps: seq<Snapshot>, cfg: AlertConfig, i: nat, j: nat, p: Memory)
    requires 0 < i < j <= |snaps| && CoherentRun(snaps) && MemoryAt(snaps, cfg, j - 1) == Some(p)
    requires TellsLocks(snaps, cfg, i, j - 1)
    ensures TellsLocks(snaps, cfg, i, j)
  {
    StreamStep(IsLockKind, snaps, cfg, i, j);
    LockStreamStep(snaps[j - 1], p, cfg, LocksBetween(snaps, cfg, i, j - 1));
    LocksBetweenStep(snaps, cfg, i, j, p);
  }
}
