/** The in-memory alert feed: sequence numbers, dedupe keys, cooldowns, pruning and a bounded buffer. */
module AlertStore {
  import opened Wrappers
  import opened Seqs
  import opened Text
  import opened AlertModels

  datatype StoreState = StoreState(
    lastNumber: nat, buffer: seq<Alert>, lastByKey: map<string, int>, suppressed: map<AlertType, nat>)

  const EMPTY_STORE := StoreState(0, [], map[], map[])

  function SuppressedOf(suppressed: map<AlertType, nat>, t: AlertType): nat {
    if t in suppressed then suppressed[t] else 0
  }

  function AlertOf(cfg: AlertConfig, key: string, c: AlertCandidate, n: nat, now: int): Alert {
    Alert(AlertId(n), n, key, c.symbol, c.kind, cfg.category(c.kind), cfg.priority(c.kind), c.direction, c.price,
      c.occurredAt, now)
  }

  function Prune(cfg: AlertConfig, lastByKey: map<string, int>, now: int): map<string, int> {
    if |lastByKey| > 4 * cfg.bufferSize
    then map k | k in lastByKey && now - lastByKey[k] < Horizon(cfg) :: lastByKey[k]
    else lastByKey
  }

  /** The key fired within the cooldown of the candidate's category. */
  predicate InCooldown(cfg: AlertConfig, lastByKey: map<string, int>, key: string, kind: AlertType, now: int) {
    key in lastByKey && now - lastByKey[key] < Cooldown(cfg, kind)
  }

  /** One call of `add` under a dedupe key: the new state and the stored alert, or none when it is suppressed. */
  function AddStep(cfg: AlertConfig, st: StoreState, key: string, c: AlertCandidate, now: int)
    : (StoreState, Option<Alert>)
  {
    if InCooldown(cfg, st.lastByKey, key, c.kind, now)
    then (st.(suppressed := st.suppressed[c.kind := SuppressedOf(st.suppressed, c.kind) + 1]), None)
    else
      var alert := AlertOf(cfg, key, c, st.lastNumber + 1, now);
      (StoreState(
        st.lastNumber + 1, LastN(st.buffer + [alert], cfg.bufferSize),
        Prune(cfg, st.lastByKey[key := now], now), st.suppressed), Some(alert))
  }

  class AlertStore {
    const cfg: AlertConfig
    var lastNumber: nat
    var buffer: seq<Alert>
    var lastByKey: map<string, int>
    var suppressed: map<AlertType, nat>

    ghost function State(): StoreState
      reads this
    {
      StoreState(lastNumber, buffer, lastByKey, suppressed)
    }

    constructor (cfg: AlertConfig)
      ensures this.cfg == cfg && State() == EMPTY_STORE
    {
      this.cfg := cfg;
      lastNumber, buffer, lastByKey, suppressed := 0, [], map[], map[];
    }

    /** Returns the stored alert, or none when the same dedupe key fired within its category cooldown. */
    method Add(c: AlertCandidate, now: int) returns (r: Option<Alert>)
      modifies this
      ensures (State(), r) == AddStep(cfg, old(State()), DedupeKey(c), c, now)
    {
      r := AddUnder(DedupeKey(c), c, now);
    }

    method AddUnder(key: string, c: AlertCandidate, now: int) returns (r: Option<Alert>)
      modifies this
      ensures (State(), r) == AddStep(cfg, old(State()), key, c, now)
    {
      if key in lastByKey && now - lastByKey[key] < Cooldown(cfg, c.kind) {
        suppressed := suppressed[c.kind := SuppressedOf(suppressed, c.kind) + 1];
        return None;
      }
      lastByKey := lastByKey[key := now];
      lastNumber := lastNumber + 1;
      var alert := AlertOf(cfg, key, c, lastNumber, now);
      buffer := LastN(buffer + [alert], cfg.bufferSize);
      PruneKeys(now);
      r := Some(alert);
    }

    /** Forgets keys that no cooldown can reach any more, once there are many keys. */
    method PruneKeys(now: int)
      modifies this`lastByKey
      ensures lastByKey == Prune(cfg, old(lastByKey), now)
    {
      var horizon := Horizon(cfg);
      if |lastByKey| > 4 * cfg.bufferSize {
        lastByKey := map k | k in lastByKey && now - lastByKey[k] < horizon :: lastByKey[k];
      }
    }

    /** The buffered alerts, newest first. */
    method List() returns (alerts: seq<Alert>)
      ensures alerts == Reverse(buffer)
    {
      alerts := Reverse(buffer);
    }
  }

  // ---------------------------------------------------------------- specification by history

  /** A call of `add`: the dedupe key of its candidate, the candidate and the time. */
  datatype Call = Call(key: string, candidate: AlertCandidate, now: int)

  ghost predicate NondecreasingClock(calls: seq<Call>) {
    forall i, j :: 0 <= i <= j < |calls| ==> calls[i].now <= calls[j].now
  }

  /** A run of the store: the calls, the states between them and the replies. */
  datatype StoreRun = StoreRun(calls: seq<Call>, states: seq<StoreState>, replies: seq<Option<Alert>>)

  ghost predicate Steps(cfg: AlertConfig, run: StoreRun, i: nat)
    requires i < |run.calls| && |run.states| == |run.calls| + 1 && |run.replies| == |run.calls|
  {
    var call := run.calls[i];
    AddStep(cfg, run.states[i], call.key, call.candidate, call.now) == (run.states[i + 1], run.replies[i])
  }

  ghost predicate IsRun(cfg: AlertConfig, run: StoreRun) {
    && |run.states| == |run.calls| + 1 && |run.replies| == |run.calls| && run.states[0] == EMPTY_STORE
    && forall i: nat :: i < |run.calls| ==> Steps(cfg, run, i)
  }

  /**
   * The reference: call `i` raises an alert exactly when no earlier call raised one under the same key within the
   * cooldown of its category. It reads the whole history of calls and knows neither a key map nor pruning.
   */
  ghost predicate ByHistory(cfg: AlertConfig, calls: seq<Call>, fired: seq<bool>, i: nat)
    requires |fired| == |calls| && i < |calls|
  {
    fired[i] <==> forall j :: 0 <= j < i && fired[j] && calls[j].key == calls[i].key
                              ==> calls[i].now - calls[j].now >= cfg.cooldown(cfg.category(calls[i].candidate.kind))
  }

  /** Which calls raised an alert. */
  function Fired(replies: seq<Option<Alert>>): (fired: seq<bool>)
    ensures |fired| == |replies| && forall i :: 0 <= i < |replies| ==> fired[i] == replies[i].Some?
  {
    seq(|replies|, i requires 0 <= i < |replies| => replies[i].Some?)
  }

  /** The alerts among the replies, in order. */
  function Raised(replies: seq<Option<Alert>>): seq<Alert> {
    if |replies| == 0 then []
    else
      var before, last := Raised(replies[..|replies| - 1]), replies[|replies| - 1];
      if last.Some? then before + [last.value] else before
  }

  /** How many of the first `n` calls with an alert type raised nothing. */
  function SuppressedCalls(calls: seq<Call>, fired: seq<bool>, t: AlertType, n: nat): nat
    requires n <= |calls| == |fired|
  {
    if n == 0 then 0
    else SuppressedCalls(calls, fired, t, n - 1) + if calls[n - 1].candidate.kind == t && !fired[n - 1] then 1 else 0
  }

  // ---------------------------------------------------------------- pruning is invisible

  /** Every remembered time is that of a call that raised an alert under the key. */
  ghost predicate Remembered(calls: seq<Call>, fired: seq<bool>, n: nat, m: map<string, int>)
    requires n <= |calls| == |fired|
  {
    forall k :: k in m ==> exists j :: 0 <= j < n && fired[j] && calls[j].key == k && calls[j].now == m[k]
  }

  /** A call that raised an alert is remembered, or so old that no cooldown reaches it. */
  ghost predicate Reachable(
    cfg: AlertConfig, calls: seq<Call>, fired: seq<bool>, n: nat, m: map<string, int>, now: int)
    requires n <= |calls| == |fired|
  {
    forall j :: 0 <= j < n && fired[j] ==>
      (calls[j].key in m && m[calls[j].key] >= calls[j].now) || now - calls[j].now >= Horizon(cfg)
  }

  /** With both facts about the key map, its cooldown test is the one of the history. */
  lemma MapDecidesLikeHistory(cfg: AlertConfig, calls: seq<Call>, fired: seq<bool>, n: nat, m: map<string, int>)
    requires n < |calls| == |fired|
    requires Remembered(calls, fired, n, m) && Reachable(cfg, calls, fired, n, m, calls[n].now)
    requires fired[n] <==> !InCooldown(cfg, m, calls[n].key, calls[n].candidate.kind, calls[n].now)
    ensures ByHistory(cfg, calls, fired, n)
  {
    HorizonBounds(cfg, calls[n].candidate.kind);
    var key := calls[n].key;
    if key in m {
      var j :| 0 <= j < n && fired[j] && calls[j].key == key && calls[j].now == m[key];
    }
  }

  lemma RememberedStep(cfg: AlertConfig, calls: seq<Call>, fired: seq<bool>, n: nat, m: map<string, int>)
    requires n < |calls| == |fired| && Remembered(calls, fired, n, m) && fired[n]
    ensures Remembered(calls, fired, n + 1, Prune(cfg, m[calls[n].key := calls[n].now], calls[n].now))
  {
    var m' := Prune(cfg, m[calls[n].key := calls[n].now], calls[n].now);
    forall k | k in m'
      ensures exists j :: 0 <= j < n + 1 && fired[j] && calls[j].key == k && calls[j].now == m'[k] {
      if k != calls[n].key {
        var j :| 0 <= j < n && fired[j] && calls[j].key == k && calls[j].now == m[k];
      }
    }
  }

  lemma PruneKeeps(cfg: AlertConfig, m: map<string, int>, k: string, now: int)
    requires k in m
    ensures (k in Prune(cfg, m, now) && Prune(cfg, m, now)[k] == m[k]) || now - m[k] >= Horizon(cfg)
  {
  }

  lemma ReachableStep(cfg: AlertConfig, calls: seq<Call>, fired: seq<bool>, n: nat, m: map<string, int>)
    requires n < |calls| == |fired| && NondecreasingClock(calls)
    requires Reachable(cfg, calls, fired, n, m, calls[n].now)
    ensures Reachable(
              cfg, calls, fired, n + 1, Prune(cfg, m[calls[n].key := calls[n].now], calls[n].now), calls[n].now)
  {
    var m1 := m[calls[n].key := calls[n].now];
    var m2 := Prune(cfg, m1, calls[n].now);
    forall j | 0 <= j < n + 1 && fired[j]
      ensures (calls[j].key in m2 && m2[calls[j].key] >= calls[j].now) || calls[n].now - calls[j].now >= Horizon(cfg)
    {
      if calls[j].key in m1 {
        PruneKeeps(cfg, m1, calls[j].key, calls[n].now);
      }
    }
  }

  lemma SkipStep(cfg: AlertConfig, calls: seq<Call>, fired: seq<bool>, n: nat, m: map<string, int>)
    requires n < |calls| == |fired| && !fired[n]
    requires Remembered(calls, fired, n, m) && Reachable(cfg, calls, fired, n, m, calls[n].now)
    ensures Remembered(calls, fired, n + 1, m) && Reachable(cfg, calls, fired, n + 1, m, calls[n].now)
  {
    forall k | k in m ensures exists j :: 0 <= j < n + 1 && fired[j] && calls[j].key == k && calls[j].now == m[k] {
      var j :| 0 <= j < n && fired[j] && calls[j].key == k && calls[j].now == m[k];
    }
  }

  lemma KeysStep(
      cfg: AlertConfig, calls: seq<Call>, fired: seq<bool>, n: nat, m: map<string, int>, m': map<string, int>)
    requires n + 1 < |calls| == |fired| && NondecreasingClock(calls)
    requires Remembered(calls, fired, n, m) && Reachable(cfg, calls, fired, n, m, calls[n].now)
    requires m' == if fired[n] then Prune(cfg, m[calls[n].key := calls[n].now], calls[n].now) else m
    ensures Remembered(calls, fired, n + 1, m') && Reachable(cfg, calls, fired, n + 1, m', calls[n + 1].now)
  {
    if fired[n] {
      RememberedStep(cfg, calls, fired, n, m);
      ReachableStep(cfg, calls, fired, n, m);
    } else {
      SkipStep(cfg, calls, fired, n, m);
    }
  }

  /** How call `n` is decided and what it does to the key map. */
  lemma DecisionOf(cfg: AlertConfig, run: StoreRun, n: nat)
    requires IsRun(cfg, run) && n < |run.calls|
    ensures var m, call, fires := run.states[n].lastByKey, run.calls[n], run.replies[n].Some?;
            && (fires <==> !InCooldown(cfg, m, call.key, call.candidate.kind, call.now))
            && run.states[n + 1].lastByKey == (if fires then Prune(cfg, m[call.key := call.now], call.now) else m)
  {
    assert Steps(cfg, run, n);
  }

  /** What call `n` does to the counter and the buffer. */
  lemma EffectOf(cfg: AlertConfig, run: StoreRun, n: nat)
    requires IsRun(cfg, run) && n < |run.calls|
    ensures var st, st', reply := run.states[n], run.states[n + 1], run.replies[n];
            if reply.Some? then
              && reply.value.number == st'.lastNumber == st.lastNumber + 1
              && st'.buffer == LastN(st.buffer + [reply.value], cfg.bufferSize)
            else st'.lastNumber == st.lastNumber && st'.buffer == st.buffer
  {
    assert Steps(cfg, run, n);
  }

  lemma SuppressedStep(cfg: AlertConfig, run: StoreRun, n: nat, t: AlertType)
    requires IsRun(cfg, run) && n < |run.calls|
    ensures SuppressedOf(run.states[n + 1].suppressed, t)
            == SuppressedOf(run.states[n].suppressed, t)
               + if run.calls[n].candidate.kind == t && run.replies[n].None? then 1 else 0
  {
    assert Steps(cfg, run, n);
  }

  /** The pruned key map knows every call that a cooldown can still reach. */
  lemma {:induction false} KeysFollowHistory(cfg: AlertConfig, run: StoreRun, n: nat)
    requires IsRun(cfg, run) && NondecreasingClock(run.calls) && n < |run.calls|
    ensures Remembered(run.calls, Fired(run.replies), n, run.states[n].lastByKey)
    ensures Reachable(cfg, run.calls, Fired(run.replies), n, run.states[n].lastByKey, run.calls[n].now)
  {
    if n > 0 {
      KeysFollowHistory(cfg, run, n - 1);
      KeysStepOfRun(cfg, run, n - 1);
    }
  }

  lemma KeysStepOfRun(cfg: AlertConfig, run: StoreRun, n: nat)
    requires IsRun(cfg, run) && NondecreasingClock(run.calls) && n + 1 < |run.calls|
    requires Remembered(run.calls, Fired(run.replies), n, run.states[n].lastByKey)
    requires Reachable(cfg, run.calls, Fired(run.replies), n, run.states[n].lastByKey, run.calls[n].now)
    ensures Remembered(run.calls, Fired(run.replies), n + 1, run.states[n + 1].lastByKey)
    ensures Reachable(
              cfg, run.calls, Fired(run.replies), n + 1, run.states[n + 1].lastByKey, run.calls[n + 1].now)
  {
    DecisionOf(cfg, run, n);
    KeysStep(cfg, run.calls, Fired(run.replies), n, run.states[n].lastByKey, run.states[n + 1].lastByKey);
  }

  /**
   * Pruning is invisible. In every run with a nondecreasing clock, the pruning store raises an alert exactly when
   * the unpruned history of calls allows it.
   */
  lemma PruningIsInvisible(cfg: AlertConfig, run: StoreRun)
    requires IsRun(cfg, run) && NondecreasingClock(run.calls)
    ensures forall i: nat :: i < |run.calls| ==> ByHistory(cfg, run.calls, Fired(run.replies), i)
  {
    forall i: nat | i < |run.calls| ensures ByHistory(cfg, run.calls, Fired(run.replies), i) {
      KeysFollowHistory(cfg, run, i);
      DecisionOf(cfg, run, i);
      MapDecidesLikeHistory(cfg, run.calls, Fired(run.replies), i, run.states[i].lastByKey);
    }
  }

  /** The history determines the answers: two ways of firing that both follow it are the same. */
  lemma {:induction false} HistoryDetermines(
      cfg: AlertConfig, calls: seq<Call>, fired: seq<bool>, fired': seq<bool>, n: nat)
    requires n <= |calls| == |fired| == |fired'|
    requires forall i: nat :: i < n ==> ByHistory(cfg, calls, fired, i) && ByHistory(cfg, calls, fired', i)
    ensures forall i :: 0 <= i < n ==> fired[i] == fired'[i]
  {
    if n > 0 {
      HistoryDetermines(cfg, calls, fired, fired', n - 1);
      assert ByHistory(cfg, calls, fired, n - 1) && ByHistory(cfg, calls, fired', n - 1);
    }
  }

  ghost predicate Numbered(alerts: seq<Alert>) {
    forall i :: 0 <= i < |alerts| ==> alerts[i].number == i + 1
  }

  lemma RaisedSnoc(replies: seq<Option<Alert>>, n: nat)
    requires n < |replies|
    ensures Raised(replies[..n + 1])
            == if replies[n].Some? then Raised(replies[..n]) + [replies[n].value] else Raised(replies[..n])
  {
    assert replies[..n + 1][..n] == replies[..n];
  }

  lemma HoldsStep(raised: seq<Alert>, st: StoreState, st': StoreState, reply: Option<Alert>, size: nat)
    requires st.lastNumber == |raised| && st.buffer == LastN(raised, size) && Numbered(raised)
    requires if reply.Some?
             then reply.value.number == st'.lastNumber == st.lastNumber + 1
                  && st'.buffer == LastN(st.buffer + [reply.value], size)
             else st'.lastNumber == st.lastNumber && st'.buffer == st.buffer
    ensures var raised' := if reply.Some? then raised + [reply.value] else raised;
            st'.lastNumber == |raised'| && st'.buffer == LastN(raised', size) && Numbered(raised')
  {
    if reply.Some? {
      LastNSnoc(raised, reply.value, size);
    }
  }

  /** The store numbers the raised alerts 1, 2, 3 and so on, and buffers the newest ones. */
  lemma {:induction false} StoreHoldsRaised(cfg: AlertConfig, run: StoreRun, n: nat)
    requires IsRun(cfg, run) && n <= |run.calls|
    ensures var raised := Raised(run.replies[..n]);
            && run.states[n].lastNumber == |raised| && run.states[n].buffer == LastN(raised, cfg.bufferSize)
            && Numbered(raised)
  {
    if n > 0 {
      StoreHoldsRaised(cfg, run, n - 1);
      EffectOf(cfg, run, n - 1);
      RaisedSnoc(run.replies, n - 1);
      HoldsStep(Raised(run.replies[..n - 1]), run.states[n - 1], run.states[n], run.replies[n - 1], cfg.bufferSize);
    }
  }

  ghost predicate IdsFollowNumbers(alerts: seq<Alert>) {
    forall a :: a in alerts ==> a.id == AlertId(a.number)
  }

  lemma {:induction false} RaisedIdsFollowNumbers(cfg: AlertConfig, run: StoreRun, n: nat)
    requires IsRun(cfg, run) && n <= |run.calls|
    ensures IdsFollowNumbers(Raised(run.replies[..n]))
  {
    if n > 0 {
      RaisedIdsFollowNumbers(cfg, run, n - 1);
      assert run.replies[..n][..n - 1] == run.replies[..n - 1];
      if run.replies[n - 1].Some? {
        IdOfReply(cfg, run, n - 1);
      }
    }
  }

  lemma IdOfReply(cfg: AlertConfig, run: StoreRun, n: nat)
    requires IsRun(cfg, run) && n < |run.calls| && run.replies[n].Some?
    ensures run.replies[n].value.id == AlertId(run.replies[n].value.number)
  {
    assert Steps(cfg, run, n);
  }

  /** It counts the calls that raised nothing by type. */
  lemma {:induction false} SuppressedAreCounted(cfg: AlertConfig, run: StoreRun, n: nat, t: AlertType)
    requires IsRun(cfg, run) && n <= |run.calls|
    ensures SuppressedOf(run.states[n].suppressed, t) == SuppressedCalls(run.calls, Fired(run.replies), t, n)
  {
    if n > 0 {
      SuppressedAreCounted(cfg, run, n - 1, t);
      SuppressedStep(cfg, run, n - 1, t);
    }
  }

  // ---------------------------------------------------------------- what is stored, and what is remembered

  /** The alert carries the fields of the candidate, and what the configuration says of its type. */
  ghost predicate Carries(cfg: AlertConfig, a: Alert, key: string, c: AlertCandidate, now: int) {
    && a.id == "ALERT:" + Decimal(a.number) && a.dedupeKey == key && a.symbol == c.symbol && a.kind == c.kind
    && a.category == cfg.category(c.kind) && a.priority == cfg.priority(c.kind) && a.direction == c.direction
    && a.price == c.price && a.occurredAt == c.occurredAt && a.createdAt == now
  }

  /** A call that raises an alert stores the next number and the fields of its own candidate. */
  lemma {:induction false} RaisedAlertCarriesItsCall(cfg: AlertConfig, run: StoreRun, n: nat)
    requires IsRun(cfg, run) && n < |run.calls| && run.replies[n].Some?
    ensures var a, call := run.replies[n].value, run.calls[n];
            && a.number == |Raised(run.replies[..n])| + 1 && Carries(cfg, a, call.key, call.candidate, call.now)
            && Raised(run.replies[..n + 1]) == Raised(run.replies[..n]) + [a]
  {
    StoreHoldsRaised(cfg, run, n);
    RaisedSnoc(run.replies, n);
    assert Steps(cfg, run, n);
  }

  /** The key raised an alert by call `n`, within one of the cooldowns before it. */
  ghost predicate RaisedLately(cfg: AlertConfig, calls: seq<Call>, fired: seq<bool>, n: nat, key: string)
    requires n < |calls| == |fired|
  {
    exists j, category: AlertCategory ::
      0 <= j <= n && fired[j] && calls[j].key == key && calls[n].now - calls[j].now < cfg.cooldown(category)
  }

  /**
   * The key map stays small: after every alert the store knows at most four times as many keys as its buffer holds
   * alerts, or each key it knows raised an alert within one of the cooldowns.
   */
  lemma {:induction false} KeysStayFew(cfg: AlertConfig, run: StoreRun, n: nat)
    requires IsRun(cfg, run) && NondecreasingClock(run.calls) && n < |run.calls| && run.replies[n].Some?
    ensures var m := run.states[n + 1].lastByKey;
            |m| <= 4 * cfg.bufferSize
            || forall k :: k in m ==> RaisedLately(cfg, run.calls, Fired(run.replies), n, k)
  {
    var fired, m, m' := Fired(run.replies), run.states[n].lastByKey, run.states[n + 1].lastByKey;
    KeysFollowHistory(cfg, run, n);
    DecisionOf(cfg, run, n);
    RememberedStep(cfg, run.calls, fired, n, m);
    var category := HorizonIsAttained(cfg);
    if |m'| > 4 * cfg.bufferSize {
      forall k | k in m' ensures RaisedLately(cfg, run.calls, fired, n, k) {
        var j :| 0 <= j < n + 1 && fired[j] && run.calls[j].key == k && run.calls[j].now == m'[k];
        PrunedIsLate(cfg, m[run.calls[n].key := run.calls[n].now], run.calls[n].now, k);
        assert run.calls[n].now - run.calls[j].now < cfg.cooldown(category);
      }
    }
  }

  lemma PrunedIsLate(cfg: AlertConfig, m: map<string, int>, now: int, k: string)
    requires k in Prune(cfg, m, now) && |Prune(cfg, m, now)| > 4 * cfg.bufferSize
    ensures now - Prune(cfg, m, now)[k] < Horizon(cfg)
  {
  }
}
