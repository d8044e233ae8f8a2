/** The cursor feed of the alert service, and what a polling client receives over a whole run. */
module AlertFeed {
  import opened Wrappers
  import opened Seqs
  import opened AlertModels
  import opened AlertStore

  datatype Query = Query(
    symbol: Option<string>, category: Option<AlertCategory>, minPriority: Option<AlertPriority>)

  function UpperChar(c: char): char {
    if 'a' <= c <= 'z' then (c as int - 32) as char else c
  }

  function Upper(s: string): string {
    Map(UpperChar, s)
  }

  /** The query with its symbol in upper case, as alerts carry it. */
  function Normalised(q: Query): Query {
    if q.symbol.Some? then q.(symbol := Some(Upper(q.symbol.value))) else q
  }

  /** The alert passes the filters of a normalised query; an empty symbol filters nothing. */
  predicate Matches(q: Query, a: Alert) {
    && (q.symbol.None? || q.symbol.value == "" || a.symbol == q.symbol.value)
    && (q.category.None? || a.category == q.category.value)
    && (q.minPriority.None? || PriorityOrder(a.priority) >= PriorityOrder(q.minPriority.value))
  }

  function Wants(q: Query): Alert -> bool {
    (a: Alert) => Matches(q, a)
  }

  /** Not yet delivered and wanted. */
  function Pending(wanted: Alert -> bool, since: int): Alert -> bool {
    (a: Alert) => a.number > since && wanted(a)
  }

  /** The loop appends before it tests the limit, so it always lets one alert through. */
  function Most(limit: int): nat {
    if limit < 1 then 1 else limit
  }

  /** The newest pending alerts of the buffer, newest first. */
  function FeedAlerts(buffer: seq<Alert>, wanted: Alert -> bool, since: int, limit: int): seq<Alert> {
    FirstN(Filter(Pending(wanted, since), Reverse(buffer)), Most(limit))
  }

  function MaxNumber(alerts: seq<Alert>, default': int): int {
    if |alerts| == 0 then default'
    else
      var m, n := MaxNumber(alerts[..|alerts| - 1], default'), alerts[|alerts| - 1].number;
      if |alerts| == 1 || n > m then n else m
  }

  /** Walks the alerts from the newest and stops when the limit is reached. */
  method CollectFeed(listed: seq<Alert>, q: Query, since: int, limit: int) returns (alerts: seq<Alert>)
    ensures alerts == FirstN(Filter(Pending(Wants(q), since), listed), Most(limit))
  {
    ghost var p := Pending(Wants(q), since);
    alerts := [];
    for i := 0 to |listed|
      invariant alerts == Filter(p, listed[..i]) && |alerts| < Most(limit)
    {
      var a := listed[i];
      FilterStep(p, listed, i);
      if a.number > since && Matches(q, a) {
        alerts := alerts + [a];
        if |alerts| >= limit {
          FilterPrefix(p, listed, i + 1);
          return;
        }
      }
    }
    assert listed[..|listed|] == listed;
  }

  method Feed(store: AlertStore, q: Query, since: int, limit: int) returns (alerts: seq<Alert>, nextCursor: int)
    ensures alerts == FeedAlerts(store.buffer, Wants(Normalised(q)), since, limit)
    ensures nextCursor == MaxNumber(alerts, since)
  {
    var listed := store.List();
    alerts := CollectFeed(listed, Normalised(q), since, limit);
    nextCursor := MaxNumber(alerts, since);
  }

  // ---------------------------------------------------------------- order of the feed

  ghost predicate NewestFirst(alerts: seq<Alert>) {
    forall i, j :: 0 <= i < j < |alerts| ==> alerts[i].number > alerts[j].number
  }

  ghost predicate Ascending(alerts: seq<Alert>) {
    forall i, j :: 0 <= i < j < |alerts| ==> alerts[i].number < alerts[j].number
  }

  lemma {:induction false} FilterAscends(p: Alert -> bool, s: seq<Alert>)
    requires Ascending(s)
    ensures Ascending(Filter(p, s))
  {
    if |s| != 0 {
      var front, last := s[..|s| - 1], s[|s| - 1];
      FilterAscends(p, front);
      FilterMembers(p, front);
      forall i | 0 <= i < |Filter(p, front)| ensures Filter(p, front)[i].number < last.number {
        assert Filter(p, front)[i] in Filter(p, front);
        var j :| 0 <= j < |front| && front[j] == Filter(p, front)[i];
      }
    }
  }

  lemma {:induction false} NewestIsMax(alerts: seq<Alert>, since: int)
    requires NewestFirst(alerts)
    ensures MaxNumber(alerts, since) == if |alerts| == 0 then since else alerts[0].number
  {
    if |alerts| > 1 {
      NewestIsMax(alerts[..|alerts| - 1], since);
    }
  }

  lemma FeedMembers(buffer: seq<Alert>, wanted: Alert -> bool, since: int, limit: int)
    ensures forall a :: a in FeedAlerts(buffer, wanted, since, limit) ==> a in buffer && Pending(wanted, since)(a)
  {
    var p := Pending(wanted, since);
    FilterReverse(p, buffer);
    FilterMembers(p, buffer);
    var all := Filter(p, buffer);
    forall a | a in FeedAlerts(buffer, wanted, since, limit) ensures a in all {
      var i :| 0 <= i < |Reverse(all)| && Reverse(all)[i] == a;
      assert all[|all| - 1 - i] == a;
    }
  }

  lemma FeedNewestFirst(buffer: seq<Alert>, wanted: Alert -> bool, since: int, limit: int)
    requires Ascending(buffer)
    ensures NewestFirst(FeedAlerts(buffer, wanted, since, limit))
  {
    FilterReverse(Pending(wanted, since), buffer);
    FilterAscends(Pending(wanted, since), buffer);
  }

  /** Every feed of a buffer in ascending order is newest first, above the old cursor and not above the new one. */
  lemma {:induction false} FeedIsOrdered(buffer: seq<Alert>, wanted: Alert -> bool, since: int, limit: int)
    requires Ascending(buffer)
    ensures var f := FeedAlerts(buffer, wanted, since, limit);
            && NewestFirst(f) && MaxNumber(f, since) == (if |f| == 0 then since else f[0].number)
            && since <= MaxNumber(f, since)
            && forall a :: a in f ==> a in buffer && Pending(wanted, since)(a) && a.number <= MaxNumber(f, since)
  {
    FeedMembers(buffer, wanted, since, limit);
    FeedNewestFirst(buffer, wanted, since, limit);
    var f := FeedAlerts(buffer, wanted, since, limit);
    NewestIsMax(f, since);
    if |f| > 0 {
      assert f[0] in f;
    }
  }

  // ---------------------------------------------------------------- what a feed holds

  /** The letter in upper case; other characters stay. */
  predicate IsUpperOf(u: char, c: char) {
    if 'a' <= c <= 'z' then 'A' <= u <= 'Z' && u as int - 'A' as int == c as int - 'a' as int else u == c
  }

  /** No symbol is asked for, or the alert's symbol is the one asked for in upper case. */
  predicate SymbolAsked(q: Query, symbol: string) {
    q.symbol.None? || q.symbol.value == ""
    || (|symbol| == |q.symbol.value| && forall i :: 0 <= i < |symbol| ==> IsUpperOf(symbol[i], q.symbol.value[i]))
  }

  predicate UrgentEnough(p: AlertPriority, least: AlertPriority) {
    match least
    case LOW => true
    case MEDIUM => !p.LOW?
    case HIGH => p.HIGH? || p.CRITICAL?
    case CRITICAL => p.CRITICAL?
  }

  /** What a client asks for: above its cursor, and passing every filter that it sets. */
  predicate IsAskedFor(q: Query, since: int, a: Alert) {
    && a.number > since && SymbolAsked(q, a.symbol) && (q.category.Some? ==> a.category == q.category.value)
    && (q.minPriority.Some? ==> UrgentEnough(a.priority, q.minPriority.value))
  }

  lemma {:induction false} AskedForIff(q: Query, since: int, a: Alert)
    ensures Pending(Wants(Normalised(q)), since)(a) <==> IsAskedFor(q, since, a)
  {
    if q.symbol.Some? {
      var u := Upper(q.symbol.value);
      assert |u| == |q.symbol.value| && forall i :: 0 <= i < |u| ==> u[i] == UpperChar(q.symbol.value[i]);
      if SymbolAsked(q, a.symbol) && q.symbol.value != "" {
        assert a.symbol == u;
      }
    }
  }

  /** The feed is the newest of the buffered alerts that are asked for: at least one fits, at most the limit. */
  lemma {:induction false} FeedHoldsTheNewestAskedFor(buffer: seq<Alert>, q: Query, since: int, limit: int)
    requires Ascending(buffer)
    ensures var f, room := FeedAlerts(buffer, Wants(Normalised(q)), since, limit), if limit < 1 then 1 else limit;
            && NewestFirst(f) && |f| <= room
            && (forall a :: a in f ==> a in buffer && IsAskedFor(q, since, a))
            && forall a :: a in buffer && IsAskedFor(q, since, a) && a !in f ==>
                 |f| == room && forall b :: b in f ==> b.number > a.number
  {
    var p := Pending(Wants(Normalised(q)), since);
    forall a: Alert ensures p(a) <==> IsAskedFor(q, since, a) {
      AskedForIff(q, since, a);
    }
    FeedMembers(buffer, Wants(Normalised(q)), since, limit);
    FeedNewestFirst(buffer, Wants(Normalised(q)), since, limit);
    var f, all := FeedAlerts(buffer, Wants(Normalised(q)), since, limit), Filter(p, Reverse(buffer));
    FilterReverse(p, buffer);
    FilterMembers(p, buffer);
    FilterAscends(p, buffer);
    forall a | a in buffer && p(a) && a !in f ensures |f| == Most(limit) && forall b :: b in f ==> b.number > a.number {
      BelowTheCut(Filter(p, buffer), Most(limit), a);
    }
  }

  lemma {:induction false} BelowTheCut(pending: seq<Alert>, n: nat, a: Alert)
    requires Ascending(pending) && a in pending && a !in FirstN(Reverse(pending), n)
    ensures var f := FirstN(Reverse(pending), n); |f| == n && forall b :: b in f ==> b.number > a.number
  {
    var r, f := Reverse(pending), FirstN(Reverse(pending), n);
    var i :| 0 <= i < |pending| && pending[i] == a;
    assert r[|pending| - 1 - i] == a;
    forall b | b in f ensures b.number > a.number {
      var j :| 0 <= j < |f| && f[j] == b;
      assert b == pending[|pending| - 1 - j];
    }
  }

  // ---------------------------------------------------------------- polling

  /** Alerts raised so far, the client's cursor, everything delivered, and the alerts raised by the last poll. */
  datatype PollState = PollState(history: seq<Alert>, cursor: int, delivered: seq<Alert>, polled: nat)

  /** The service raises an alert, or the client polls with its cursor and a limit. */
  datatype PollEvent = Publish(alert: Alert) | Poll(limit: int)

  /** What a poll delivers: the buffer holds the newest `size` of the history. */
  function Delivery(size: nat, wanted: Alert -> bool, st: PollState, limit: int): seq<Alert> {
    FeedAlerts(LastN(st.history, size), wanted, st.cursor, limit)
  }

  function PollStep(size: nat, wanted: Alert -> bool, st: PollState, e: PollEvent): PollState {
    match e
    case Publish(a) => st.(history := st.history + [a])
    case Poll(limit) =>
      var f := Delivery(size, wanted, st, limit);
      PollState(st.history, MaxNumber(f, st.cursor), st.delivered + f, |st.history|)
  }

  const FIRST_POLL := PollState([], 0, [], 0)

  function AfterPolls(size: nat, wanted: Alert -> bool, events: seq<PollEvent>): PollState {
    if |events| == 0 then FIRST_POLL
    else PollStep(size, wanted, AfterPolls(size, wanted, events[..|events| - 1]), events[|events| - 1])
  }

  /** The store numbers the alerts it raises 1, 2, 3 and so on. */
  ghost predicate NumberedRun(size: nat, wanted: Alert -> bool, events: seq<PollEvent>) {
    forall i: nat :: i < |events| && events[i].Publish?
                     ==> events[i].alert.number == |AfterPolls(size, wanted, events[..i]).history| + 1
  }

  ghost predicate DistinctNumbers(alerts: seq<Alert>) {
    forall i, j :: 0 <= i < j < |alerts| ==> alerts[i].number != alerts[j].number
  }

  /** What holds after every run: numbering, and no delivery above the cursor or twice. */
  ghost predicate Polled(wanted: Alert -> bool, st: PollState) {
    && Numbered(st.history) && 0 <= st.cursor <= st.polled <= |st.history| && DistinctNumbers(st.delivered)
    && forall a :: a in st.delivered ==> DeliveredOk(wanted, st.history, st.cursor, a)
  }

  /** The alert is wanted, was raised, and does not lie above the cursor. */
  ghost predicate DeliveredOk(wanted: Alert -> bool, history: seq<Alert>, cursor: int, a: Alert) {
    1 <= a.number <= cursor && a.number <= |history| && history[a.number - 1] == a && wanted(a)
  }

  lemma NumberedAscends(h: seq<Alert>, size: nat)
    requires Numbered(h)
    ensures Ascending(LastN(h, size))
    ensures forall a :: a in LastN(h, size) ==> 1 <= a.number <= |h| && h[a.number - 1] == a
  {
    var b := LastN(h, size);
    forall i | 0 <= i < |b| ensures b[i] == h[|h| - |b| + i] {
    }
  }

  lemma DeliveredIsOk(wanted: Alert -> bool, h: seq<Alert>, size: nat, f: seq<Alert>, since: int, cursor: int)
    requires Numbered(h) && since >= 0
    requires forall a :: a in f ==> a in LastN(h, size) && Pending(wanted, since)(a) && a.number <= cursor
    ensures forall a :: a in f ==> DeliveredOk(wanted, h, cursor, a) && since < a.number
  {
    NumberedAscends(h, size);
  }

  /** What a single poll delivers: new, wanted alerts of the history, newest first, between the cursors. */
  lemma DeliveryIsNew(size: nat, wanted: Alert -> bool, st: PollState, limit: int)
    requires Polled(wanted, st)
    ensures var f := Delivery(size, wanted, st, limit);
            && NewestFirst(f) && st.cursor <= MaxNumber(f, st.cursor) <= |st.history|
            && (forall a :: a in f ==> DeliveredOk(wanted, st.history, MaxNumber(f, st.cursor), a))
            && (forall a :: a in f ==> st.cursor < a.number)
  {
    NumberedAscends(st.history, size);
    FeedIsOrdered(LastN(st.history, size), wanted, st.cursor, limit);
    var f := Delivery(size, wanted, st, limit);
    DeliveredIsOk(wanted, st.history, size, f, st.cursor, MaxNumber(f, st.cursor));
  }

  lemma PollKeeps(size: nat, wanted: Alert -> bool, st: PollState, limit: int)
    requires Polled(wanted, st)
    ensures Polled(wanted, PollStep(size, wanted, st, Poll(limit)))
    ensures st.cursor <= PollStep(size, wanted, st, Poll(limit)).cursor
  {
    DeliveryIsNew(size, wanted, st, limit);
    var st', f := PollStep(size, wanted, st, Poll(limit)), Delivery(size, wanted, st, limit);
    forall a | a in st'.delivered ensures DeliveredOk(wanted, st'.history, st'.cursor, a) {
      if a !in f {
        assert DeliveredOk(wanted, st.history, st.cursor, a);
      }
    }
    forall i, j | 0 <= i < |st.delivered| && 0 <= j < |f| ensures st.delivered[i].number < f[j].number {
      assert st.delivered[i] in st.delivered && f[j] in f;
    }
  }

  /**
   * Over every interleaving of raised alerts and polls no alert is delivered twice, the cursor never decreases,
   * and everything delivered was raised and wanted.
   */
  lemma {:induction false} PollingNeverDuplicates(size: nat, wanted: Alert -> bool, events: seq<PollEvent>)
    requires NumberedRun(size, wanted, events)
    ensures Polled(wanted, AfterPolls(size, wanted, events))
    ensures |events| > 0 ==>
              AfterPolls(size, wanted, events[..|events| - 1]).cursor <= AfterPolls(size, wanted, events).cursor
  {
    if |events| > 0 {
      var front := events[..|events| - 1];
      RunFront(size, wanted, events);
      PollingNeverDuplicates(size, wanted, front);
      var e := events[|events| - 1];
      if e.Poll? {
        PollKeeps(size, wanted, AfterPolls(size, wanted, front), e.limit);
      }
    }
  }

  // ---------------------------------------------------------------- nothing is lost

  /** A poll delivers exactly the newest pending alerts that the buffer still holds. */
  lemma DeliveryIsNewestPending(size: nat, wanted: Alert -> bool, st: PollState, limit: int)
    ensures Delivery(size, wanted, st, limit)
            == Reverse(LastN(Filter(Pending(wanted, st.cursor), LastN(st.history, size)), Most(limit)))
  {
    var b := LastN(st.history, size);
    FilterReverse(Pending(wanted, st.cursor), b);
    FirstOfReverse(Filter(Pending(wanted, st.cursor), b), Most(limit));
  }

  lemma {:induction false} FirstOfReverse(s: seq<Alert>, n: nat)
    ensures FirstN(Reverse(s), n) == Reverse(LastN(s, n))
  {
  }

  /** The poll delivers every wanted alert above the cursor. */
  ghost predicate LossFree(size: nat, wanted: Alert -> bool, st: PollState, limit: int) {
    forall a :: a in st.history && Pending(wanted, st.cursor)(a) ==> a in Delivery(size, wanted, st, limit)
  }

  /** No pending alert left the buffer unseen, and no more are pending than the limit allows. */
  ghost predicate Fits(size: nat, wanted: Alert -> bool, st: PollState, limit: int) {
    && (forall a :: a in st.history[..|st.history| - |LastN(st.history, size)|] ==> !Pending(wanted, st.cursor)(a))
    && |Filter(Pending(wanted, st.cursor), st.history)| <= Most(limit)
  }

  lemma {:induction false} PendingInBuffer(size: nat, p: Alert -> bool, h: seq<Alert>)
    requires forall a :: a in h[..|h| - |LastN(h, size)|] ==> !p(a)
    ensures Filter(p, h) == Filter(p, LastN(h, size))
  {
    var k := |h| - |LastN(h, size)|;
    assert h == h[..k] + LastN(h, size);
    FilterAppend(p, h[..k], LastN(h, size));
    FilterNonePass(p, h[..k]);
  }

  lemma EvictedIsNotBuffered(size: nat, h: seq<Alert>, a: Alert)
    requires Numbered(h) && a in h[..|h| - |LastN(h, size)|]
    ensures a !in LastN(h, size)
  {
    var k := |h| - |LastN(h, size)|;
    var i :| 0 <= i < k && h[..k][i] == a;
    assert h[i] == a && a.number == i + 1;
    forall j | 0 <= j < |LastN(h, size)| ensures LastN(h, size)[j] != a {
      assert LastN(h, size)[j] == h[k + j] && h[k + j].number == k + j + 1;
    }
  }

  lemma OldestIsCut(pending: seq<Alert>, n: nat)
    requires Ascending(pending) && |pending| > n
    ensures pending[0] !in Reverse(LastN(pending, n))
  {
    var r := Reverse(LastN(pending, n));
    forall i | 0 <= i < |r| ensures r[i] != pending[0] {
      assert r[i] == pending[|pending| - 1 - i];
    }
  }

  /** A poll loses nothing exactly when the pending alerts fit buffer and limit. */
  lemma {:induction false} LossFreeIffFits(size: nat, wanted: Alert -> bool, st: PollState, limit: int)
    requires Numbered(st.history)
    ensures LossFree(size, wanted, st, limit) <==> Fits(size, wanted, st, limit)
  {
    if Fits(size, wanted, st, limit) {
      FitsIsLossFree(size, wanted, st, limit);
    }
    if LossFree(size, wanted, st, limit) {
      LossFreeEvictsNothing(size, wanted, st, limit);
      LossFreeIsWithinLimit(size, wanted, st, limit);
    }
  }

  lemma {:induction false} FitsIsLossFree(size: nat, wanted: Alert -> bool, st: PollState, limit: int)
    requires Fits(size, wanted, st, limit)
    ensures LossFree(size, wanted, st, limit)
  {
    var p, h, b := Pending(wanted, st.cursor), st.history, LastN(st.history, size);
    DeliveryIsNewestPending(size, wanted, st, limit);
    FilterMembers(p, h);
    PendingInBuffer(size, p, h);
    ReverseMembers(Filter(p, b));
  }

  lemma {:induction false} LossFreeEvictsNothing(size: nat, wanted: Alert -> bool, st: PollState, limit: int)
    requires Numbered(st.history) && LossFree(size, wanted, st, limit)
    ensures var h := st.history;
            forall a :: a in h[..|h| - |LastN(h, size)|] ==> !Pending(wanted, st.cursor)(a)
  {
    var p, h := Pending(wanted, st.cursor), st.history;
    forall a | a in h[..|h| - |LastN(h, size)|] ensures !p(a) {
      EvictedIsNotBuffered(size, h, a);
      if p(a) {
        DeliveredIsBuffered(size, wanted, st, limit, a);
      }
    }
  }

  lemma {:induction false} LossFreeIsWithinLimit(size: nat, wanted: Alert -> bool, st: PollState, limit: int)
    requires Numbered(st.history) && LossFree(size, wanted, st, limit)
    requires var h := st.history;
             forall a :: a in h[..|h| - |LastN(h, size)|] ==> !Pending(wanted, st.cursor)(a)
    ensures |Filter(Pending(wanted, st.cursor), st.history)| <= Most(limit)
  {
    var p, h, b := Pending(wanted, st.cursor), st.history, LastN(st.history, size);
    DeliveryIsNewestPending(size, wanted, st, limit);
    FilterMembers(p, h);
    PendingInBuffer(size, p, h);
    NumberedAscends(h, size);
    FilterAscends(p, b);
    if |Filter(p, b)| > Most(limit) {
      assert Filter(p, h)[0] in Filter(p, h);
      OldestIsCut(Filter(p, b), Most(limit));
    }
  }

  lemma {:induction false} ReverseMembers(s: seq<Alert>)
    ensures forall a :: a in s ==> a in Reverse(s)
  {
    forall a | a in s ensures a in Reverse(s) {
      var i :| 0 <= i < |s| && s[i] == a;
      assert Reverse(s)[|s| - 1 - i] == a;
    }
  }

  lemma DeliveredIsBuffered(size: nat, wanted: Alert -> bool, st: PollState, limit: int, a: Alert)
    requires a in Delivery(size, wanted, st, limit)
    ensures a in LastN(st.history, size)
  {
    var p, b := Pending(wanted, st.cursor), LastN(st.history, size);
    DeliveryIsNewestPending(size, wanted, st, limit);
    FilterMembers(p, b);
    assert a in Filter(p, b);
  }

  /** Every poll of the run loses nothing. */
  ghost predicate AllLossFree(size: nat, wanted: Alert -> bool, events: seq<PollEvent>) {
    |events| > 0 ==>
      && AllLossFree(size, wanted, events[..|events| - 1])
      && (events[|events| - 1].Poll? ==>
            LossFree(size, wanted, AfterPolls(size, wanted, events[..|events| - 1]), events[|events| - 1].limit))
  }

  /** At every poll of the run nothing pending had left the buffer unseen, and no more was pending than its limit. */
  ghost predicate AllFit(size: nat, wanted: Alert -> bool, events: seq<PollEvent>) {
    |events| > 0 ==>
      && AllFit(size, wanted, events[..|events| - 1])
      && (events[|events| - 1].Poll? ==>
            Fits(size, wanted, AfterPolls(size, wanted, events[..|events| - 1]), events[|events| - 1].limit))
  }

  lemma {:induction false} AllLossFreeIffAllFit(size: nat, wanted: Alert -> bool, events: seq<PollEvent>)
    requires NumberedRun(size, wanted, events)
    ensures AllLossFree(size, wanted, events) <==> AllFit(size, wanted, events)
  {
    if |events| > 0 {
      var front, e := events[..|events| - 1], events[|events| - 1];
      RunFront(size, wanted, events);
      AllLossFreeIffAllFit(size, wanted, front);
      if e.Poll? {
        PollingNeverDuplicates(size, wanted, front);
        LossFreeIffFits(size, wanted, AfterPolls(size, wanted, front), e.limit);
      }
    }
  }

  /** Every wanted alert raised before the last poll has been delivered. */
  ghost predicate Caught(wanted: Alert -> bool, st: PollState)
    requires st.polled <= |st.history|
  {
    forall a :: a in st.history[..st.polled] && wanted(a) ==> a in st.delivered
  }

  /** A wanted alert that a poll passed over is gone: below the cursor or out of the buffer. */
  ghost predicate MissedStaysMissed(size: nat, wanted: Alert -> bool, st: PollState)
    requires st.polled <= |st.history|
  {
    forall a :: a in st.history[..st.polled] && wanted(a) && a !in st.delivered ==>
      a.number <= st.cursor || a !in LastN(st.history, size)
  }

  lemma NewestOfPending(pending: seq<Alert>, n: nat, a: Alert)
    requires Ascending(pending) && a in pending && n > 0
    ensures var f := Reverse(LastN(pending, n)); |f| > 0 && a.number <= f[0].number
  {
    var i :| 0 <= i < |pending| && pending[i] == a;
    assert Reverse(LastN(pending, n))[0] == pending[|pending| - 1];
  }

  lemma PassedOver(size: nat, wanted: Alert -> bool, st: PollState, limit: int, a: Alert)
    requires Polled(wanted, st) && Pending(wanted, st.cursor)(a) && a in LastN(st.history, size)
    ensures a.number <= MaxNumber(Delivery(size, wanted, st, limit), st.cursor)
  {
    var p, b := Pending(wanted, st.cursor), LastN(st.history, size);
    DeliveryIsNew(size, wanted, st, limit);
    DeliveryIsNewestPending(size, wanted, st, limit);
    FilterMembers(p, b);
    NumberedAscends(st.history, size);
    FilterAscends(p, b);
    NewestOfPending(Filter(p, b), Most(limit), a);
    NewestIsMax(Delivery(size, wanted, st, limit), st.cursor);
  }

  lemma MissedStep(size: nat, wanted: Alert -> bool, st: PollState, limit: int)
    requires Polled(wanted, st)
    ensures MissedStaysMissed(size, wanted, PollStep(size, wanted, st, Poll(limit)))
  {
    var st' := PollStep(size, wanted, st, Poll(limit));
    DeliveryIsNew(size, wanted, st, limit);
    forall a | a in st.history && wanted(a) && a in LastN(st.history, size) ensures a.number <= st'.cursor {
      if a.number > st.cursor {
        PassedOver(size, wanted, st, limit, a);
      }
    }
  }

  lemma PublishMisses(size: nat, wanted: Alert -> bool, st: PollState, x: Alert)
    requires Polled(wanted, st) && MissedStaysMissed(size, wanted, st) && x.number == |st.history| + 1
    ensures MissedStaysMissed(size, wanted, PollStep(size, wanted, st, Publish(x)))
    ensures Caught(wanted, PollStep(size, wanted, st, Publish(x))) <==> Caught(wanted, st)
  {
    var h := st.history;
    assert (h + [x])[..st.polled] == h[..st.polled];
    LastNSnoc(h, x, size);
    forall a | a in h[..st.polled] && a !in LastN(h, size) ensures a !in LastN(h + [x], size) {
      assert a.number <= |h|;
    }
  }

  lemma CaughtStep(size: nat, wanted: Alert -> bool, st: PollState, limit: int)
    requires Polled(wanted, st) && MissedStaysMissed(size, wanted, st)
    ensures Caught(wanted, PollStep(size, wanted, st, Poll(limit)))
            <==> Caught(wanted, st) && LossFree(size, wanted, st, limit)
  {
    var st', f := PollStep(size, wanted, st, Poll(limit)), Delivery(size, wanted, st, limit);
    DeliveryIsNew(size, wanted, st, limit);
    assert st.history[..|st.history|] == st.history;
    if Caught(wanted, st) && LossFree(size, wanted, st, limit) {
      forall a | a in st.history && wanted(a) ensures a in st'.delivered {
        var i :| 0 <= i < |st.history| && st.history[i] == a;
        assert a.number <= st.cursor ==> st.history[..st.polled][i] == a;
      }
    }
    if Caught(wanted, st') {
      forall a | a in st.history && Pending(wanted, st.cursor)(a) ensures a in f {
        assert a in st'.delivered;
      }
      forall a | a in st.history[..st.polled] && wanted(a) ensures a in st.delivered {
        assert a in st'.delivered;
        if a in f {
          DeliveredIsBuffered(size, wanted, st, limit, a);
        }
      }
    }
  }

  /**
   * Over every run, the alerts raised before the last poll have all been delivered, each exactly once, if and only
   * if every poll found at most its limit of pending alerts and none of them evicted.
   */
  lemma {:induction false} NothingLostIffEveryPollFits(size: nat, wanted: Alert -> bool, events: seq<PollEvent>)
    requires NumberedRun(size, wanted, events)
    ensures Polled(wanted, AfterPolls(size, wanted, events))
    ensures Caught(wanted, AfterPolls(size, wanted, events)) <==> AllFit(size, wanted, events)
  {
    CaughtIffAllLossFree(size, wanted, events);
    AllLossFreeIffAllFit(size, wanted, events);
  }

  lemma {:induction false} CaughtIffAllLossFree(size: nat, wanted: Alert -> bool, events: seq<PollEvent>)
    requires NumberedRun(size, wanted, events)
    ensures Polled(wanted, AfterPolls(size, wanted, events))
    ensures MissedStaysMissed(size, wanted, AfterPolls(size, wanted, events))
    ensures Caught(wanted, AfterPolls(size, wanted, events)) <==> AllLossFree(size, wanted, events)
  {
    PollingNeverDuplicates(size, wanted, events);
    if |events| > 0 {
      var front, e := events[..|events| - 1], events[|events| - 1];
      RunFront(size, wanted, events);
      CaughtIffAllLossFree(size, wanted, front);
      var st := AfterPolls(size, wanted, front);
      match e
      case Publish(x) =>
        PublishMisses(size, wanted, st, x);
      case Poll(limit) =>
        MissedStep(size, wanted, st, limit);
        CaughtStep(size, wanted, st, limit);
    }
  }

  lemma RunFront(size: nat, wanted: Alert -> bool, events: seq<PollEvent>)
    requires |events| > 0 && NumberedRun(size, wanted, events)
    ensures NumberedRun(size, wanted, events[..|events| - 1])
  {
    var front := events[..|events| - 1];
    forall i: nat | i < |front| && front[i].Publish?
      ensures front[i].alert.number == |AfterPolls(size, wanted, front[..i]).history| + 1 {
      assert front[..i] == events[..i];
    }
  }

  // ---------------------------------------------------------------- the alerts that are published

  /** The alerts that the events publish, in order. */
  function Published(events: seq<PollEvent>): seq<Alert> {
    if |events| == 0 then []
    else
      var before, e := Published(events[..|events| - 1]), events[|events| - 1];
      if e.Publish? then before + [e.alert] else before
  }

  lemma {:induction false} HistoryIsPublished(size: nat, wanted: Alert -> bool, events: seq<PollEvent>)
    ensures AfterPolls(size, wanted, events).history == Published(events)
  {
    if |events| > 0 {
      HistoryIsPublished(size, wanted, events[..|events| - 1]);
    }
  }

  lemma {:induction false} PublishedPrefix(events: seq<PollEvent>, n: nat)
    requires n <= |events|
    ensures Published(events[..n]) <= Published(events)
    decreases |events|
  {
    if n < |events| {
      PublishedPrefix(events[..|events| - 1], n);
      assert events[..|events| - 1][..n] == events[..n];
    } else {
      assert events[..n] == events;
    }
  }

  /** Alerts that are published in the order of their numbers make a numbered run. */
  lemma {:induction false} NumberedAlertsNumberTheRun(size: nat, wanted: Alert -> bool, events: seq<PollEvent>)
    requires Numbered(Published(events))
    ensures NumberedRun(size, wanted, events)
  {
    forall i: nat | i < |events| && events[i].Publish?
      ensures events[i].alert.number == |AfterPolls(size, wanted, events[..i]).history| + 1
    {
      HistoryIsPublished(size, wanted, events[..i]);
      PublishedPrefix(events, i + 1);
      assert events[..i + 1][..i] == events[..i];
      assert Published(events[..i + 1]) == Published(events[..i]) + [events[i].alert];
      assert Published(events)[|Published(events[..i])|] == events[i].alert;
    }
  }
}
