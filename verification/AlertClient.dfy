/** The browser's side of the alert feed: merging deliveries into a bounded list and checking their order. */
module AlertClient {
  import opened Wrappers
  import opened Seqs
  import opened Ordering
  import opened AlertModels
  import opened AlertStore
  import opened AlertFeed

  predicate NewerOrSame(a: Alert, b: Alert) {
    a.number >= b.number
  }

  predicate HasId(alerts: seq<Alert>, id: string) {
    exists i :: 0 <= i < |alerts| && alerts[i].id == id
  }

  /** The first alert of each id, in order. */
  function FirstOfEachId(alerts: seq<Alert>): seq<Alert> {
    if |alerts| == 0 then []
    else
      var kept, last := FirstOfEachId(alerts[..|alerts| - 1]), alerts[|alerts| - 1];
      if HasId(kept, last.id) then kept else kept + [last]
  }

  function Merged(existing: seq<Alert>, incoming: seq<Alert>, max: nat): seq<Alert> {
    FirstN(Sort(NewerOrSame, FirstOfEachId(incoming + existing)), max)
  }

  /** Fills a map by id, the incoming alerts first, then sorts by sequence number and cuts. */
  method MergeAlerts(existing: seq<Alert>, incoming: seq<Alert>, max: nat) returns (merged: seq<Alert>)
    ensures merged == Merged(existing, incoming, max)
  {
    var all := incoming + existing;
    var values: seq<Alert> := [];
    for i := 0 to |all|
      invariant values == FirstOfEachId(all[..i])
    {
      assert all[..i + 1][..i] == all[..i];
      if !HasId(values, all[i].id) {
        values := values + [all[i]];
      }
    }
    assert all[..|all|] == all;
    merged := FirstN(Sort(NewerOrSame, values), max);
  }

  datatype FeedProblem = NOT_NEWEST_FIRST | CURSOR_BEHIND

  /** The problem of the alert at `i`: its place behind the one before is checked first, then the cursor. */
  function ProblemAt(alerts: seq<Alert>, nextCursor: int, i: nat): Option<FeedProblem>
    requires i < |alerts|
  {
    if i > 0 && alerts[i].number >= alerts[i - 1].number then Some(NOT_NEWEST_FIRST)
    else if alerts[i].number > nextCursor then Some(CURSOR_BEHIND)
    else None
  }

  /** The alert at `i` is the first with a problem. */
  ghost predicate IsFirstProblem(alerts: seq<Alert>, nextCursor: int, i: nat, problem: FeedProblem) {
    && i < |alerts| && ProblemAt(alerts, nextCursor, i) == Some(problem)
    && forall k: nat :: k < i ==> ProblemAt(alerts, nextCursor, k) == None
  }

  /** The client's order and cursor checks of a feed. */
  method CheckOrder(alerts: seq<Alert>, nextCursor: int) returns (problem: Option<FeedProblem>)
    ensures problem == None <==> NewestFirst(alerts) && forall i :: 0 <= i < |alerts| ==> alerts[i].number <= nextCursor
    ensures problem.Some? ==> exists i :: IsFirstProblem(alerts, nextCursor, i, problem.value)
  {
    var previous: Option<int> := None;
    for i := 0 to |alerts|
      invariant previous == if i == 0 then None else Some(alerts[i - 1].number)
      invariant NewestFirst(alerts[..i]) && forall k :: 0 <= k < i ==> alerts[k].number <= nextCursor
      invariant forall k: nat :: k < i ==> ProblemAt(alerts, nextCursor, k) == None
    {
      if previous.Some? && alerts[i].number >= previous.value {
        assert alerts[i - 1].number <= alerts[i].number;
        assert IsFirstProblem(alerts, nextCursor, i, NOT_NEWEST_FIRST);
        return Some(NOT_NEWEST_FIRST);
      }
      if alerts[i].number > nextCursor {
        assert IsFirstProblem(alerts, nextCursor, i, CURSOR_BEHIND);
        return Some(CURSOR_BEHIND);
      }
      previous := Some(alerts[i].number);
      assert forall k :: 0 <= k < i ==> alerts[..i][k] == alerts[k];
    }
    problem := None;
    assert alerts[..|alerts|] == alerts;
  }

  /** Every feed that the service builds passes the client's order and cursor checks. */
  lemma {:induction false} ServiceFeedPasses(h: seq<Alert>, size: nat, wanted: Alert -> bool, since: int, limit: int)
    requires Numbered(h)
    ensures var f := FeedAlerts(LastN(h, size), wanted, since, limit);
            NewestFirst(f) && forall i :: 0 <= i < |f| ==> f[i].number <= MaxNumber(f, since)
  {
    NumberedAscends(h, size);
    FeedIsOrdered(LastN(h, size), wanted, since, limit);
    var f := FeedAlerts(LastN(h, size), wanted, since, limit);
    forall i | 0 <= i < |f| ensures f[i].number <= MaxNumber(f, since) {
      assert f[i] in f;
    }
  }

  // ---------------------------------------------------------------- the list is the top of all deliveries

  /** Id and sequence number identify an alert. */
  ghost predicate Coherent(alerts: seq<Alert>) {
    forall a, b :: a in alerts && b in alerts && (a.id == b.id || a.number == b.number) ==> a == b
  }

  /** `top` lists the `k` alerts of `all` with the highest numbers, newest first, each once. */
  ghost predicate IsTop(top: seq<Alert>, all: seq<Alert>, k: nat) {
    && NewestFirst(top) && |top| <= k && (forall a :: a in top ==> a in all)
    && forall a :: a in all && a !in top ==> |top| == k && forall b :: b in top ==> b.number > a.number
  }

  lemma {:induction false} FirstOfEachIdKeeps(alerts: seq<Alert>)
    requires Coherent(alerts)
    ensures var kept := FirstOfEachId(alerts);
            && (forall a :: a in kept <==> a in alerts)
            && Distinct(kept) && Coherent(kept)
  {
    if |alerts| != 0 {
      var front, last := alerts[..|alerts| - 1], alerts[|alerts| - 1];
      FrontLast(alerts);
      assert forall a :: a in front ==> a in alerts;
      FirstOfEachIdKeeps(front);
      var kept := FirstOfEachId(front);
      if HasId(kept, last.id) {
        var i :| 0 <= i < |kept| && kept[i].id == last.id;
        assert kept[i] in front && last in alerts;
      }
    }
  }

  /** Every id that is listed is kept. */
  lemma {:induction false} EveryIdIsKept(alerts: seq<Alert>, id: string)
    requires HasId(alerts, id)
    ensures HasId(FirstOfEachId(alerts), id)
  {
    var front, last := alerts[..|alerts| - 1], alerts[|alerts| - 1];
    var i :| 0 <= i < |alerts| && alerts[i].id == id;
    if i < |front| {
      assert front[i].id == id;
      EveryIdIsKept(front, id);
    }
    IdStays(FirstOfEachId(front), last, id);
  }

  /** Of alerts under one id the first is kept. */
  lemma {:induction false} FirstCopyIsKept(alerts: seq<Alert>, a: Alert)
    requires a in FirstOfEachId(alerts)
    ensures IsFirstCopy(alerts, a)
  {
    var front, last := alerts[..|alerts| - 1], alerts[|alerts| - 1];
    FrontLast(alerts);
    if a in FirstOfEachId(front) {
      FirstCopyIsKept(front, a);
    } else {
      forall j | 0 <= j < |front| ensures front[j].id != last.id {
        if front[j].id == last.id {
          EveryIdIsKept(front, last.id);
        }
      }
    }
    FirstCopyStep(front, last, a);
  }

  lemma IdStays(kept: seq<Alert>, last: Alert, id: string)
    ensures HasId(kept, id) ==> HasId(kept + [last], id)
    ensures HasId(kept + [last], last.id)
  {
    if HasId(kept, id) {
      var i :| 0 <= i < |kept| && kept[i].id == id;
      assert (kept + [last])[i].id == id;
    }
    assert (kept + [last])[|kept|].id == last.id;
  }

  /** The alert is the first one listed under its id. */
  ghost predicate IsFirstCopy(alerts: seq<Alert>, a: Alert) {
    exists i :: 0 <= i < |alerts| && alerts[i] == a && forall j :: 0 <= j < i ==> alerts[j].id != a.id
  }

  lemma FirstCopyStep(front: seq<Alert>, last: Alert, a: Alert)
    requires IsFirstCopy(front, a) || (a == last && forall j :: 0 <= j < |front| ==> front[j].id != a.id)
    ensures IsFirstCopy(front + [last], a)
  {
    var alerts := front + [last];
    if IsFirstCopy(front, a) {
      var i :| 0 <= i < |front| && front[i] == a && forall j :: 0 <= j < i ==> front[j].id != a.id;
      assert alerts[i] == a && forall j :: 0 <= j < i ==> alerts[j].id != a.id;
    } else {
      assert alerts[|front|] == a && forall j :: 0 <= j < |front| ==> alerts[j].id != a.id;
    }
  }

  lemma {:induction false} MergedIsFirstCopy(existing: seq<Alert>, incoming: seq<Alert>, max: nat, a: Alert)
    requires a in Merged(existing, incoming, max)
    ensures IsFirstCopy(incoming + existing, a)
  {
    var kept := FirstOfEachId(incoming + existing);
    SortPermutes(NewerOrSame, kept);
    assert a in multiset(Sort(NewerOrSame, kept));
    FirstCopyIsKept(incoming + existing, a);
  }

  /** An alert that both lists hold under one id is the incoming one in the merged list. */
  lemma {:induction false} IncomingWins(existing: seq<Alert>, incoming: seq<Alert>, max: nat, a: Alert)
    requires a in Merged(existing, incoming, max)
    ensures IsFirstCopy(incoming + existing, a)
    ensures HasId(incoming, a.id) ==> a in incoming
  {
    MergedIsFirstCopy(existing, incoming, max, a);
    if HasId(incoming, a.id) {
      FirstIsIncoming(incoming, existing, a);
    }
  }

  lemma FirstIsIncoming(incoming: seq<Alert>, existing: seq<Alert>, a: Alert)
    requires IsFirstCopy(incoming + existing, a) && HasId(incoming, a.id)
    ensures a in incoming
  {
    var all := incoming + existing;
    var i :| 0 <= i < |all| && all[i] == a && forall j :: 0 <= j < i ==> all[j].id != a.id;
    var j :| 0 <= j < |incoming| && incoming[j].id == a.id;
    assert all[j] == incoming[j] && i <= j && all[i] == incoming[i];
  }

  lemma NumbersAreTotal()
    ensures TotalPreorder(NewerOrSame)
  {
  }

  /** Sorting distinct coherent alerts puts them strictly newest first. */
  lemma {:induction false} SortedIsNewestFirst(alerts: seq<Alert>)
    requires Coherent(alerts) && Distinct(alerts)
    ensures var s := Sort(NewerOrSame, alerts); NewestFirst(s) && forall a :: a in s <==> a in alerts
  {
    NumbersAreTotal();
    SortSorts(NewerOrSame, alerts);
    SortPermutes(NewerOrSame, alerts);
    SortedDistinctIsNewestFirst(alerts, Sort(NewerOrSame, alerts));
  }

  lemma SortedDistinctIsNewestFirst(alerts: seq<Alert>, s: seq<Alert>)
    requires Coherent(alerts) && Distinct(alerts) && multiset(s) == multiset(alerts) && Sorted(NewerOrSame, s)
    ensures NewestFirst(s) && forall a :: a in s <==> a in alerts
  {
    PermutedDistinct(alerts, s);
    forall a ensures a in s <==> a in alerts {
      assert a in multiset(s) <==> a in multiset(alerts);
    }
    forall i, j | 0 <= i < j < |s| ensures s[i].number > s[j].number {
      assert s[i] in alerts && s[j] in alerts && NewerOrSame(s[i], s[j]);
    }
  }

  lemma CutIsTop(s: seq<Alert>, k: nat)
    requires NewestFirst(s)
    ensures IsTop(FirstN(s, k), s, k)
  {
    var t := FirstN(s, k);
    forall a | a in s && a !in t ensures |t| == k && forall b :: b in t ==> b.number > a.number {
      assert forall k :: 0 <= k < |t| ==> t[k] == s[k] && t[k] in t;
      var i :| 0 <= i < |s| && s[i] == a;
    }
  }

  /** The merged list is the top of both inputs together. */
  lemma MergeIsTop(existing: seq<Alert>, incoming: seq<Alert>, k: nat)
    requires Coherent(incoming + existing)
    ensures IsTop(Merged(existing, incoming, k), incoming + existing, k)
  {
    var all := incoming + existing;
    FirstOfEachIdKeeps(all);
    SortedIsNewestFirst(FirstOfEachId(all));
    CutIsTop(Sort(NewerOrSame, FirstOfEachId(all)), k);
  }

  /** The top of the top of `old'` and more alerts is the top of all of them. */
  lemma TopOfTop(top: seq<Alert>, old': seq<Alert>, more: seq<Alert>, merged: seq<Alert>, k: nat)
    requires IsTop(top, old', k) && IsTop(merged, more + top, k)
    ensures IsTop(merged, old' + more, k)
  {
    forall a | a in merged ensures a in old' + more {
      assert a in more + top;
    }
    forall a | a in old' + more && a !in merged
      ensures |merged| == k && forall b :: b in merged ==> b.number > a.number {
      if a in more || a in top {
        assert a in more + top;
      } else {
        BelowFullTop(top, more, merged, k, a);
      }
    }
  }

  lemma NewestFirstIsDistinct(s: seq<Alert>)
    requires NewestFirst(s)
    ensures Distinct(s)
  {
  }

  /** An alert below a full top list is below everything that a merge of that list keeps. */
  lemma BelowFullTop(top: seq<Alert>, more: seq<Alert>, merged: seq<Alert>, k: nat, a: Alert)
    requires NewestFirst(top) && |top| == k && (forall b :: b in top ==> b.number > a.number)
    requires IsTop(merged, more + top, k)
    ensures |merged| == k && forall b :: b in merged ==> b.number > a.number
  {
    if c :| c in top && c !in merged {
      assert c in more + top;
    } else {
      NewestFirstIsDistinct(top);
      DistinctIsShorter(top, merged);
      forall b | b in merged ensures b.number > a.number {
        if b !in top {
          DistinctIsShorter(top + [b], merged);
        }
      }
    }
  }

  // ---------------------------------------------------------------- whole runs

  /** A polling client and its list. */
  function ClientList(size: nat, wanted: Alert -> bool, events: seq<PollEvent>, max: nat): seq<Alert> {
    if |events| == 0 then []
    else
      var front, e := events[..|events| - 1], events[|events| - 1];
      var list := ClientList(size, wanted, front, max);
      if e.Poll? then Merged(list, Delivery(size, wanted, AfterPolls(size, wanted, front), e.limit), max) else list
  }

  /** Ids and numbers of the history identify its alerts. */
  lemma HistoryIsCoherent(h: seq<Alert>, part: seq<Alert>)
    requires Numbered(h) && IdsFollowNumbers(h)
    requires forall a :: a in part ==> 1 <= a.number <= |h| && h[a.number - 1] == a
    ensures Coherent(part)
  {
    forall a, b | a in part && b in part && (a.id == b.id || a.number == b.number) ensures a == b {
      assert a in h && b in h;
      if a.id == b.id {
        AlertIdInjective(a.number, b.number);
      }
    }
  }

  lemma {:induction false} ClientStep(
      size: nat, wanted: Alert -> bool, st: PollState, limit: int, list: seq<Alert>, max: nat)
    requires Polled(wanted, st) && IdsFollowNumbers(st.history) && IsTop(list, st.delivered, max)
    ensures var f := Delivery(size, wanted, st, limit);
            IsTop(Merged(list, f, max), st.delivered + f, max)
  {
    var f := Delivery(size, wanted, st, limit);
    DeliveryIsNew(size, wanted, st, limit);
    forall a | a in f + list ensures 1 <= a.number <= |st.history| && st.history[a.number - 1] == a {
      if a in f {
        assert DeliveredOk(wanted, st.history, MaxNumber(f, st.cursor), a);
      } else {
        assert a in st.delivered;
        assert DeliveredOk(wanted, st.history, st.cursor, a);
      }
    }
    HistoryIsCoherent(st.history, f + list);
    MergeIsTop(list, f, max);
    TopOfTop(list, st.delivered, f, Merged(list, f, max), max);
  }

  /**
   * After every run of raised alerts and polls the client's list is the top `max`, by sequence number, of
   * everything ever delivered to it: strictly newest first and without duplicates.
   */
  lemma {:induction false} ClientHoldsTheTop(size: nat, wanted: Alert -> bool, events: seq<PollEvent>, max: nat)
    requires NumberedRun(size, wanted, events) && IdsFollowNumbers(AfterPolls(size, wanted, events).history)
    ensures IsTop(ClientList(size, wanted, events, max), AfterPolls(size, wanted, events).delivered, max)
  {
    if |events| > 0 {
      var front, e := events[..|events| - 1], events[|events| - 1];
      RunFront(size, wanted, events);
      var st := AfterPolls(size, wanted, front);
      assert forall a :: a in st.history ==> a in AfterPolls(size, wanted, events).history;
      ClientHoldsTheTop(size, wanted, front, max);
      if e.Poll? {
        PollingNeverDuplicates(size, wanted, front);
        ClientStep(size, wanted, st, e.limit, ClientList(size, wanted, front, max), max);
      }
    }
  }
}
