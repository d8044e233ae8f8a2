/** Backward paging: an interval of candles rebuilt from "the latest N before t" queries. */
module BatchBacktest {
  import opened Seqs
  import opened Ordering

  datatype Bar = Bar(openTime: int, closeTime: int, price: real)

  /** A candle as a query shows it: closed when it closes no later than the time of the query. */
  datatype Candle = Candle(bar: Bar, isClosed: bool)

  /** Candles in order, each of positive length, none overlapping the next. */
  ghost predicate IsMarket(market: seq<Bar>) {
    && (forall i :: 0 <= i < |market| ==> market[i].openTime < market[i].closeTime)
    && (forall i, j :: 0 <= i < j < |market| ==> market[i].closeTime <= market[j].openTime)
  }

  /** How many candles open before `t`. */
  function Before(market: seq<Bar>, t: int): (n: nat)
    ensures n <= |market|
    ensures forall i :: n <= i < |market| ==> market[i].openTime >= t
    ensures n > 0 ==> market[n - 1].openTime < t
  {
    if |market| == 0 then 0
    else if market[|market| - 1].openTime < t then |market|
    else Before(market[..|market| - 1], t)
  }

  /** The latest `limit` candles that open before `t`, as the candle service loads them with `t` as the time. */
  function LoadSeries(market: seq<Bar>, limit: nat, t: int): seq<Candle> {
    Map(ShownAt(t), LastN(market[..Before(market, t)], limit))
  }

  function ShownAt(t: int): Bar -> Candle {
    (b: Bar) => Candle(b, b.closeTime <= t)
  }

  /** Candles inside the range. */
  function Inside(start: int, end: int): Bar -> bool {
    (b: Bar) => start <= b.openTime && b.closeTime <= end
  }

  /** How far back the queries reach: the index of the oldest candle that `chunks` queries can show. */
  function Reach(market: seq<Bar>, limit: nat, chunks: nat, end: int): (lo: nat)
    ensures lo <= Before(market, end)
  {
    if chunks == 0 then Before(market, end)
    else
      var lo := Reach(market, limit, chunks - 1, end);
      if lo <= limit then 0 else lo - limit
  }

  predicate OpenLeq(a: Bar, b: Bar) {
    a.openTime <= b.openTime
  }

  function IsFresh(start: int, end: int): Candle -> bool {
    (c: Candle) => c.isClosed && c.bar.closeTime <= end && c.bar.openTime >= start
  }

  function Unseen(seen: set<int>): Candle -> bool {
    (c: Candle) => c.bar.openTime !in seen
  }

  function BarOf(c: Candle): Bar {
    c.bar
  }

  function OpenTimes(cs: seq<Candle>): set<int> {
    set i | 0 <= i < |cs| :: cs[i].bar.openTime
  }

  function MinOpen(cs: seq<Candle>): (m: int)
    requires |cs| > 0
    ensures forall i :: 0 <= i < |cs| ==> m <= cs[i].bar.openTime
    ensures exists i :: 0 <= i < |cs| && m == cs[i].bar.openTime
  {
    if |cs| == 1 then cs[0].bar.openTime
    else
      var m, last := MinOpen(cs[..|cs| - 1]), cs[|cs| - 1].bar.openTime;
      if last < m then last else m
  }

  /** The newest candle before `end` has closed, or a query shows more than that one candle. */
  ghost predicate PagesPastForming(market: seq<Bar>, limit: nat, end: int) {
    var n := Before(market, end);
    limit >= 2 || n == 0 || market[n - 1].closeTime <= end
  }

  // ---------------------------------------------------------------- chunks

  /** The next query ends at `t` and sees the candles below index `lo`. */
  ghost predicate AtChunk(market: seq<Bar>, end: int, t: int, lo: nat) {
    var n := Before(market, end);
    lo <= n && t == if lo == n then end else market[lo].openTime
  }

  lemma {:induction false} BeforeIs(market: seq<Bar>, t: int, n: nat)
    requires n <= |market| && (n > 0 ==> market[n - 1].openTime < t)
    requires forall i :: n <= i < |market| ==> market[i].openTime >= t
    ensures Before(market, t) == n
  {
    if n < |market| {
      BeforeIs(market[..|market| - 1], t, n);
    }
  }

  lemma {:induction false} BeforeChunk(market: seq<Bar>, end: int, t: int, lo: nat)
    requires IsMarket(market) && AtChunk(market, end, t, lo)
    ensures Before(market, t) == lo
  {
    BeforeIs(market, t, lo);
  }

  /** The queries together reach `limit * chunks` candles. */
  lemma {:induction false} ReachIsProduct(market: seq<Bar>, limit: nat, chunks: nat, end: int)
    ensures var n := Before(market, end);
            Reach(market, limit, chunks, end) == if n <= limit * chunks then 0 else n - limit * chunks
  {
    if chunks > 0 {
      ReachIsProduct(market, limit, chunks - 1, end);
      assert limit * chunks == limit * (chunks - 1) + limit;
    }
  }

  lemma {:induction false} ReachDecreases(market: seq<Bar>, limit: nat, k: nat, chunks: nat, end: int)
    requires k <= chunks
    ensures Reach(market, limit, chunks, end) <= Reach(market, limit, k, end)
    decreases chunks
  {
    if k < chunks {
      ReachDecreases(market, limit, k, chunks - 1, end);
    }
  }

  /** What a query shows. */
  lemma ChunkShown(market: seq<Bar>, limit: nat, end: int, t: int, lo: nat, next: nat)
    requires IsMarket(market) && AtChunk(market, end, t, lo) && next == if lo <= limit then 0 else lo - limit
    ensures LoadSeries(market, limit, t) == Map(ShownAt(t), market[next..lo])
  {
    BeforeChunk(market, end, t, lo);
    assert LastN(market[..lo], limit) == market[next..lo];
  }

  /** The earliest open time of a chunk is that of its first candle. */
  lemma ChunkStart(market: seq<Bar>, t: int, next: nat, lo: nat)
    requires IsMarket(market) && next < lo <= |market|
    ensures MinOpen(Map(ShownAt(t), market[next..lo])) == market[next].openTime
  {
    var series := Map(ShownAt(t), market[next..lo]);
    assert series[0].bar == market[next];
    var i :| 0 <= i < |series| && MinOpen(series) == series[i].bar.openTime;
    assert series[i].bar == market[next + i];
  }

  lemma ChunkEndFalls(market: seq<Bar>, end: int, t: int, lo: nat, next: nat)
    requires IsMarket(market) && AtChunk(market, end, t, lo) && next < lo
    ensures market[next].openTime < t && AtChunk(market, end, market[next].openTime, next)
  {
    assert lo == Before(market, end) ==> market[next].openTime <= market[lo - 1].openTime;
  }

  /** The candles of a chunk that are kept. */
  function Kept(cs: seq<Candle>, start: int, end: int, seen: set<int>): seq<Bar> {
    Map(BarOf, Filter(Unseen(seen), Filter(IsFresh(start, end), cs)))
  }

  lemma KeptSnoc(cs: seq<Candle>, c: Candle, start: int, end: int, seen: set<int>)
    ensures Kept(cs + [c], start, end, seen)
            == if IsFresh(start, end)(c) && Unseen(seen)(c) then Kept(cs, start, end, seen) + [c.bar]
               else Kept(cs, start, end, seen)
  {
    var p, q := IsFresh(start, end), Unseen(seen);
    FilterSnoc(p, cs, c);
    if p(c) {
      FilterSnoc(q, Filter(p, cs), c);
      if q(c) {
        MapSnoc(BarOf, Filter(q, Filter(p, cs)), c);
      }
    }
  }

  lemma {:induction false} FreshBars(bars: seq<Bar>, start: int, end: int, t: int, seen: set<int>)
    requires forall i :: 0 <= i < |bars| && Inside(start, end)(bars[i]) ==>
               bars[i].closeTime <= t && bars[i].openTime !in seen
    ensures Kept(Map(ShownAt(t), bars), start, end, seen) == Filter(Inside(start, end), bars)
  {
    if |bars| != 0 {
      var front, last := bars[..|bars| - 1], bars[|bars| - 1];
      FreshBars(front, start, end, t, seen);
      FrontLast(bars);
      MapSnoc(ShownAt(t), front, last);
      KeptSnoc(Map(ShownAt(t), front), ShownAt(t)(last), start, end, seen);
    }
  }

  /** Of a chunk exactly the candles inside the range are kept: they have closed, and none was seen before. */
  lemma ChunkFresh(
      market: seq<Bar>, limit: nat, start: int, end: int, t: int, lo: nat, next: nat, seen: set<int>)
    requires IsMarket(market) && AtChunk(market, end, t, lo) && next == if lo <= limit then 0 else lo - limit
    requires forall x :: x in seen ==> lo < |market| && x >= market[lo].openTime
    ensures Kept(LoadSeries(market, limit, t), start, end, seen) == Filter(Inside(start, end), market[next..lo])
  {
    ChunkShown(market, limit, end, t, lo, next);
    ChunkIsOld(market, start, end, t, lo, next, seen);
    FreshBars(market[next..lo], start, end, t, seen);
  }

  /** A candle of the chunk that is inside the range has closed by the time of the query, and was not seen before. */
  lemma ChunkIsOld(market: seq<Bar>, start: int, end: int, t: int, lo: nat, next: nat, seen: set<int>)
    requires IsMarket(market) && AtChunk(market, end, t, lo) && next <= lo
    requires forall x :: x in seen ==> lo < |market| && x >= market[lo].openTime
    ensures var bars := market[next..lo];
            forall i :: 0 <= i < |bars| && Inside(start, end)(bars[i]) ==>
              bars[i].closeTime <= t && bars[i].openTime !in seen
  {
    forall i | next <= i < lo && Inside(start, end)(market[i])
      ensures market[i].closeTime <= t && market[i].openTime !in seen {
    }
  }

  /** No candle from index `a` up to `b` is inside the range. */
  ghost predicate NoneInside(market: seq<Bar>, start: int, end: int, a: nat, b: nat)
    requires a <= b <= |market|
  {
    forall i :: a <= i < b ==> !Inside(start, end)(market[i])
  }

  /** A chunk without a candle of the range has nothing of it behind it, unless it showed the forming candle only. */
  lemma {:induction false} NothingOlder(market: seq<Bar>, limit: nat, start: int, end: int, t: int, lo: nat, next: nat)
    requires IsMarket(market) && AtChunk(market, end, t, lo) && next == if lo <= limit then 0 else lo - limit
    requires Filter(Inside(start, end), market[next..lo]) == [] && limit >= 1
    requires lo == Before(market, end) ==> PagesPastForming(market, limit, end)
    ensures NoneInside(market, start, end, 0, next)
  {
    if next > 0 {
      FilterMembers(Inside(start, end), market[next..lo]);
      assert market[next] in market[next..lo];
      assert next + 1 < Before(market, end) ==> market[next + 1].openTime < end by {
        if next + 1 < Before(market, end) {
          assert market[next + 1].openTime <= market[Before(market, end) - 1].openTime;
        }
      }
      assert market[next].openTime < start;
    }
  }

  lemma OlderThanStart(market: seq<Bar>, start: int, end: int, next: nat)
    requires IsMarket(market) && next < |market| && market[next].openTime <= start
    ensures NoneInside(market, start, end, 0, next)
  {
  }

  /** The found candles grow by those of the chunk. */
  lemma FoundGrows(market: seq<Bar>, start: int, end: int, next: nat, lo: nat, n: nat, found: seq<Bar>)
    requires next <= lo <= n <= |market|
    requires multiset(found) == multiset(Filter(Inside(start, end), market[lo..n]))
    ensures multiset(found + Filter(Inside(start, end), market[next..lo]))
            == multiset(Filter(Inside(start, end), market[next..n]))
  {
    FilterAppend(Inside(start, end), market[next..lo], market[lo..n]);
    assert market[next..n] == market[next..lo] + market[lo..n];
  }

  /** The candles inside the range from an index on do not change when candles outside are left out. */
  lemma InsideParts(market: seq<Bar>, start: int, end: int, a: nat, lo: nat, n: nat)
    requires a <= lo <= n <= |market| && NoneInside(market, start, end, a, lo)
    requires NoneInside(market, start, end, n, |market|)
    ensures Filter(Inside(start, end), market[a..]) == Filter(Inside(start, end), market[lo..n])
  {
    FilterAppend(Inside(start, end), market[a..lo], market[lo..]);
    FilterAppend(Inside(start, end), market[lo..n], market[n..]);
    FilterNonePass(Inside(start, end), market[a..lo]);
    FilterNonePass(Inside(start, end), market[n..]);
    assert market[a..] == market[a..lo] + market[lo..] && market[lo..] == market[lo..n] + market[n..];
  }

  ghost predicate Ascending(bars: seq<Bar>) {
    forall i, j :: 0 <= i < j < |bars| ==> bars[i].openTime < bars[j].openTime
  }

  lemma {:induction false} FilterAscending(p: Bar -> bool, bars: seq<Bar>)
    requires Ascending(bars)
    ensures Ascending(Filter(p, bars))
  {
    if |bars| != 0 {
      var front, last := bars[..|bars| - 1], bars[|bars| - 1];
      FilterAscending(p, front);
      FilterMembers(p, front);
      var kept := Filter(p, front);
      forall i | 0 <= i < |kept| ensures kept[i].openTime < last.openTime {
        assert kept[i] in front;
      }
    }
  }

  /** Sorting found candles by their open times puts them in market order. */
  lemma {:induction false} SortedFound(found: seq<Bar>, bars: seq<Bar>)
    requires Ascending(bars) && multiset(found) == multiset(bars)
    ensures Sort(OpenLeq, found) == bars
  {
    SortSorts(OpenLeq, found);
    SortPermutes(OpenLeq, found);
    var s := Sort(OpenLeq, found);
    forall x, y | x in s && y in s && OpenLeq(x, y) && OpenLeq(y, x) ensures x == y {
      assert x in multiset(bars) && y in multiset(bars);
      var i :| 0 <= i < |bars| && bars[i] == x;
      var j :| 0 <= j < |bars| && bars[j] == y;
    }
    SortedUnique(OpenLeq, s, bars);
  }

  // ---------------------------------------------------------------- the pager

  ghost predicate Decreasing(times: seq<int>) {
    forall i, j :: 0 <= i < j < |times| ==> times[i] > times[j]
  }

  ghost predicate AllAbove(times: seq<int>, t: int) {
    forall i :: 0 <= i < |times| ==> times[i] > t
  }

  lemma EndsStep(ends: seq<int>, t: int)
    requires Decreasing(ends) && AllAbove(ends, t)
    ensures Decreasing(ends + [t]) && forall t' :: t' < t ==> AllAbove(ends + [t], t')
  {
  }

  /** Between two queries: what was found is what lies inside the range from index `lo` on. */
  ghost predicate Collected(
    market: seq<Bar>, start: int, end: int, t: int, lo: nat, found: seq<Bar>, seen: set<int>)
  {
    && AtChunk(market, end, t, lo)
    && multiset(found) == multiset(Filter(Inside(start, end), market[lo..Before(market, end)]))
    && forall x :: x in seen ==> lo < |market| && x >= market[lo].openTime
  }

  lemma SeenGrows(market: seq<Bar>, start: int, end: int, next: nat, lo: nat, unseen: seq<Candle>, seen: set<int>)
    requires IsMarket(market) && next < lo <= |market|
    requires forall x :: x in seen ==> lo < |market| && x >= market[lo].openTime
    requires Map(BarOf, unseen) == Filter(Inside(start, end), market[next..lo])
    ensures forall x :: x in seen + OpenTimes(unseen) ==> x >= market[next].openTime
  {
    FilterMembers(Inside(start, end), market[next..lo]);
    forall x | x in OpenTimes(unseen) ensures x >= market[next].openTime {
      var i :| 0 <= i < |unseen| && unseen[i].bar.openTime == x;
      assert Map(BarOf, unseen)[i] in market[next..lo];
    }
  }

  /** What one query shows and keeps. */
  lemma {:induction false} QueryShows(
      market: seq<Bar>, limit: nat, start: int, end: int, t: int, lo: nat, next: nat, seen: set<int>,
      series: seq<Candle>, unseen: seq<Candle>)
    requires IsMarket(market) && limit >= 1 && next == if lo <= limit then 0 else lo - limit
    requires AtChunk(market, end, t, lo) && forall x :: x in seen ==> lo < |market| && x >= market[lo].openTime
    requires series == LoadSeries(market, limit, t) && Map(BarOf, unseen) == Kept(series, start, end, seen)
    ensures Map(BarOf, unseen) == Filter(Inside(start, end), market[next..lo])
    ensures series == [] <==> lo == 0
    ensures series != [] ==> next < lo && MinOpen(series) == market[next].openTime
    ensures series != [] ==> forall x :: x in seen + OpenTimes(unseen) ==> x >= market[next].openTime
  {
    ChunkShown(market, limit, end, t, lo, next);
    ChunkFresh(market, limit, start, end, t, lo, next, seen);
    if next < lo {
      ChunkStart(market, t, next, lo);
      SeenGrows(market, start, end, next, lo, unseen, seen);
    }
  }

  /** One query: its candles, those kept, and their open times. */
  method Query(
      market: seq<Bar>, limit: nat, start: int, end: int, t: int, seen: set<int>, ghost lo: nat, ghost next: nat)
    returns (series: seq<Candle>, bars: seq<Bar>, opens: set<int>)
    requires IsMarket(market) && limit >= 1 && next == if lo <= limit then 0 else lo - limit
    requires AtChunk(market, end, t, lo) && forall x :: x in seen ==> lo < |market| && x >= market[lo].openTime
    ensures bars == Filter(Inside(start, end), market[next..lo])
    ensures series == [] <==> lo == 0
    ensures series != [] ==> next < lo && MinOpen(series) == market[next].openTime
    ensures series != [] ==> forall x :: x in seen + opens ==> x >= market[next].openTime
  {
    series := LoadSeries(market, limit, t);
    var eligible := Filter(IsFresh(start, end), series);
    var unseen := Filter(Unseen(seen), eligible);
    QueryShows(market, limit, start, end, t, lo, next, seen, series, unseen);
    bars, opens := Map(BarOf, unseen), OpenTimes(unseen);
  }

  /** A query of one candle that shows only the forming candle finds nothing. */
  lemma {:induction false} FormingOnly(market: seq<Bar>, start: int, end: int)
    requires IsMarket(market) && !PagesPastForming(market, 1, end)
    ensures var n := Before(market, end); Filter(Inside(start, end), market[n - 1..n]) == []
  {
    var n := Before(market, end);
    FilterNonePass(Inside(start, end), market[n - 1..n]);
  }

  /** The result, once nothing inside the range is left between the reach of the queries and `lo`. */
  lemma {:induction false} Finish(market: seq<Bar>, start: int, end: int, reach: nat, lo: nat, found: seq<Bar>)
    requires IsMarket(market) && reach <= lo <= Before(market, end) && NoneInside(market, start, end, reach, lo)
    requires multiset(found) == multiset(Filter(Inside(start, end), market[lo..Before(market, end)]))
    ensures Sort(OpenLeq, found) == Filter(Inside(start, end), market[reach..])
  {
    var n := Before(market, end);
    InsideParts(market, start, end, reach, lo, n);
    FilterAscending(Inside(start, end), market[lo..n]);
    SortedFound(found, Filter(Inside(start, end), market[lo..n]));
  }

  /** What the pager returns: the candles inside the range among those that its queries reach. */
  ghost function Expected(market: seq<Bar>, limit: nat, chunks: nat, start: int, end: int): seq<Bar> {
    if PagesPastForming(market, limit, end)
    then Filter(Inside(start, end), market[Reach(market, limit, chunks, end)..]) else []
  }

  /** The state before query `k` of a pager that has not stopped. */
  ghost predicate Running(
    market: seq<Bar>, limit: nat, k: nat, start: int, end: int, t: int, lo: nat, found: seq<Bar>, seen: set<int>)
  {
    && lo == Reach(market, limit, k, end) && Collected(market, start, end, t, lo, found, seen)
    && (lo == Before(market, end) ==> k == 0 || lo == 0)
    && (PagesPastForming(market, limit, end) || (k == 0 && found == []))
  }

  lemma {:induction false} FinishAs(
      market: seq<Bar>, limit: nat, chunks: nat, start: int, end: int, lo: nat, found: seq<Bar>)
    requires IsMarket(market) && Reach(market, limit, chunks, end) <= lo <= Before(market, end)
    requires multiset(found) == multiset(Filter(Inside(start, end), market[lo..Before(market, end)]))
    requires PagesPastForming(market, limit, end) ==>
               NoneInside(market, start, end, Reach(market, limit, chunks, end), lo)
    requires !PagesPastForming(market, limit, end) ==> found == []
    ensures Sort(OpenLeq, found) == Expected(market, limit, chunks, start, end)
  {
    if PagesPastForming(market, limit, end) {
      Finish(market, start, end, Reach(market, limit, chunks, end), lo, found);
    }
  }

  /** A query that finds nothing ends the search with everything found. */
  lemma {:induction false} StopsEmpty(
      market: seq<Bar>, limit: nat, chunks: nat, k: nat, start: int, end: int, t: int, lo: nat, found: seq<Bar>,
      seen: set<int>, bars: seq<Bar>)
    requires IsMarket(market) && limit >= 1 && k < chunks
    requires Running(market, limit, k, start, end, t, lo, found, seen)
    requires bars == Filter(Inside(start, end), market[Reach(market, limit, k + 1, end)..lo])
    requires lo == 0 || bars == []
    ensures Sort(OpenLeq, found + bars) == Expected(market, limit, chunks, start, end)
  {
    var next := Reach(market, limit, k + 1, end);
    ReachDecreases(market, limit, k + 1, chunks, end);
    FoundGrows(market, start, end, next, lo, Before(market, end), found);
    if PagesPastForming(market, limit, end) {
      NothingOlder(market, limit, start, end, t, lo, next);
    }
    FinishAs(market, limit, chunks, start, end, next, found + bars);
  }

  /** A query that finds something leaves the search running. */
  lemma {:induction false} Continues(
      market: seq<Bar>, limit: nat, k: nat, start: int, end: int, t: int, lo: nat, found: seq<Bar>, seen: set<int>,
      bars: seq<Bar>, seen': set<int>)
    requires IsMarket(market) && limit >= 1 && lo > 0 && bars != []
    requires Running(market, limit, k, start, end, t, lo, found, seen)
    requires var next := Reach(market, limit, k + 1, end);
             bars == Filter(Inside(start, end), market[next..lo])
             && forall x :: x in seen' ==> x >= market[next].openTime
    ensures var next := Reach(market, limit, k + 1, end);
            && next < Before(market, end) && market[next].openTime < t
            && Running(market, limit, k + 1, start, end, market[next].openTime, next, found + bars, seen')
  {
    var next := Reach(market, limit, k + 1, end);
    FoundGrows(market, start, end, next, lo, Before(market, end), found);
    ChunkEndFalls(market, end, t, lo, next);
    if !PagesPastForming(market, limit, end) {
      FormingOnly(market, start, end);
    }
  }

  /** A search that has reached the start of the range is done. */
  lemma {:induction false} StopsAtStart(
      market: seq<Bar>, limit: nat, chunks: nat, k: nat, start: int, end: int, t: int, lo: nat, found: seq<Bar>,
      seen: set<int>)
    requires IsMarket(market) && k <= chunks && t <= start && lo < Before(market, end)
    requires Running(market, limit, k, start, end, t, lo, found, seen)
    ensures Sort(OpenLeq, found) == Expected(market, limit, chunks, start, end)
  {
    ReachDecreases(market, limit, k, chunks, end);
    OlderThanStart(market, start, end, lo);
    FinishAs(market, limit, chunks, start, end, lo, found);
  }

  /** When the queries are used up, everything within their reach has been found. */
  lemma {:induction false} UsedUp(
      market: seq<Bar>, limit: nat, chunks: nat, start: int, end: int, t: int, lo: nat, found: seq<Bar>, seen: set<int>)
    requires IsMarket(market) && Running(market, limit, chunks, start, end, t, lo, found, seen)
    ensures Sort(OpenLeq, found) == Expected(market, limit, chunks, start, end)
  {
    FinishAs(market, limit, chunks, start, end, lo, found);
  }

  lemma {:induction false} StartsRunning(market: seq<Bar>, limit: nat, start: int, end: int)
    ensures Running(market, limit, 0, start, end, end, Before(market, end), [], {})
  {
    assert market[Before(market, end)..Before(market, end)] == [];
  }

  /**
   * The candles of a range, loaded in chunks from its end backwards. Found candles are kept under their open times.
   * The chunk ends strictly decrease; the result is exactly the candles inside the range among those that the queries
   * reach, in order. A query size of one that shows only the forming candle stops at once.
   */
  method LoadRange(market: seq<Bar>, limit: nat, chunks: nat, start: int, end: int)
    returns (r: seq<Bar>, ghost ends: seq<int>)
    requires IsMarket(market) && limit >= 1
    ensures r == Expected(market, limit, chunks, start, end)
    ensures |ends| <= chunks && Decreasing(ends)
  {
    var found: seq<Bar>, seen: set<int>, chunkEnd := [], {}, end;
    ghost var lo, stopped := Before(market, end), false;
    ends := [];
    StartsRunning(market, limit, start, end);
    for k := 0 to chunks
      invariant !stopped && Running(market, limit, k, start, end, chunkEnd, lo, found, seen)
      invariant |ends| == k && Decreasing(ends) && AllAbove(ends, chunkEnd)
    {
      ghost var next := Reach(market, limit, k + 1, end);
      EndsStep(ends, chunkEnd);
      ends := ends + [chunkEnd];
      var series, bars, opens := Query(market, limit, start, end, chunkEnd, seen, lo, next);
      if series == [] || bars == [] {
        StopsEmpty(market, limit, chunks, k, start, end, chunkEnd, lo, found, seen, bars);
      } else {
        Continues(market, limit, k, start, end, chunkEnd, lo, found, seen, bars, seen + opens);
      }
      found, seen := found + bars, seen + opens;
      if series == [] || bars == [] {
        stopped := true;
        break;
      }
      chunkEnd, lo := MinOpen(series), next;
      if chunkEnd <= start {
        StopsAtStart(market, limit, chunks, k + 1, start, end, chunkEnd, lo, found, seen);
        stopped := true;
        break;
      }
    }
    if !stopped {
      UsedUp(market, limit, chunks, start, end, chunkEnd, lo, found, seen);
    }
    r := Sort(OpenLeq, found);
  }

  /** The range is complete exactly when no candle inside it lies beyond the reach of the queries. */
  lemma {:induction false} CompleteIffWithinReach(market: seq<Bar>, limit: nat, chunks: nat, start: int, end: int)
    requires IsMarket(market) && PagesPastForming(market, limit, end)
    ensures Expected(market, limit, chunks, start, end) == Filter(Inside(start, end), market)
            <==> NoneInside(market, start, end, 0, Reach(market, limit, chunks, end))
  {
    LeavesOut(market, Reach(market, limit, chunks, end), start, end);
  }

  lemma {:induction false} LeavesOut(market: seq<Bar>, reach: nat, start: int, end: int)
    requires reach <= |market|
    ensures Filter(Inside(start, end), market[reach..]) == Filter(Inside(start, end), market)
            <==> NoneInside(market, start, end, 0, reach)
  {
    var inside := Inside(start, end);
    FilterAppend(inside, market[..reach], market[reach..]);
    assert market == market[..reach] + market[reach..];
    if NoneInside(market, start, end, 0, reach) {
      FilterNonePass(inside, market[..reach]);
    } else {
      var i :| 0 <= i < reach && inside(market[i]);
      FilterMembers(inside, market[..reach]);
      assert market[..reach][i] in Filter(inside, market[..reach]);
    }
  }

  /** With the sizes the script uses, every range within the newest 400,000 candles before its end is complete. */
  lemma {:induction false} RangesThatFitAreComplete(market: seq<Bar>, start: int, end: int)
    requires IsMarket(market)
    requires forall i :: 0 <= i < Before(market, end) - 400000 ==> market[i].openTime < start
    ensures Expected(market, 1000, 400, start, end) == Filter(Inside(start, end), market)
  {
    ReachIsProduct(market, 1000, 400, end);
    CompleteIffWithinReach(market, 1000, 400, start, end);
  }

  /**
   * With queries of one candle, a forming newest candle before the end empties the result whatever the market holds,
   * so the range is complete only if nothing is inside it.
   */
  lemma {:induction false} OneCandleQueriesLose(market: seq<Bar>, chunks: nat, start: int, end: int)
    requires IsMarket(market) && Before(market, end) > 0 && market[Before(market, end) - 1].closeTime > end
    ensures Expected(market, 1, chunks, start, end) == []
    ensures Expected(market, 1, chunks, start, end) == Filter(Inside(start, end), market)
            <==> NoneInside(market, start, end, 0, |market|)
  {
    if NoneInside(market, start, end, 0, |market|) {
      FilterNonePass(Inside(start, end), market);
    } else {
      var i :| 0 <= i < |market| && Inside(start, end)(market[i]);
      FilterMembers(Inside(start, end), market);
      assert market[i] in Filter(Inside(start, end), market);
    }
  }

  /** The result is in ascending order without duplicates. */
  lemma ResultAscends(market: seq<Bar>, limit: nat, chunks: nat, start: int, end: int)
    requires IsMarket(market)
    ensures Ascending(Expected(market, limit, chunks, start, end))
  {
    FilterAscending(Inside(start, end), market[Reach(market, limit, chunks, end)..]);
  }

  /** The candle at index `i` lies inside the range, and the queries reach it. */
  ghost predicate IsLoadable(market: seq<Bar>, reach: int, start: int, end: int, b: Bar, i: nat) {
    i < |market| && market[i] == b && start <= b.openTime && b.closeTime <= end && reach <= i
  }

  lemma {:induction false} InsideFrom(market: seq<Bar>, reach: nat, start: int, end: int, b: Bar)
    requires reach <= |market|
    ensures b in Filter(Inside(start, end), market[reach..])
            <==> exists i: nat :: IsLoadable(market, reach, start, end, b, i)
  {
    var tail := market[reach..];
    FilterMembers(Inside(start, end), tail);
    if b in tail && Inside(start, end)(b) {
      var k :| 0 <= k < |tail| && tail[k] == b;
      assert IsLoadable(market, reach, start, end, b, reach + k);
    }
    if i: nat :| IsLoadable(market, reach, start, end, b, i) {
      assert tail[i - reach] == b;
    }
  }

  /** The index of the oldest of the newest `limit * chunks` candles that open before the end; negative if all are. */
  function Oldest(market: seq<Bar>, limit: nat, chunks: nat, end: int): int {
    Before(market, end) - limit * chunks
  }

  /**
   * Which candles are loaded: those of the market that open at the start or later, close by the end, and are not older
   * than the newest `limit * chunks` candles that open before the end.
   */
  lemma {:induction false} LoadedCandles(market: seq<Bar>, limit: nat, chunks: nat, start: int, end: int, b: Bar)
    requires IsMarket(market) && limit >= 2
    ensures b in Expected(market, limit, chunks, start, end)
            <==> exists i: nat :: IsLoadable(market, Oldest(market, limit, chunks, end), start, end, b, i)
  {
    var reach := Reach(market, limit, chunks, end);
    ReachIsProduct(market, limit, chunks, end);
    InsideFrom(market, reach, start, end, b);
    SameReach(market, reach, Oldest(market, limit, chunks, end), start, end, b);
  }

  lemma {:induction false} SameReach(market: seq<Bar>, reach: nat, from: int, start: int, end: int, b: Bar)
    requires reach == if from <= 0 then 0 else from
    ensures (exists i: nat :: IsLoadable(market, reach, start, end, b, i))
            <==> exists i: nat :: IsLoadable(market, from, start, end, b, i)
  {
    if i: nat :| IsLoadable(market, reach, start, end, b, i) {
      assert IsLoadable(market, from, start, end, b, i);
    }
    if i: nat :| IsLoadable(market, from, start, end, b, i) {
      assert IsLoadable(market, reach, start, end, b, i);
    }
  }
}
