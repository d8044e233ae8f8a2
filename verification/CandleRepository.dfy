/** Candle persistence: one row per candle identity, closed history never rewritten. */
module CandleRepository {
  import opened Wrappers
  import opened Seqs

  datatype Identity = Identity(symbol: string, timeframe: string, openTime: int, source: string)
  datatype Prices = Prices(open: real, high: real, low: real, close: real, volume: Option<real>)
  datatype Quality = LIVE | CURRENT | DELAYED | STALE | DISCONNECTED | INVALID
  datatype Candle = Candle(id: Identity, closeTime: int, prices: Prices, isClosed: bool, quality: Quality)
  datatype Row = Row(closeTime: int, prices: Prices, isClosed: bool, quality: Quality, ingestedAt: int)

  /** A DUPLICATE_CONFLICT event: a revision of a closed candle was rejected. */
  datatype ConflictEvent = ConflictEvent(id: Identity, recordedAt: int)

  datatype UpsertReport = UpsertReport(inserted: nat, updated: nat, identical: nat, conflicts: nat)

  datatype Database = Database(rows: map<Identity, Row>, events: seq<ConflictEvent>)

  const EMPTY_DATABASE := Database(map[], [])

  /** A candle and the time of the batch that brings it. */
  datatype Write = Write(candle: Candle, now: int)

  function RowOf(c: Candle, now: int): Row {
    Row(c.closeTime, c.prices, c.isClosed, c.quality, now)
  }

  datatype Outcome = INSERTED | UPDATED | UNCHANGED | CONFLICT

  function OutcomeOf(existing: Option<Row>, c: Candle): Outcome {
    if existing.None? then INSERTED
    else if !existing.value.isClosed then UPDATED
    else if existing.value.prices == c.prices then UNCHANGED
    else CONFLICT
  }

  function Lookup(rows: map<Identity, Row>, id: Identity): Option<Row> {
    if id in rows then Some(rows[id]) else None
  }

  /** One candle of a batch. */
  function WriteStep(db: Database, w: Write): Database {
    var c, existing := w.candle, Lookup(db.rows, w.candle.id);
    match OutcomeOf(existing, c)
    case INSERTED => db.(rows := db.rows[c.id := RowOf(c, w.now)])
    case UPDATED =>
      db.(rows := db.rows[c.id := Row(existing.value.closeTime, c.prices, c.isClosed, c.quality, w.now)])
    case UNCHANGED => db
    case CONFLICT => db.(events := db.events + [ConflictEvent(c.id, w.now)])
  }

  function Written(db: Database, writes: seq<Write>): Database {
    if |writes| == 0 then db else WriteStep(Written(db, writes[..|writes| - 1]), writes[|writes| - 1])
  }

  function Batch(candles: seq<Candle>, now: int): seq<Write> {
    Map((c: Candle) => Write(c, now), candles)
  }

  /** How many writes have the outcome. */
  function Outcomes(db: Database, writes: seq<Write>, o: Outcome): nat {
    if |writes| == 0 then 0
    else
      var front, last := writes[..|writes| - 1], writes[|writes| - 1];
      Outcomes(db, front, o)
      + if OutcomeOf(Lookup(Written(db, front).rows, last.candle.id), last.candle) == o then 1 else 0
  }

  function ReportOf(db: Database, writes: seq<Write>): UpsertReport {
    UpsertReport(
      Outcomes(db, writes, INSERTED), Outcomes(db, writes, UPDATED), Outcomes(db, writes, UNCHANGED),
      Outcomes(db, writes, CONFLICT))
  }

  class Repository {
    var rows: map<Identity, Row>
    var events: seq<ConflictEvent>

    ghost function State(): Database
      reads this
    {
      Database(rows, events)
    }

    constructor ()
      ensures State() == EMPTY_DATABASE
    {
      rows, events := map[], [];
    }

    method UpsertCandles(candles: seq<Candle>, now: int) returns (report: UpsertReport)
      modifies this
      ensures State() == Written(old(State()), Batch(candles, now))
      ensures report == ReportOf(old(State()), Batch(candles, now))
    {
      ghost var start, writes := State(), Batch(candles, now);
      report := UpsertReport(0, 0, 0, 0);
      for i := 0 to |candles|
        invariant State() == Written(start, writes[..i])
        invariant report == ReportOf(start, writes[..i])
      {
        assert writes[..i + 1][..i] == writes[..i] && writes[i] == Write(candles[i], now);
        var c := candles[i];
        if c.id !in rows {
          rows := rows[c.id := RowOf(c, now)];
          report := report.(inserted := report.inserted + 1);
          continue;
        }
        var existing := rows[c.id];
        var same := existing.prices == c.prices;
        if !existing.isClosed {
          rows := rows[c.id := existing.(
            prices := c.prices, isClosed := c.isClosed, quality := c.quality, ingestedAt := now)];
          report := report.(updated := report.updated + 1);
        } else if same {
          report := report.(identical := report.identical + 1);
        } else {
          events := events + [ConflictEvent(c.id, now)];
          report := report.(conflicts := report.conflicts + 1);
        }
      }
      assert writes[..|candles|] == writes;
    }
  }

  // ---------------------------------------------------------------- what is stored

  function OfIdentity(id: Identity): Write -> bool {
    (w: Write) => w.candle.id == id
  }

  /** The first write of a closed candle. */
  function FirstClosed(writes: seq<Write>): (r: Option<Write>)
    ensures r.Some? ==> exists i :: 0 <= i < |writes| && writes[i] == r.value && r.value.candle.isClosed
                                    && forall j :: 0 <= j < i ==> !writes[j].candle.isClosed
    ensures r.None? ==> forall i :: 0 <= i < |writes| ==> !writes[i].candle.isClosed
  {
    if |writes| == 0 then None
    else
      var before := FirstClosed(writes[..|writes| - 1]);
      if before.Some? then before
      else if writes[|writes| - 1].candle.isClosed then Some(writes[|writes| - 1])
      else None
  }

  /** The write that decides the row of an identity: the first closed candle, else the last forming one. */
  function Deciding(writes: seq<Write>): Write
    requires |writes| > 0
  {
    if FirstClosed(writes).Some? then FirstClosed(writes).value else writes[|writes| - 1]
  }

  /** The row that the writes of one identity leave. */
  function StoredRow(writes: seq<Write>): Option<Row> {
    if |writes| == 0 then None
    else
      var d := Deciding(writes);
      Some(Row(writes[0].candle.closeTime, d.candle.prices, d.candle.isClosed, d.candle.quality, d.now))
  }

  lemma StoredRowStep(writes: seq<Write>, w: Write)
    ensures var before := StoredRow(writes);
            StoredRow(writes + [w])
            == match OutcomeOf(before, w.candle)
               case INSERTED => Some(RowOf(w.candle, w.now))
               case UPDATED =>
                 Some(Row(before.value.closeTime, w.candle.prices, w.candle.isClosed, w.candle.quality, w.now))
               case UNCHANGED => before
               case CONFLICT => before
  {
    assert (writes + [w])[..|writes|] == writes;
  }

  /**
   * After any writes the row of an identity is that of the first closed candle among its writes if there is one, else
   * of the last forming one.
   */
  lemma {:induction false} RowsFollowHistory(writes: seq<Write>, id: Identity)
    ensures Lookup(Written(EMPTY_DATABASE, writes).rows, id) == StoredRow(Filter(OfIdentity(id), writes))
  {
    if |writes| != 0 {
      var front, last := writes[..|writes| - 1], writes[|writes| - 1];
      RowsFollowHistory(front, id);
      FrontLast(writes);
      FilterSnoc(OfIdentity(id), front, last);
      if last.candle.id == id {
        StoredRowStep(Filter(OfIdentity(id), front), last);
      }
    }
  }

  lemma {:induction false} WrittenAppend(db: Database, a: seq<Write>, b: seq<Write>)
    ensures Written(db, a + b) == Written(Written(db, a), b)
  {
    if |b| == 0 {
      assert a + b == a;
    } else {
      WrittenAppend(db, a, b[..|b| - 1]);
      assert (a + b)[..|a + b| - 1] == a + b[..|b| - 1];
    }
  }

  /** Splitting a batch does not matter. */
  lemma {:induction false} SplitBatch(db: Database, a: seq<Candle>, b: seq<Candle>, now: int)
    ensures Written(db, Batch(a + b, now)) == Written(Written(db, Batch(a, now)), Batch(b, now))
  {
    WrittenAppend(db, Batch(a, now), Batch(b, now));
    assert Batch(a + b, now) == Batch(a, now) + Batch(b, now);
  }

  lemma ClosedRowStep(db: Database, w: Write, id: Identity)
    requires id in db.rows && db.rows[id].isClosed
    ensures id in WriteStep(db, w).rows && WriteStep(db, w).rows[id] == db.rows[id]
  {
  }

  /** A closed row never changes or reopens, whatever is written later. */
  lemma {:induction false} ClosedRowsAreImmutable(db: Database, writes: seq<Write>, id: Identity)
    requires id in db.rows && db.rows[id].isClosed
    ensures id in Written(db, writes).rows && Written(db, writes).rows[id] == db.rows[id]
  {
    if |writes| != 0 {
      ClosedRowsAreImmutable(db, writes[..|writes| - 1], id);
      ClosedRowStep(Written(db, writes[..|writes| - 1]), writes[|writes| - 1], id);
    }
  }

  // ---------------------------------------------------------------- replay

  /** Two rows that may differ in the time of ingestion only, and not at all when they are closed. */
  predicate SameContent(a: Option<Row>, b: Option<Row>) {
    a.Some? == b.Some?
    && (a.Some? ==> a.value.(ingestedAt := b.value.ingestedAt) == b.value && (a.value.isClosed ==> a == b))
  }

  lemma {:induction false} FirstClosedAppend(a: seq<Write>, b: seq<Write>)
    ensures FirstClosed(a + b) == if FirstClosed(a).Some? then FirstClosed(a) else FirstClosed(b)
  {
    if |b| == 0 {
      assert a + b == a;
    } else {
      FirstClosedAppend(a, b[..|b| - 1]);
      assert (a + b)[..|a + b| - 1] == a + b[..|b| - 1];
    }
  }

  /** The same candles in the same order, brought at other times. */
  ghost predicate SameCandles(a: seq<Write>, b: seq<Write>) {
    |a| == |b| && forall i :: 0 <= i < |a| ==> a[i].candle == b[i].candle
  }

  lemma {:induction false} FilterSameCandles(a: seq<Write>, b: seq<Write>, id: Identity)
    requires SameCandles(a, b)
    ensures SameCandles(Filter(OfIdentity(id), a), Filter(OfIdentity(id), b))
  {
    if |a| != 0 {
      FilterSameCandles(a[..|a| - 1], b[..|b| - 1], id);
    }
  }

  lemma {:induction false} FirstClosedSameCandles(a: seq<Write>, b: seq<Write>)
    requires SameCandles(a, b)
    ensures FirstClosed(a).Some? == FirstClosed(b).Some?
    ensures FirstClosed(a).Some? ==> FirstClosed(a).value.candle == FirstClosed(b).value.candle
  {
    if |a| != 0 {
      FirstClosedSameCandles(a[..|a| - 1], b[..|b| - 1]);
    }
  }

  lemma StoredRowReplay(h: seq<Write>, a: seq<Write>, b: seq<Write>)
    requires SameCandles(a, b)
    ensures SameContent(StoredRow(h + a), StoredRow(h + a + b))
  {
    FirstClosedAppend(h, a);
    FirstClosedAppend(h + a, b);
    FirstClosedSameCandles(a, b);
  }

  /** Writing a batch a second time leaves the content of every row as it is; closed rows are untouched. */
  lemma {:induction false} ReplayKeepsRows(
      history: seq<Write>, candles: seq<Candle>, now: int, later: int, id: Identity)
    ensures var once := Written(EMPTY_DATABASE, history + Batch(candles, now));
            SameContent(Lookup(once.rows, id), Lookup(Written(once, Batch(candles, later)).rows, id))
  {
    var a, b := Batch(candles, now), Batch(candles, later);
    var only := OfIdentity(id);
    WrittenAppend(EMPTY_DATABASE, history + a, b);
    RowsFollowHistory(history + a, id);
    RowsFollowHistory(history + a + b, id);
    FilterAppend(only, history, a);
    FilterAppend(only, history + a, b);
    FilterSameCandles(a, b, id);
    StoredRowReplay(Filter(only, history), Filter(only, a), Filter(only, b));
  }

  // ---------------------------------------------------------------- the report

  /** Counters and events account for every candle of a batch. */
  lemma {:induction false} ReportAccounts(db: Database, writes: seq<Write>)
    ensures var r, after := ReportOf(db, writes), Written(db, writes);
            && r.inserted + r.updated + r.identical + r.conflicts == |writes|
            && r.conflicts == |after.events| - |db.events| && db.events <= after.events
            && r.inserted == |after.rows| - |db.rows|
  {
    if |writes| != 0 {
      var front, last := writes[..|writes| - 1], writes[|writes| - 1];
      ReportAccounts(db, front);
      RowCountStep(Written(db, front), last);
    }
  }

  lemma RowCountStep(db: Database, w: Write)
    ensures var inserts := OutcomeOf(Lookup(db.rows, w.candle.id), w.candle) == INSERTED;
            |WriteStep(db, w).rows| == |db.rows| + if inserts then 1 else 0
  {
    var rows' := WriteStep(db, w).rows;
    if w.candle.id in db.rows {
      assert rows'.Keys == db.rows.Keys;
    } else {
      assert rows'.Keys == db.rows.Keys + {w.candle.id};
    }
  }

  /** The outcome of a write, told by the earlier writes of its identity alone. */
  lemma {:induction false} OutcomeByHistory(history: seq<Write>, c: Candle)
    ensures var mine := Filter(OfIdentity(c.id), history);
            var outcome := OutcomeOf(Lookup(Written(EMPTY_DATABASE, history).rows, c.id), c);
            && (outcome == INSERTED <==> mine == [])
            && (outcome == UPDATED <==> mine != [] && FirstClosed(mine).None?)
            && (outcome == UNCHANGED
                <==> FirstClosed(mine).Some? && FirstClosed(mine).value.candle.prices == c.prices)
            && (outcome == CONFLICT
                <==> FirstClosed(mine).Some? && FirstClosed(mine).value.candle.prices != c.prices)
  {
    RowsFollowHistory(history, c.id);
  }

  /** The conflicts in the order of their writes: revisions of prices that the first closed candle had fixed. */
  function Conflicts(writes: seq<Write>): seq<ConflictEvent> {
    if |writes| == 0 then []
    else
      var front, w := writes[..|writes| - 1], writes[|writes| - 1];
      var closed := FirstClosed(Filter(OfIdentity(w.candle.id), front));
      if closed.Some? && closed.value.candle.prices != w.candle.prices
      then Conflicts(front) + [ConflictEvent(w.candle.id, w.now)] else Conflicts(front)
  }

  /** The recorded events are those conflicts, each with its candle and the time of its batch. */
  lemma {:induction false} EventsAreConflicts(writes: seq<Write>)
    ensures Written(EMPTY_DATABASE, writes).events == Conflicts(writes)
  {
    if |writes| != 0 {
      EventsAreConflicts(writes[..|writes| - 1]);
      OutcomeByHistory(writes[..|writes| - 1], writes[|writes| - 1].candle);
    }
  }

  /** What the earlier writes of its identity make of a candle. */
  predicate IsNew(mine: seq<Write>, c: Candle) {
    mine == []
  }

  predicate IsForming(mine: seq<Write>, c: Candle) {
    mine != [] && FirstClosed(mine).None?
  }

  predicate IsRepeat(mine: seq<Write>, c: Candle) {
    FirstClosed(mine).Some? && FirstClosed(mine).value.candle.prices == c.prices
  }

  predicate IsRevision(mine: seq<Write>, c: Candle) {
    FirstClosed(mine).Some? && FirstClosed(mine).value.candle.prices != c.prices
  }

  /** How many of the writes after a history are of that kind. */
  function Times(kind: (seq<Write>, Candle) -> bool, history: seq<Write>, writes: seq<Write>): nat {
    if |writes| == 0 then 0
    else
      var front, c := writes[..|writes| - 1], writes[|writes| - 1].candle;
      Times(kind, history, front) + if kind(Filter(OfIdentity(c.id), history + front), c) then 1 else 0
  }

  /** Each counter of a batch counts its own kind: new candles, forming ones, repeats and rejected revisions. */
  lemma {:induction false} CountersAreTold(history: seq<Write>, writes: seq<Write>)
    ensures var r := ReportOf(Written(EMPTY_DATABASE, history), writes);
            && r.inserted == Times(IsNew, history, writes) && r.updated == Times(IsForming, history, writes)
            && r.identical == Times(IsRepeat, history, writes) && r.conflicts == Times(IsRevision, history, writes)
  {
    if |writes| != 0 {
      var front := writes[..|writes| - 1];
      CountersAreTold(history, front);
      OutcomeByHistory(history + front, writes[|writes| - 1].candle);
      WrittenAppend(EMPTY_DATABASE, history, front);
    }
  }
}
