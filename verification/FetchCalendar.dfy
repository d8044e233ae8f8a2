/** The calendar builder: usable rows become events with ids that are unique until they are cut. */
module FetchCalendar {
  import opened Wrappers
  import opened Seqs
  import opened Ordering
  import opened Text

  datatype Importance = HIGH | MEDIUM | LOW
  /** A time in the format year, month, day, T, hour, minute. What matters is the T between digits, and no colon. */
  type MinuteText = s: string | 'T' in s && ':' !in s
    witness "T"

  datatype When = When(time: int, minuteText: MinuteText)

  /**
   * A row of the feed: its impact and currency in upper case, its event id as text, its parsed date, and the texts and
   * numbers that are copied.
   */
  datatype RawRow = RawRow(
    impact: string, currency: string, alphabetic: bool, eventId: string, when: Option<When>, name: string,
    notLoaded: bool, actual: Option<real>, forecast: Option<real>, previous: Option<real>)

  datatype CalendarEvent = CalendarEvent(
    id: string, country: string, currency: string, name: string, scheduledTime: int, importance: Importance,
    actual: Option<real>, forecast: Option<real>, previous: Option<real>)

  const ID_LENGTH := 120
  const NAME_LENGTH := 200

  function ImportanceOf(impact: string): Option<Importance> {
    if impact == "HIGH" then Some(HIGH)
    else if impact == "MEDIUM" then Some(MEDIUM)
    else if impact == "LOW" then Some(LOW)
    else None
  }

  /** The country of a known currency, else the currency itself. */
  function CountryOf(currency: string): string {
    if currency == "USD" then "United States"
    else if currency == "EUR" then "Euro Area"
    else if currency == "GBP" then "United Kingdom"
    else if currency == "JPY" then "Japan"
    else if currency == "AUD" then "Australia"
    else if currency == "NZD" then "New Zealand"
    else if currency == "CAD" then "Canada"
    else if currency == "CHF" then "Switzerland"
    else if currency == "CNY" then "China"
    else currency
  }

  predicate Usable(raw: RawRow) {
    ImportanceOf(raw.impact).Some? && |raw.currency| == 3 && raw.alphabetic && raw.when.Some?
  }

  function BaseId(raw: RawRow): string
    requires Usable(raw)
  {
    raw.currency + ":" + raw.eventId + ":" + raw.when.value.minuteText
  }

  /** The candidates for an id, in the order they are tried. */
  function Candidate(base: string, n: nat): string {
    if n == 0 then base else base + ":" + Decimal(n)
  }

  function Cut(ident: string): string {
    FirstN(ident, ID_LENGTH)
  }

  function EventOf(raw: RawRow, ident: string): CalendarEvent
    requires Usable(raw)
  {
    CalendarEvent(
      Cut(ident), CountryOf(raw.currency), raw.currency, if FirstN(raw.name, NAME_LENGTH) == "" then "Unnamed event"
      else FirstN(raw.name, NAME_LENGTH), raw.when.value.time, ImportanceOf(raw.impact).value,
      if raw.notLoaded then None else raw.actual, raw.forecast, raw.previous)
  }

  /** The ident is the first candidate that has not been seen. */
  ghost predicate IsFirstFree(base: string, seen: set<string>, n: nat) {
    Candidate(base, n) !in seen && forall m: nat :: m < n ==> Candidate(base, m) in seen
  }

  ghost predicate Allocated(base: string, seen: set<string>, ident: string) {
    exists n: nat :: IsFirstFree(base, seen, n) && ident == Candidate(base, n)
  }

  lemma CandidateInjective(base: string, m: nat, n: nat)
    requires Candidate(base, m) == Candidate(base, n)
    ensures m == n
  {
    if m > 0 && n > 0 {
      assert Candidate(base, m)[|base| + 1..] == Decimal(m) && Candidate(base, n)[|base| + 1..] == Decimal(n);
      DecimalInjective(m, n);
    }
  }

  ghost function Tried(base: string, n: nat): set<string> {
    set m: nat | m < n :: Candidate(base, m)
  }

  /** The first `n` candidates are `n` different ids. */
  lemma {:induction false} TriedCount(base: string, n: nat)
    ensures |Tried(base, n)| == n
  {
    if n > 0 {
      TriedCount(base, n - 1);
      TriedStep(base, n - 1);
    }
  }

  lemma TriedStep(base: string, n: nat)
    ensures Tried(base, n + 1) == Tried(base, n) + {Candidate(base, n)} && Candidate(base, n) !in Tried(base, n)
  {
    if Candidate(base, n) in Tried(base, n) {
      var m: nat :| m < n && Candidate(base, m) == Candidate(base, n);
      CandidateInjective(base, m, n);
    }
  }

  lemma SubsetIsSmaller<T>(a: set<T>, b: set<T>)
    requires a <= b
    ensures |a| <= |b|
  {
    assert b == a + (b - a);
  }

  /** Pigeonhole: candidates that have all been seen are no more than the ids seen. */
  lemma SeenBoundsTries(base: string, seen: set<string>, n: nat)
    requires forall m: nat :: m < n ==> Candidate(base, m) in seen
    ensures n <= |seen|
  {
    TriedCount(base, n);
    SubsetIsSmaller(Tried(base, n), seen);
  }

  class EventBuilder {
    var seen: set<string>

    constructor ()
      ensures seen == {}
    {
      seen := {};
    }

    /** Draws the id of a row. The loop ends because every try is another id that has been seen. */
    method DrawIdent(base: string) returns (ident: string)
      modifies this
      ensures Allocated(base, old(seen), ident) && ident !in old(seen)
      ensures seen == old(seen) + {ident}
    {
      var n: nat := 1;
      ident := base;
      while ident in seen
        invariant seen == old(seen) && n >= 1 && ident == Candidate(base, n - 1)
        invariant forall m: nat :: m < n - 1 ==> Candidate(base, m) in seen
        decreases |seen| + 1 - n
      {
        forall m: nat | m < n ensures Candidate(base, m) in seen {
          assert m < n - 1 || m == n - 1;
        }
        SeenBoundsTries(base, seen, n);
        ident, n := base + ":" + Decimal(n), n + 1;
      }
      assert IsFirstFree(base, seen, n - 1);
      seen := seen + {ident};
    }

    /** The event of a usable row; rows that are not usable draw no id. */
    method ToEvent(raw: RawRow) returns (e: Option<CalendarEvent>, ghost ident: string)
      modifies this
      ensures e.Some? <==> Usable(raw)
      ensures Usable(raw) ==> Allocated(BaseId(raw), old(seen), ident) && seen == old(seen) + {ident}
      ensures Usable(raw) ==> e == Some(EventOf(raw, ident))
      ensures !Usable(raw) ==> seen == old(seen)
    {
      ident := "";
      var importance := ImportanceOf(raw.impact);
      if importance.None? {
        return None, ident;
      }
      if |raw.currency| != 3 || !raw.alphabetic {
        return None, ident;
      }
      if raw.when.None? {
        return None, ident;
      }
      var drawn := DrawIdent(BaseId(raw));
      ident := drawn;
      e := Some(EventOf(raw, drawn));
    }
  }

  function IsUsable(): RawRow -> bool {
    (raw: RawRow) => Usable(raw)
  }

  function IdentSet(idents: seq<string>): set<string> {
    set i | 0 <= i < |idents| :: idents[i]
  }

  /** Idents drawn one after the other for a list of base ids. */
  ghost predicate Draws(bases: seq<string>, idents: seq<string>) {
    |idents| == |bases| && forall i :: 0 <= i < |bases| ==> Allocated(bases[i], IdentSet(idents[..i]), idents[i])
  }

  ghost predicate AllUsable(rows: seq<RawRow>) {
    forall i :: 0 <= i < |rows| ==> Usable(rows[i])
  }

  ghost function Bases(rows: seq<RawRow>): (r: seq<string>)
    requires AllUsable(rows)
    ensures |r| == |rows| && forall i :: 0 <= i < |rows| ==> r[i] == BaseId(rows[i])
  {
    seq(|rows|, i requires 0 <= i < |rows| => BaseId(rows[i]))
  }

  ghost function Events(rows: seq<RawRow>, idents: seq<string>): (r: seq<CalendarEvent>)
    requires AllUsable(rows) && |idents| == |rows|
    ensures |r| == |rows| && forall i :: 0 <= i < |rows| ==> r[i] == EventOf(rows[i], idents[i])
  {
    seq(|rows|, i requires 0 <= i < |rows| => EventOf(rows[i], idents[i]))
  }

  predicate Earlier(a: CalendarEvent, b: CalendarEvent) {
    a.scheduledTime <= b.scheduledTime
  }

  lemma {:induction false} FilterUsable(rows: seq<RawRow>)
    ensures AllUsable(Filter(IsUsable(), rows))
  {
    if |rows| != 0 {
      FilterUsable(rows[..|rows| - 1]);
    }
  }

  lemma DrawsSnoc(bases: seq<string>, idents: seq<string>, base: string, ident: string)
    requires Draws(bases, idents) && Allocated(base, IdentSet(idents), ident)
    ensures Draws(bases + [base], idents + [ident])
    ensures IdentSet(idents + [ident]) == IdentSet(idents) + {ident}
  {
    var all := idents + [ident];
    forall i | 0 <= i < |all| ensures Allocated((bases + [base])[i], IdentSet(all[..i]), all[i]) {
      assert all[..i] == idents[..i];
      assert i == |idents| ==> idents[..i] == idents;
    }
    var bigger, smaller := IdentSet(all), IdentSet(idents) + {ident};
    forall x | x in smaller ensures x in bigger {
      if x == ident {
        assert all[|idents|] == x;
      } else {
        var i :| 0 <= i < |idents| && idents[i] == x;
        assert all[i] == x;
      }
    }
  }

  /** The events and idents of the usable rows so far. */
  ghost predicate Built(
    usable: seq<RawRow>, idents: seq<string>, events: seq<CalendarEvent>, seen: set<string>)
  {
    && AllUsable(usable) && Draws(Bases(usable), idents) && seen == IdentSet(idents)
    && events == Events(usable, idents)
  }

  lemma BuiltSnoc(
      usable: seq<RawRow>, idents: seq<string>, events: seq<CalendarEvent>, seen: set<string>, raw: RawRow,
      ident: string)
    requires Built(usable, idents, events, seen) && Usable(raw) && Allocated(BaseId(raw), seen, ident)
    ensures Built(usable + [raw], idents + [ident], events + [EventOf(raw, ident)], seen + {ident})
  {
    DrawsSnoc(Bases(usable), idents, BaseId(raw), ident);
    assert Bases(usable + [raw]) == Bases(usable) + [BaseId(raw)];
    assert Events(usable + [raw], idents + [ident]) == Events(usable, idents) + [EventOf(raw, ident)];
  }

  /** The coverage is the queried window, not the span of the events returned. */
  datatype Calendar = Calendar(
    source: string, fetchedAt: int, coverageStart: int, coverageEnd: int, events: seq<CalendarEvent>)

  /** The events of the rows under the ids drawn for them one after the other, in order of time. */
  ghost predicate IsCalendar(rows: seq<RawRow>, events: seq<CalendarEvent>) {
    AllUsable(rows) && exists idents :: Draws(Bases(rows), idents) && events == Sort(Earlier, Events(rows, idents))
  }

  /** The calendar of the usable rows in order of time, or a failure when no row is usable. */
  method BuildCalendar(rows: seq<RawRow>, source: string, now: int, windowStart: int, windowEnd: int)
    returns (r: Result<Calendar, string>)
    ensures r.Failure? <==> Filter(IsUsable(), rows) == []
    ensures r.Failure? ==> r.error == "no usable events returned; nothing written"
    ensures r.Success? ==> IsCalendar(Filter(IsUsable(), rows), r.value.events)
    ensures r.Success? ==> r.value == Calendar(
                             "JBlanked " + source + " calendar", now, windowStart, windowEnd, r.value.events)
  {
    ghost var idents: seq<string>;
    var builder := new EventBuilder();
    var events: seq<CalendarEvent> := [];
    idents := [];
    FilterUsable(rows);
    assert IdentSet([]) == {};
    for i := 0 to |rows|
      invariant Built(Filter(IsUsable(), rows[..i]), idents, events, builder.seen)
    {
      FilterStep(IsUsable(), rows, i);
      var e; ghost var ident;
      e, ident := builder.ToEvent(rows[i]);
      if e.Some? {
        BuiltSnoc(Filter(IsUsable(), rows[..i]), idents, events, IdentSet(idents), rows[i], ident);
        events := events + [e.value];
        idents := idents + [ident];
      }
    }
    assert rows[..|rows|] == rows;
    if |events| == 0 {
      return Failure("no usable events returned; nothing written");
    }
    r := Success(Calendar(
      "JBlanked " + source + " calendar", now, windowStart, windowEnd, Sort(Earlier, events)));
  }

  // ---------------------------------------------------------------- uniqueness

  ghost predicate IdsDistinct(events: seq<CalendarEvent>) {
    forall i, j :: 0 <= i < j < |events| ==> events[i].id != events[j].id
  }

  /** Idents never repeat. */
  lemma IdentsAreDistinct(bases: seq<string>, idents: seq<string>)
    requires Draws(bases, idents)
    ensures Distinct(idents)
  {
    forall i, j | 0 <= i < j < |idents| ensures idents[i] != idents[j] {
      assert idents[..j][i] in IdentSet(idents[..j]);
      var n: nat :| IsFirstFree(bases[j], IdentSet(idents[..j]), n) && idents[j] == Candidate(bases[j], n);
    }
  }

  lemma {:induction false} DecimalLength(m: nat, n: nat)
    requires m <= n
    ensures |Decimal(m)| <= |Decimal(n)|
    decreases n
  {
    if n >= 10 && m >= 10 {
      DecimalLength(m / 10, n / 10);
    }
  }

  /** When no drawn id exceeds the cut, the emitted ids are pairwise distinct. */
  lemma UncutIdsAreDistinct(rows: seq<RawRow>, idents: seq<string>)
    requires AllUsable(rows) && Draws(Bases(rows), idents)
    requires forall i :: 0 <= i < |rows| ==> |idents[i]| <= ID_LENGTH
    ensures IdsDistinct(Events(rows, idents))
  {
    IdentsAreDistinct(Bases(rows), idents);
  }

  lemma OneFirstFree(base: string, seen: set<string>, x: string, y: string)
    requires Allocated(base, seen, x) && Allocated(base, seen, y)
    ensures x == y
  {
  }

  lemma {:induction false} DrawsAgreeStep(base: string, a: seq<string>, b: seq<string>, k: nat)
    requires k < |a| == |b| && a[..k] == b[..k]
    requires Allocated(base, IdentSet(a[..k]), a[k]) && Allocated(base, IdentSet(b[..k]), b[k])
    ensures a[..k + 1] == b[..k + 1]
  {
    OneFirstFree(base, IdentSet(a[..k]), a[k], b[k]);
    assert a[..k + 1] == a[..k] + [a[k]] && b[..k + 1] == b[..k] + [b[k]];
  }

  /** The drawn ids are determined by the base ids and their order, so there is one calendar only. */
  lemma {:induction false} DrawsAgree(bases: seq<string>, a: seq<string>, b: seq<string>)
    requires Draws(bases, a) && Draws(bases, b)
    ensures a == b
  {
    for k := 0 to |bases|
      invariant a[..k] == b[..k]
    {
      DrawAt(bases, a, k);
      DrawAt(bases, b, k);
      DrawsAgreeStep(bases[k], a, b, k);
    }
    assert a[..|bases|] == a && b[..|bases|] == b;
  }

  function IdOf(e: CalendarEvent): string {
    e.id
  }

  lemma SortKeepsIdsDistinct(a: seq<CalendarEvent>, b: seq<CalendarEvent>)
    requires multiset(a) == multiset(b) && IdsDistinct(a)
    ensures IdsDistinct(b)
  {
    MapPermutes(IdOf, a, b);
    PermutedDistinct(Map(IdOf, a), Map(IdOf, b));
    forall i, j | 0 <= i < j < |b| ensures b[i].id != b[j].id {
      assert Map(IdOf, b)[i] != Map(IdOf, b)[j];
    }
  }

  // ---------------------------------------------------------------- what an event says

  /** The countries of the currencies the program knows. */
  const COUNTRIES: map<string, string> := map[
    "USD" := "United States", "EUR" := "Euro Area", "GBP" := "United Kingdom", "JPY" := "Japan", "AUD" := "Australia",
    "NZD" := "New Zealand", "CAD" := "Canada", "CHF" := "Switzerland", "CNY" := "China"
  ]

  predicate ImpactMeans(impact: string, importance: Importance) {
    (impact == "HIGH" && importance.HIGH?) || (impact == "MEDIUM" && importance.MEDIUM?)
    || (impact == "LOW" && importance.LOW?)
  }

  /** At most `n` characters of the text, and all of a shorter one. */
  predicate IsCutTo(n: nat, text: string, cut: string) {
    cut <= text && |cut| == if |text| < n then |text| else n
  }

  /** The row has an impact that counts, a currency of three letters, and a date. */
  predicate GivesEvent(raw: RawRow) {
    && (raw.impact == "HIGH" || raw.impact == "MEDIUM" || raw.impact == "LOW") && |raw.currency| == 3
    && raw.alphabetic && raw.when.Some?
  }

  predicate EventTold(raw: RawRow, ident: string, e: CalendarEvent) {
    && raw.when.Some? && e.scheduledTime == raw.when.value.time && IsCutTo(120, ident, e.id)
    && e.currency == raw.currency
    && e.country == (if raw.currency in COUNTRIES then COUNTRIES[raw.currency] else raw.currency)
    && (if raw.name == "" then e.name == "Unnamed event" else IsCutTo(200, raw.name, e.name))
    && ImpactMeans(raw.impact, e.importance) && e.actual == (if raw.notLoaded then None else raw.actual)
    && e.forecast == raw.forecast && e.previous == raw.previous
  }

  lemma CountriesAreTold(currency: string)
    ensures CountryOf(currency) == if currency in COUNTRIES then COUNTRIES[currency] else currency
  {
  }

  /** Which rows give an event, and what the event of a row under its id says. */
  lemma {:induction false} EventsAreTold(raw: RawRow, ident: string)
    ensures Usable(raw) <==> GivesEvent(raw)
    ensures Usable(raw) ==> EventTold(raw, ident, EventOf(raw, ident))
    ensures Usable(raw) ==> BaseId(raw) == raw.currency + ":" + raw.eventId + ":" + raw.when.value.minuteText
  {
    CountriesAreTold(raw.currency);
    if |raw.name| > 0 {
      assert |FirstN(raw.name, NAME_LENGTH)| > 0;
    }
  }

  // ---------------------------------------------------------------- the cut

  /** A proper prefix of a number's text is the text of a smaller number. */
  lemma {:induction false} DecimalPrefix(k: nat, length: nat) returns (m: nat)
    requires 1 <= length < |Decimal(k)|
    ensures 0 < m < k && Decimal(m) == Decimal(k)[..length]
  {
    if length == |Decimal(k / 10)| {
      m := k / 10;
    } else {
      m := DecimalPrefix(k / 10, length);
    }
  }

  /** The first `k` idents are the candidates of the base in order. */
  ghost predicate InOrder(base: string, idents: seq<string>, k: nat)
    requires k <= |idents|
  {
    forall j :: 0 <= j < k ==> idents[j] == Candidate(base, j)
  }

  lemma DrawAt(bases: seq<string>, idents: seq<string>, i: nat)
    requires Draws(bases, idents) && i < |bases|
    ensures Allocated(bases[i], IdentSet(idents[..i]), idents[i])
  {
  }

  lemma InOrderStep(base: string, idents: seq<string>, k: nat)
    requires k < |idents| && InOrder(base, idents, k) && Allocated(base, IdentSet(idents[..k]), idents[k])
    ensures InOrder(base, idents, k + 1)
  {
    NextCandidate(base, idents[..k], idents[k]);
  }

  /** Rows that share one base id draw its candidates in order. */
  lemma RepeatedBase(base: string, bases: seq<string>, idents: seq<string>)
    requires Draws(bases, idents) && forall j :: 0 <= j < |bases| ==> bases[j] == base
    ensures InOrder(base, idents, |idents|)
  {
    for k := 0 to |idents|
      invariant InOrder(base, idents, k)
    {
      DrawAt(bases, idents, k);
      InOrderStep(base, idents, k);
    }
  }

  lemma NextCandidate(base: string, before: seq<string>, ident: string)
    requires Allocated(base, IdentSet(before), ident)
    requires forall j :: 0 <= j < |before| ==> before[j] == Candidate(base, j)
    ensures ident == Candidate(base, |before|)
  {
    var seen, i := IdentSet(before), |before|;
    var n: nat :| IsFirstFree(base, seen, n) && ident == Candidate(base, n);
    forall m: nat | m < i ensures Candidate(base, m) in seen {
      assert before[m] in seen;
    }
    if n > i {
      assert Candidate(base, i) in seen;
      var j :| 0 <= j < i && before[j] == Candidate(base, i);
      CandidateInjective(base, j, i);
    }
  }

  /** No two of the first `k + 1` candidates agree after the cut. */
  ghost predicate CutsDistinct(base: string, k: nat) {
    forall i: nat, j: nat :: i < j <= k ==> Cut(Candidate(base, i)) != Cut(Candidate(base, j))
  }

  lemma CutsCollide(base: string, k: nat)
    requires k > 0 && !(|base| == ID_LENGTH - 1 && k == 1) && |Candidate(base, k)| > ID_LENGTH
    ensures !CutsDistinct(base, k)
  {
    if |base| >= ID_LENGTH {
      assert Cut(Candidate(base, 0)) == Cut(Candidate(base, 1));
    } else if |base| == ID_LENGTH - 1 {
      assert Cut(Candidate(base, 1)) == base + ":" == Cut(Candidate(base, 2));
    } else {
      var length := ID_LENGTH - |base| - 1;
      var m := DecimalPrefix(k, length);
      assert Cut(Candidate(base, k)) == base + ":" + Decimal(k)[..length] == Cut(Candidate(base, m));
    }
  }

  lemma CutsStayDistinct(base: string, k: nat)
    requires k == 0 || (|base| == ID_LENGTH - 1 && k == 1) || |Candidate(base, k)| <= ID_LENGTH
    ensures CutsDistinct(base, k)
  {
    forall i: nat, j: nat | i < j <= k ensures Cut(Candidate(base, i)) != Cut(Candidate(base, j)) {
      if |Candidate(base, k)| <= ID_LENGTH {
        DecimalLength(i, k);
        DecimalLength(j, k);
        if Candidate(base, i) == Candidate(base, j) {
          CandidateInjective(base, i, j);
        }
      }
    }
  }

  /**
   * The cut makes ids collide. Rows 0 to `k` of one base id get distinct emitted ids if and only if there is one row,
   * or the last candidate fits into 120 characters, or two rows share a base id of exactly 119.
   */
  lemma RepeatedBaseIsSafeIff(base: string, rows: seq<RawRow>, idents: seq<string>)
    requires AllUsable(rows) && Draws(Bases(rows), idents) && |rows| > 0
    requires forall i :: 0 <= i < |rows| ==> BaseId(rows[i]) == base
    ensures IdsDistinct(Events(rows, idents))
            <==> |rows| == 1 || |Candidate(base, |rows| - 1)| <= ID_LENGTH || (|rows| == 2 && |base| == ID_LENGTH - 1)
  {
    var k := |rows| - 1;
    RepeatedBase(base, Bases(rows), idents);
    CutIds(base, rows, idents);
    if k == 0 || |Candidate(base, k)| <= ID_LENGTH || (k == 1 && |base| == ID_LENGTH - 1) {
      CutsStayDistinct(base, k);
    } else {
      CutsCollide(base, k);
    }
  }

  /** The emitted ids of rows that drew the candidates of one base in order. */
  lemma CutIds(base: string, rows: seq<RawRow>, idents: seq<string>)
    requires AllUsable(rows) && |idents| == |rows| > 0
    requires forall j :: 0 <= j < |rows| ==> idents[j] == Candidate(base, j)
    ensures IdsDistinct(Events(rows, idents)) <==> CutsDistinct(base, |rows| - 1)
  {
    var es := Events(rows, idents);
    forall i: nat | i < |rows| ensures es[i].id == Cut(Candidate(base, i)) {
    }
    if IdsDistinct(es) {
      forall i: nat, j: nat | i < j <= |rows| - 1 ensures Cut(Candidate(base, i)) != Cut(Candidate(base, j)) {
        assert es[i].id != es[j].id;
      }
    }
  }

  /** The calendar lists the events in order of time, none lost or added. */
  lemma CalendarIsOrdered(rows: seq<RawRow>, idents: seq<string>)
    requires AllUsable(rows) && |idents| == |rows|
    ensures Sorted(Earlier, Sort(Earlier, Events(rows, idents)))
    ensures multiset(Sort(Earlier, Events(rows, idents))) == multiset(Events(rows, idents))
  {
    SortSorts(Earlier, Events(rows, idents));
    SortPermutes(Earlier, Events(rows, idents));
  }

  // ---------------------------------------------------------------- rows with any base ids

  /** The text ends with a part behind its last colon that is no number. */
  ghost predicate Stamped(base: string) {
    exists head: string, stamp: string :: IsStamp(base, head, stamp)
  }

  ghost predicate IsStamp(base: string, head: string, stamp: string) {
    base == head + ":" + stamp && ':' !in stamp && 'T' in stamp
  }

  lemma {:induction false} BasesAreStamped(raw: RawRow)
    requires Usable(raw)
    ensures Stamped(BaseId(raw))
  {
    assert IsStamp(BaseId(raw), raw.currency + ":" + raw.eventId, raw.when.value.minuteText);
  }

  lemma {:induction false} DigitsOnly(n: nat)
    ensures forall c :: c in Decimal(n) ==> c != ':' && c != 'T'
  {
    assert forall d: nat :: d < 10 ==> Digit(d) != ':' && Digit(d) != 'T';
    if n >= 10 {
      DigitsOnly(n / 10);
    }
  }

  /** No candidate of one base is a candidate of another. */
  lemma {:induction false} CandidatesApart(b: string, m: nat, c: string, n: nat)
    requires Stamped(b) && Stamped(c) && Candidate(b, m) == Candidate(c, n)
    ensures b == c && m == n
  {
    DigitsOnly(m);
    DigitsOnly(n);
    if m > 0 && n > 0 {
      LastSplit(':', b, Decimal(m), c, Decimal(n));
      DecimalInjective(m, n);
    } else if m > 0 {
      NumberIsNoStamp(b, m, c);
    } else if n > 0 {
      NumberIsNoStamp(c, n, b);
    }
  }

  lemma {:induction false} NumberIsNoStamp(b: string, m: nat, c: string)
    requires m > 0 && Stamped(c)
    ensures Candidate(b, m) != c
  {
    if Candidate(b, m) == c {
      var head, stamp :| IsStamp(c, head, stamp);
      DigitsOnly(m);
      LastSplit(':', b, Decimal(m), head, stamp);
    }
  }

  /** How often a base occurs. */
  function Count(base: string, bases: seq<string>): nat {
    if |bases| == 0 then 0
    else Count(base, bases[..|bases| - 1]) + if bases[|bases| - 1] == base then 1 else 0
  }

  /** How many rows before this one share its base. */
  function Rank(bases: seq<string>, i: nat): nat
    requires i < |bases|
  {
    Count(bases[i], bases[..i])
  }

  lemma {:induction false} CountStep(base: string, bases: seq<string>, i: nat)
    requires i < |bases|
    ensures Count(base, bases[..i + 1]) == Count(base, bases[..i]) + if bases[i] == base then 1 else 0
  {
    assert bases[..i + 1][..i] == bases[..i];
  }

  lemma {:induction false} RankBelowCount(bases: seq<string>, i: nat, n: nat)
    requires i < n <= |bases|
    ensures Rank(bases, i) < Count(bases[i], bases[..n])
    decreases n
  {
    CountStep(bases[i], bases, n - 1);
    if i < n - 1 {
      RankBelowCount(bases, i, n - 1);
    }
  }

  /** Every rank below the number of occurrences is taken by a row. */
  lemma {:induction false} RankIsTaken(base: string, bases: seq<string>, n: nat, m: nat) returns (i: nat)
    requires n <= |bases| && m < Count(base, bases[..n])
    ensures i < n && bases[i] == base && Rank(bases, i) == m
    decreases n
  {
    CountStep(base, bases, n - 1);
    if m < Count(base, bases[..n - 1]) {
      i := RankIsTaken(base, bases, n - 1, m);
    } else {
      i := n - 1;
    }
  }

  lemma {:induction false} RanksDiffer(bases: seq<string>, i: nat, j: nat)
    requires i < j < |bases| && bases[i] == bases[j]
    ensures Rank(bases, i) < Rank(bases, j)
  {
    RankBelowCount(bases, i, j);
  }

  ghost predicate AllStamped(bases: seq<string>) {
    forall i :: 0 <= i < |bases| ==> Stamped(bases[i])
  }

  /** The first `k` rows drew the candidate of their rank. */
  ghost predicate DrawnByRank(bases: seq<string>, idents: seq<string>, k: nat)
    requires k <= |bases| == |idents|
  {
    forall i :: 0 <= i < k ==>
      idents[i] == if Rank(bases, i) == 0 then bases[i] else bases[i] + ":" + Decimal(Rank(bases, i))
  }

  /** Among the drawn ids exactly the candidates below the number of occurrences are those of a base. */
  lemma {:induction false} SeenOfBase(bases: seq<string>, idents: seq<string>, k: nat, base: string, m: nat)
    requires k <= |bases| == |idents| && AllStamped(bases) && Stamped(base) && DrawnByRank(bases, idents, k)
    ensures Candidate(base, m) in IdentSet(idents[..k]) <==> m < Count(base, bases[..k])
  {
    if m < Count(base, bases[..k]) {
      var i := RankIsTaken(base, bases, k, m);
      assert idents[..k][i] == Candidate(base, m);
    }
    if Candidate(base, m) in IdentSet(idents[..k]) {
      var i :| 0 <= i < k && idents[..k][i] == Candidate(base, m);
      CandidatesApart(bases[i], Rank(bases, i), base, m);
      RankBelowCount(bases, i, k);
    }
  }

  lemma {:induction false} RankStep(bases: seq<string>, idents: seq<string>, k: nat)
    requires k < |bases| && Draws(bases, idents) && AllStamped(bases) && DrawnByRank(bases, idents, k)
    ensures DrawnByRank(bases, idents, k + 1)
  {
    var base, seen, r := bases[k], IdentSet(idents[..k]), Rank(bases, k);
    DrawAt(bases, idents, k);
    forall m: nat | m <= r ensures Candidate(base, m) in seen <==> m < r {
      SeenOfBase(bases, idents, k, base, m);
    }
    FirstFreeIs(base, seen, idents[k], r);
  }

  lemma FirstFreeIs(base: string, seen: set<string>, ident: string, r: nat)
    requires Allocated(base, seen, ident) && forall m: nat :: m <= r ==> (Candidate(base, m) in seen <==> m < r)
    ensures ident == Candidate(base, r)
  {
    var n: nat :| IsFirstFree(base, seen, n) && ident == Candidate(base, n);
  }

  /** Every row draws the candidate of its rank among the rows that share its base. */
  lemma {:induction false} RowsDrawByRank(bases: seq<string>, idents: seq<string>)
    requires Draws(bases, idents) && AllStamped(bases)
    ensures DrawnByRank(bases, idents, |bases|)
  {
    for k := 0 to |bases|
      invariant DrawnByRank(bases, idents, k)
    {
      RankStep(bases, idents, k);
    }
  }

  /** So many rows may share the base without a clash of their cut ids. */
  predicate MayRepeat(base: string, times: nat) {
    times <= 1 || |Candidate(base, times - 1)| <= ID_LENGTH || (times == 2 && |base| == ID_LENGTH - 1)
  }

  /**
   * What the rows must meet: no base is repeated too often, and no base longer than the cut starts with the emitted id
   * of a row with another base.
   */
  ghost predicate IdsWillDiffer(bases: seq<string>) {
    && (forall i :: 0 <= i < |bases| ==> MayRepeat(bases[i], Count(bases[i], bases)))
    && forall i, j :: 0 <= i < |bases| && 0 <= j < |bases| && bases[i] != bases[j] && |bases[i]| > ID_LENGTH ==>
         bases[i][..ID_LENGTH] != Cut(Candidate(bases[j], Rank(bases, j)))
  }

  lemma {:induction false} CutOfLongBase(base: string, n: nat)
    requires |base| >= ID_LENGTH
    ensures Cut(Candidate(base, n)) == base[..ID_LENGTH]
  {
  }

  /** A base that may repeat has its candidates cut only as the 121 characters behind a base of 119. */
  lemma {:induction false} RarelyCut(base: string, times: nat, m: nat)
    requires MayRepeat(base, times) && m < times && |base| <= ID_LENGTH
    ensures |Candidate(base, m)| <= ID_LENGTH || (|base| == ID_LENGTH - 1 && Cut(Candidate(base, m)) == base + ":")
  {
    if times > 1 {
      DecimalLength(m, times - 1);
    }
  }

  lemma {:induction false} NoColonAtEnd(base: string, n: nat)
    requires Stamped(base)
    ensures var s := Candidate(base, n); s != [] && s[|s| - 1] != ':'
  {
    var s := Candidate(base, n);
    if n > 0 {
      DigitsOnly(n);
      assert s[|s| - 1] == Decimal(n)[|Decimal(n)| - 1];
    } else {
      var head, stamp :| IsStamp(base, head, stamp);
      assert s[|s| - 1] == stamp[|stamp| - 1];
    }
  }

  /** Cut candidates of different bases within the cut differ. */
  lemma {:induction false} ShortBasesApart(b: string, k: nat, m: nat, c: string, l: nat, n: nat)
    requires Stamped(b) && Stamped(c) && b != c && |b| <= ID_LENGTH && |c| <= ID_LENGTH
    requires MayRepeat(b, k) && m < k && MayRepeat(c, l) && n < l
    ensures Cut(Candidate(b, m)) != Cut(Candidate(c, n))
  {
    RarelyCut(b, k, m);
    RarelyCut(c, l, n);
    NoColonAtEnd(b, m);
    NoColonAtEnd(c, n);
    if Candidate(b, m) == Candidate(c, n) {
      CandidatesApart(b, m, c, n);
    }
    assert b == (b + ":")[..|b|] && c == (c + ":")[..|c|];
  }

  lemma {:induction false} SameBaseDiffers(bases: seq<string>, i: nat, j: nat)
    requires i < j < |bases| && bases[i] == bases[j]
    ensures MayRepeat(bases[i], Count(bases[i], bases)) ==>
              Cut(Candidate(bases[i], Rank(bases, i))) != Cut(Candidate(bases[j], Rank(bases, j)))
  {
    RanksDiffer(bases, i, j);
    RankBelowCount(bases, j, |bases|);
    assert bases[..|bases|] == bases;
    if MayRepeat(bases[i], Count(bases[i], bases)) {
      CutsStayDistinct(bases[i], Count(bases[i], bases) - 1);
    }
  }

  lemma {:induction false} OtherBaseDiffers(bases: seq<string>, i: nat, j: nat)
    requires i < |bases| && j < |bases| && bases[i] != bases[j] && AllStamped(bases) && IdsWillDiffer(bases)
    ensures Cut(Candidate(bases[i], Rank(bases, i))) != Cut(Candidate(bases[j], Rank(bases, j)))
  {
    assert bases[..|bases|] == bases;
    RankBelowCount(bases, i, |bases|);
    RankBelowCount(bases, j, |bases|);
    if |bases[i]| > ID_LENGTH {
      CutOfLongBase(bases[i], Rank(bases, i));
    } else if |bases[j]| > ID_LENGTH {
      CutOfLongBase(bases[j], Rank(bases, j));
    } else {
      ShortBasesApart(
        bases[i], Count(bases[i], bases), Rank(bases, i), bases[j], Count(bases[j], bases), Rank(bases, j));
    }
  }

  /** All cut ids of the rows differ. */
  ghost predicate CutIdsDiffer(bases: seq<string>) {
    forall i, j :: 0 <= i < j < |bases| ==>
      Cut(Candidate(bases[i], Rank(bases, i))) != Cut(Candidate(bases[j], Rank(bases, j)))
  }

  lemma {:induction false} DifferSuffices(bases: seq<string>)
    requires AllStamped(bases) && IdsWillDiffer(bases)
    ensures CutIdsDiffer(bases)
  {
    forall i, j | 0 <= i < j < |bases|
      ensures Cut(Candidate(bases[i], Rank(bases, i))) != Cut(Candidate(bases[j], Rank(bases, j)))
    {
      if bases[i] == bases[j] {
        SameBaseDiffers(bases, i, j);
      } else {
        OtherBaseDiffers(bases, i, j);
      }
    }
  }

  /** Two ranks of one base whose candidates agree after the cut belong to two rows that clash. */
  lemma {:induction false} ClashOfRanks(bases: seq<string>, base: string, p: nat, q: nat)
    requires p < q < Count(base, bases) && Cut(Candidate(base, p)) == Cut(Candidate(base, q))
    ensures !CutIdsDiffer(bases)
  {
    assert bases[..|bases|] == bases;
    var x := RankIsTaken(base, bases, |bases|, p);
    var y := RankIsTaken(base, bases, |bases|, q);
    assert x < y || y < x;
  }

  lemma {:induction false} RepeatsAreNeeded(bases: seq<string>, i: nat)
    requires i < |bases| && CutIdsDiffer(bases)
    ensures MayRepeat(bases[i], Count(bases[i], bases))
  {
    var b, k := bases[i], Count(bases[i], bases);
    if !MayRepeat(b, k) {
      CutsCollide(b, k - 1);
      var p: nat, q: nat :| p < q <= k - 1 && Cut(Candidate(b, p)) == Cut(Candidate(b, q));
      ClashOfRanks(bases, b, p, q);
    }
  }

  lemma {:induction false} DifferIsNeeded(bases: seq<string>)
    requires CutIdsDiffer(bases)
    ensures IdsWillDiffer(bases)
  {
    forall i | 0 <= i < |bases| ensures MayRepeat(bases[i], Count(bases[i], bases)) {
      RepeatsAreNeeded(bases, i);
    }
    forall i, j | 0 <= i < |bases| && 0 <= j < |bases| && bases[i] != bases[j] && |bases[i]| > ID_LENGTH
      ensures bases[i][..ID_LENGTH] != Cut(Candidate(bases[j], Rank(bases, j)))
    {
      CutOfLongBase(bases[i], Rank(bases, i));
      assert i < j || j < i;
    }
  }

  /**
   * The exact condition for any rows: their emitted ids are pairwise distinct if and only if no base is repeated too
   * often for the cut, and no base longer than the cut starts with the emitted id of a row with another base.
   */
  lemma {:induction false} EmittedIdsDistinctIff(rows: seq<RawRow>, idents: seq<string>)
    requires AllUsable(rows) && Draws(Bases(rows), idents)
    ensures IdsDistinct(Events(rows, idents)) <==> IdsWillDiffer(Bases(rows))
  {
    var bases := Bases(rows);
    forall i | 0 <= i < |rows| ensures Stamped(bases[i]) {
      BasesAreStamped(rows[i]);
    }
    RowsDrawByRank(bases, idents);
    EmittedAreCuts(rows, idents);
    if IdsWillDiffer(bases) {
      DifferSuffices(bases);
    }
    if CutIdsDiffer(bases) {
      DifferIsNeeded(bases);
    }
  }

  lemma {:induction false} EmittedAreCuts(rows: seq<RawRow>, idents: seq<string>)
    requires AllUsable(rows) && |idents| == |rows| && DrawnByRank(Bases(rows), idents, |rows|)
    ensures IdsDistinct(Events(rows, idents)) <==> CutIdsDiffer(Bases(rows))
  {
    var es, bases := Events(rows, idents), Bases(rows);
    forall i: nat | i < |rows| ensures es[i].id == Cut(Candidate(bases[i], Rank(bases, i))) {
    }
    if IdsDistinct(es) {
      forall i, j | 0 <= i < j < |rows|
        ensures Cut(Candidate(bases[i], Rank(bases, i))) != Cut(Candidate(bases[j], Rank(bases, j)))
      {
        assert es[i].id != es[j].id;
      }
    }
  }

  /**
   * A calendar has one event per row, in order of time, and its ids are pairwise distinct if and only if the base ids
   * of the rows will differ after the cut.
   */
  lemma {:induction false} CalendarIsSound(rows: seq<RawRow>, events: seq<CalendarEvent>)
    requires IsCalendar(rows, events)
    ensures |events| == |rows|
    ensures forall i, j :: 0 <= i < j < |events| ==> events[i].scheduledTime <= events[j].scheduledTime
    ensures IdsDistinct(events) <==> IdsWillDiffer(Bases(rows))
  {
    var idents :| Draws(Bases(rows), idents) && events == Sort(Earlier, Events(rows, idents));
    var unsorted := Events(rows, idents);
    CalendarIsOrdered(rows, idents);
    SortPermutes(Earlier, unsorted);
    EmittedIdsDistinctIff(rows, idents);
    if IdsDistinct(unsorted) {
      SortKeepsIdsDistinct(unsorted, events);
    }
    if IdsDistinct(events) {
      SortKeepsIdsDistinct(events, unsorted);
    }
  }

  function AtTime(t: int): CalendarEvent -> bool {
    (e: CalendarEvent) => e.scheduledTime == t
  }

  /** A calendar holds the events of its rows under their ids, and events of one time keep the order of the rows. */
  lemma {:induction false} CalendarHoldsItsRows(rows: seq<RawRow>, events: seq<CalendarEvent>)
    returns (idents: seq<string>, told: seq<CalendarEvent>)
    requires IsCalendar(rows, events)
    ensures |told| == |idents| == |rows| && multiset(told) == multiset(events)
    ensures forall i :: 0 <= i < |rows| ==> GivesEvent(rows[i]) && EventTold(rows[i], idents[i], told[i])
    ensures forall t: int :: Filter(AtTime(t), events) == Filter(AtTime(t), told)
  {
    idents :| Draws(Bases(rows), idents) && events == Sort(Earlier, Events(rows, idents));
    told := Events(rows, idents);
    SortPermutes(Earlier, told);
    forall i | 0 <= i < |rows| ensures GivesEvent(rows[i]) && EventTold(rows[i], idents[i], told[i]) {
      EventsAreTold(rows[i], idents[i]);
    }
    forall t: int ensures Filter(AtTime(t), events) == Filter(AtTime(t), told) {
      SortIsStable(Earlier, AtTime(t), told);
    }
  }

  lemma {:induction false} CountAtMost(base: string, bases: seq<string>)
    ensures Count(base, bases) <= |bases|
  {
    if |bases| > 0 {
      CountAtMost(base, bases[..|bases| - 1]);
    }
  }

  /** Every base id leaves room for a suffix as long as the number of rows. */
  predicate LeavesRoom(rows: seq<RawRow>)
    requires forall i :: 0 <= i < |rows| ==> Usable(rows[i])
  {
    forall i :: 0 <= i < |rows| ==> |BaseId(rows[i])| + 1 + |Decimal(|rows|)| <= ID_LENGTH
  }

  /** With short event ids, as the provider's numbers are, the condition holds: no id of the calendar is repeated. */
  lemma {:induction false} ShortIdsAreDistinct(rows: seq<RawRow>, events: seq<CalendarEvent>)
    requires IsCalendar(rows, events)
    ensures LeavesRoom(rows) ==> IdsDistinct(events)
  {
    var bases := Bases(rows);
    CalendarIsSound(rows, events);
    if LeavesRoom(rows) {
      forall i | 0 <= i < |bases| ensures MayRepeat(bases[i], Count(bases[i], bases)) && |bases[i]| <= ID_LENGTH {
        CountAtMost(bases[i], bases);
        if Count(bases[i], bases) > 1 {
          DecimalLength(Count(bases[i], bases) - 1, |rows|);
        }
      }
    }
  }

  /** A text of one letter. */
  function Letters(n: nat): string {
    seq(n, i => 'A')
  }

  function LongRow(length: nat): RawRow {
    RawRow("HIGH", "USD", true, Letters(length), Some(When(0, "20260101T0000")), "CPI", false, None, None, None)
  }

  /** Two rows under one event id of 104 characters make a calendar, and both its events have the same id. */
  lemma {:induction false} CutIdsCanCollide() returns (rows: seq<RawRow>, events: seq<CalendarEvent>)
    ensures rows == [LongRow(104), LongRow(104)] && IsCalendar(rows, events)
    ensures |events| == 2 && events[0].id == events[1].id
  {
    var row := LongRow(104);
    var base := BaseId(row);
    rows := [row, row];
    assert |base| == 122;
    var idents := [base, Candidate(base, 1)];
    TwoDraws(base, Bases(rows), idents);
    events := Sort(Earlier, Events(rows, idents));
    CalendarIsSound(rows, events);
    assert Bases(rows) == [base, base];
    TwoOfOne(base);
    assert !MayRepeat(Bases(rows)[0], Count(base, Bases(rows)));
  }

  lemma {:induction false} TwoOfOne(base: string)
    ensures Count(base, [base, base]) == 2
  {
    assert [base, base][..1] == [base] && [base][..0] == [];
    assert Count(base, [base]) == 1;
  }

  lemma {:induction false} TwoDraws(base: string, bases: seq<string>, idents: seq<string>)
    requires bases == [base, base] && idents == [base, Candidate(base, 1)]
    ensures Draws(bases, idents)
  {
    assert IdentSet(idents[..0]) == {};
    assert IsFirstFree(base, {}, 0);
    assert idents[..1] == [base] && [base][0] in IdentSet([base]);
    assert |Candidate(base, 1)| > |base|;
    assert IsFirstFree(base, IdentSet(idents[..1]), 1);
  }
}
