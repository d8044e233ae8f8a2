/** What holds of the ready watches in every run of the alert monitor. */
module WatchRuns {
  import opened Wrappers
  import opened Domain
  import opened Seqs
  import opened AlertModels
  import opened AlertRules
  import opened ReadyChecklist
  import opened AlertService

  // ---------------------------------------------------------------- runs

  ghost predicate CoherentEvents(events: seq<Event>) {
    forall i :: 0 <= i < |events| && events[i].Evaluated? ==> Coherent(events[i].s)
  }

  /** The ids drawn for new watches never repeat. */
  ghost predicate FreshIds(events: seq<Event>) {
    forall i, j :: 0 <= i < j < |events| && events[i].AddWatch? && events[j].AddWatch? ==> events[i].id != events[j].id
  }

  /** A run of the service: the events, the states between them and the alerts each event raised. */
  datatype ServiceRun = ServiceRun(events: seq<Event>, states: seq<ServiceState>, raised: seq<seq<Alert>>)

  ghost predicate Follows(cfg: AlertConfig, run: ServiceRun, i: nat)
    requires i < |run.events| && |run.states| == |run.events| + 1 && |run.raised| == |run.events|
    requires CoherentEvents(run.events)
  {
    Step(cfg, run.states[i], run.events[i]) == (run.states[i + 1], run.raised[i])
  }

  ghost predicate IsServiceRun(cfg: AlertConfig, run: ServiceRun) {
    && |run.states| == |run.events| + 1 && |run.raised| == |run.events| && CoherentEvents(run.events)
    && FreshIds(run.events) && run.states[0] == EMPTY_SERVICE
    && forall i: nat :: i < |run.events| ==> Follows(cfg, run, i)
  }

  const FIRST_SERVICE_RUN := ServiceRun([], [EMPTY_SERVICE], [])

  /** The id was not drawn by any of the events. */
  ghost predicate NotDrawn(events: seq<Event>, id: string) {
    forall i :: 0 <= i < |events| && events[i].AddWatch? ==> events[i].id != id
  }

  /** Every event with coherent data and an unused id can follow a run. */
  lemma ExtendRun(cfg: AlertConfig, run: ServiceRun, e: Event) returns (run': ServiceRun)
    requires IsServiceRun(cfg, run) && (e.Evaluated? ==> Coherent(e.s)) && (e.AddWatch? ==> NotDrawn(run.events, e.id))
    ensures IsServiceRun(cfg, run') && run'.events == run.events + [e]
    ensures run'.states[..|run.states|] == run.states && run'.raised[..|run.raised|] == run.raised
    ensures Step(cfg, run.states[|run.events|], e) == (run'.states[|run.events| + 1], run'.raised[|run.events|])
  {
    var (st, raised) := Step(cfg, run.states[|run.events|], e);
    run' := ServiceRun(run.events + [e], run.states + [st], run.raised + [raised]);
    forall i: nat | i < |run'.events| ensures Follows(cfg, run', i) {
      if i < |run.events| {
        assert Follows(cfg, run, i);
      }
    }
  }

  lemma WatchesFollow(cfg: AlertConfig, run: ServiceRun, n: nat)
    requires IsServiceRun(cfg, run) && n < |run.events|
    ensures run.states[n + 1].watches == WatchesAfter(cfg, run.states[n].watches, run.events[n])
  {
    assert Follows(cfg, run, n);
  }

  // ---------------------------------------------------------------- one event

  /** What an event makes of a watch that it does not remove. */
  ghost function Evolved(w: ReadyWatch, e: Event): ReadyWatch {
    if e.Evaluated? then Checked(w, e.s, e.authority) else w
  }

  ghost predicate IsCreated(w: ReadyWatch, e: Event) {
    e.AddWatch? && e.instrument.Some? && w == NewWatch(e.id, e.instrument.value, e.direction, e.now)
  }

  ghost predicate UniqueIds(ws: seq<ReadyWatch>) {
    forall i, j :: 0 <= i < j < |ws| ==> ws[i].id != ws[j].id
  }

  /** Every watch after an event is one from before, evolved, or the one created. */
  lemma WatchesComeFrom(cfg: AlertConfig, ws: seq<ReadyWatch>, e: Event, w': ReadyWatch)
    requires w' in WatchesAfter(cfg, ws, e)
    ensures (exists w :: w in ws && w' == Evolved(w, e)) || IsCreated(w', e)
  {
    var ws' := WatchesAfter(cfg, ws, e);
    var i :| 0 <= i < |ws'| && ws'[i] == w';
    if e.Evaluated? {
      assert ws[i] in ws;
    } else if w' in ws {
      assert w' == Evolved(w', e);
    }
  }

  lemma EvolvedKeeps(w: ReadyWatch, e: Event)
    ensures var w' := Evolved(w, e); w'.id == w.id && w'.symbol == w.symbol && w'.direction == w.direction
    ensures w.state == FIRED ==> Evolved(w, e) == w
  {
  }

  // ---------------------------------------------------------------- ids

  /** The id was drawn by one of the first `n` events. */
  ghost predicate Issued(events: seq<Event>, n: nat, id: string)
    requires n <= |events|
  {
    exists i :: 0 <= i < n && events[i].AddWatch? && events[i].id == id
  }

  lemma WithoutIsSubset(ws: seq<ReadyWatch>, k: nat)
    requires k < |ws| && UniqueIds(ws)
    ensures UniqueIds(Without(ws, k)) && forall w :: w in Without(ws, k) ==> w in ws
  {
  }

  /** Watches of issued ids, no two of the same id. */
  ghost predicate WellIdentified(events: seq<Event>, n: nat, ws: seq<ReadyWatch>)
    requires n <= |events|
  {
    UniqueIds(ws) && forall w :: w in ws ==> Issued(events, n, w.id)
  }

  lemma IssuedStays(events: seq<Event>, n: nat, id: string)
    requires n < |events| && Issued(events, n, id)
    ensures Issued(events, n + 1, id)
  {
    var i :| 0 <= i < n && events[i].AddWatch? && events[i].id == id;
  }

  lemma NotIssuedYet(events: seq<Event>, n: nat)
    requires n < |events| && FreshIds(events) && events[n].AddWatch?
    ensures !Issued(events, n, events[n].id) && Issued(events, n + 1, events[n].id)
  {
  }

  /** A fresh id is appended. */
  lemma PutAppends(ws: seq<ReadyWatch>, w: ReadyWatch)
    requires forall v :: v in ws ==> v.id != w.id
    ensures Put(ws, w) == ws + [w]
  {
    assert forall i :: 0 <= i < |ws| ==> ws[i] in ws;
  }

  /** A created watch stands behind all others. */
  lemma CreatedIsAppended(cfg: AlertConfig, events: seq<Event>, n: nat, ws: seq<ReadyWatch>)
    requires n < |events| && FreshIds(events) && WellIdentified(events, n, ws) && events[n].AddWatch?
    ensures var e := events[n];
            WatchesAfter(cfg, ws, e)
            == if Creates(cfg, ws, e.instrument, e.direction)
               then ws + [NewWatch(e.id, e.instrument.value, e.direction, e.now)] else ws
  {
    NotIssuedYet(events, n);
    var e := events[n];
    if Creates(cfg, ws, e.instrument, e.direction) {
      PutAppends(ws, NewWatch(e.id, e.instrument.value, e.direction, e.now));
    }
  }

  lemma IdentifiedStep(cfg: AlertConfig, events: seq<Event>, n: nat, ws: seq<ReadyWatch>)
    requires n < |events| && FreshIds(events) && WellIdentified(events, n, ws)
    ensures WellIdentified(events, n + 1, WatchesAfter(cfg, ws, events[n]))
  {
    var e := events[n];
    var ws' := WatchesAfter(cfg, ws, e);
    forall w' | w' in ws' ensures Issued(events, n + 1, w'.id) {
      WatchesComeFrom(cfg, ws, e, w');
      if w :| w in ws && w' == Evolved(w, e) {
        IssuedStays(events, n, w.id);
      } else {
        NotIssuedYet(events, n);
      }
    }
    if e.AddWatch? {
      CreatedIsAppended(cfg, events, n, ws);
      NotIssuedYet(events, n);
      assert forall w :: w in ws ==> w.id != e.id;
    } else if e.RemoveWatch? && IndexOf(ws, e.id) < |ws| {
      WithoutIsSubset(ws, IndexOf(ws, e.id));
    }
  }

  lemma {:induction false} AlwaysIdentified(cfg: AlertConfig, run: ServiceRun, n: nat)
    requires IsServiceRun(cfg, run) && n <= |run.events|
    ensures WellIdentified(run.events, n, run.states[n].watches)
  {
    if n > 0 {
      AlwaysIdentified(cfg, run, n - 1);
      WatchesFollow(cfg, run, n - 1);
      IdentifiedStep(cfg, run.events, n - 1, run.states[n - 1].watches);
    }
  }

  // ---------------------------------------------------------------- life of a watch

  /** A watch is the one of the same id before the event, evolved, when that id was issued before. */
  lemma Predecessor(cfg: AlertConfig, run: ServiceRun, n: nat, w': ReadyWatch) returns (w: ReadyWatch)
    requires IsServiceRun(cfg, run) && n < |run.events| && w' in run.states[n + 1].watches
    requires Issued(run.events, n, w'.id)
    ensures w in run.states[n].watches && w.id == w'.id && w' == Evolved(w, run.events[n])
  {
    WatchesFollow(cfg, run, n);
    WatchesComeFrom(cfg, run.states[n].watches, run.events[n], w');
    if IsCreated(w', run.events[n]) {
      NotIssuedYet(run.events, n);
    }
    w :| w in run.states[n].watches && w' == Evolved(w, run.events[n]);
    EvolvedKeeps(w, run.events[n]);
  }

  lemma SameIdSameWatch(ws: seq<ReadyWatch>, w: ReadyWatch, v: ReadyWatch)
    requires UniqueIds(ws) && w in ws && v in ws && w.id == v.id
    ensures w == v
  {
  }

  lemma {:induction false} IssuedLater(events: seq<Event>, i: nat, j: nat, id: string)
    requires i <= j <= |events| && Issued(events, i, id)
    ensures Issued(events, j, id)
  {
  }

  /** FIRED is absorbing: a fired watch stays exactly as it is until it is removed, and its id never comes back. */
  lemma {:induction false} FiredIsAbsorbing(
      cfg: AlertConfig, run: ServiceRun, i: nat, j: nat, w: ReadyWatch, w': ReadyWatch)
    requires IsServiceRun(cfg, run) && i <= j <= |run.events|
    requires w in run.states[i].watches && w' in run.states[j].watches && w.id == w'.id && w.state == FIRED
    ensures w' == w
    decreases j
  {
    AlwaysIdentified(cfg, run, i);
    if i == j {
      SameIdSameWatch(run.states[i].watches, w, w');
    } else {
      IssuedLater(run.events, i, j - 1, w.id);
      var v := Predecessor(cfg, run, j - 1, w');
      FiredIsAbsorbing(cfg, run, i, j - 1, w, v);
      EvolvedKeeps(w, run.events[j - 1]);
    }
  }

  /** The event makes the watch fire. */
  ghost predicate FiresAt(run: ServiceRun, n: nat, w: ReadyWatch)
    requires n < |run.events|
  {
    run.events[n].Evaluated? && FiresNow(w, run.events[n].s, run.events[n].authority)
  }

  /** An evaluation of the symbol with full authority whose verdict has the watched direction, or any when none is. */
  predicate Triggers(e: Event, symbol: string, direction: Option<Direction>) {
    && e.Evaluated? && e.s.symbol == symbol && e.authority == "FULL"
    && VerdictAsWatched(e.s.verdict, direction)
  }

  lemma TriggersIff(run: ServiceRun, n: nat, w: ReadyWatch)
    requires n < |run.events|
    ensures FiresAt(run, n, w) <==> w.state != FIRED && Triggers(run.events[n], w.symbol, w.direction)
  {
  }

  /**
   * A watch that has not fired fires in a step exactly when its symbol is evaluated with FULL authority and LONG for a
   * bullish watch, SHORT for a bearish one, or either for a watch without direction; the time of firing is that of the
   * evaluation.
   */
  lemma FiresOnlyAsWatched(cfg: AlertConfig, run: ServiceRun, n: nat, w: ReadyWatch, w': ReadyWatch)
    requires IsServiceRun(cfg, run) && n < |run.events| && w.id == w'.id && w.state != FIRED
    requires w in run.states[n].watches && w' in run.states[n + 1].watches
    ensures w'.state == FIRED <==> Triggers(run.events[n], w.symbol, w.direction)
    ensures w'.state == FIRED ==> w'.firedAt == Some(run.events[n].s.now)
  {
    AlwaysIdentified(cfg, run, n);
    var v := Predecessor(cfg, run, n, w');
    SameIdSameWatch(run.states[n].watches, w, v);
    TriggersIff(run, n, w);
  }

  /**
   * What a step makes of an open watch: nothing unless its symbol is evaluated; then its state, conditions, next
   * requirement and times are new, and everything else stays.
   */
  lemma {:induction false} OpenWatchAfter(cfg: AlertConfig, run: ServiceRun, n: nat, w: ReadyWatch, w': ReadyWatch)
    requires IsServiceRun(cfg, run) && n < |run.events| && w.id == w'.id && w.state != FIRED
    requires w in run.states[n].watches && w' in run.states[n + 1].watches
    ensures var e := run.events[n];
            if e.Evaluated? && e.s.symbol == w.symbol then
              && IsChecklist(e.s, w.direction, e.authority, w'.conditions)
              && w'.required == (if NextRequired(w'.conditions).Some? then Missing(NextRequired(w'.conditions).value)
                                 else NothingRequired)
              && w'.lastCheckedAt == Some(e.s.now)
              && w'.firedAt == (if Triggers(e, w.symbol, w.direction) then Some(e.s.now) else w.firedAt)
              && w'.state == StateOf(e.s, w.direction, e.authority)
              && w' == w.(state := w'.state, conditions := w'.conditions, required := w'.required,
                          lastCheckedAt := w'.lastCheckedAt, firedAt := w'.firedAt)
            else w' == w
  {
    AlwaysIdentified(cfg, run, n);
    var v := Predecessor(cfg, run, n, w');
    SameIdSameWatch(run.states[n].watches, w, v);
    TriggersIff(run, n, w);
  }

  ghost predicate StampedIffFired(ws: seq<ReadyWatch>) {
    forall w :: w in ws ==> (w.firedAt.Some? <==> w.state == FIRED)
  }

  lemma FiredAtStep(w: ReadyWatch, e: Event)
    requires w.firedAt.Some? <==> w.state == FIRED
    ensures Evolved(w, e).firedAt.Some? <==> Evolved(w, e).state == FIRED
  {
  }

  lemma StampStep(cfg: AlertConfig, ws: seq<ReadyWatch>, e: Event)
    requires StampedIffFired(ws)
    ensures StampedIffFired(WatchesAfter(cfg, ws, e))
  {
    forall w' | w' in WatchesAfter(cfg, ws, e) ensures w'.firedAt.Some? <==> w'.state == FIRED {
      WatchesComeFrom(cfg, ws, e, w');
      if w :| w in ws && w' == Evolved(w, e) {
        FiredAtStep(w, e);
      }
    }
  }

  /** The time of firing is set exactly when the watch has fired. */
  lemma {:induction false} FiredAtIffFired(cfg: AlertConfig, run: ServiceRun, n: nat)
    requires IsServiceRun(cfg, run) && n <= |run.events|
    ensures StampedIffFired(run.states[n].watches)
  {
    if n > 0 {
      FiredAtIffFired(cfg, run, n - 1);
      WatchesFollow(cfg, run, n - 1);
      StampStep(cfg, run.states[n - 1].watches, run.events[n - 1]);
    }
  }

  // ---------------------------------------------------------------- limits

  /** At most the configured number of watches. */
  ghost predicate WithinLimit(cfg: AlertConfig, ws: seq<ReadyWatch>) {
    |ws| == 0 || |ws| <= cfg.maxReadyWatches
  }

  /** No two watches of one symbol and direction wait at the same time. */
  ghost predicate NoTwins(ws: seq<ReadyWatch>) {
    forall i, j :: 0 <= i < j < |ws| ==>
      ws[i].state == FIRED || ws[j].state == FIRED || ws[i].symbol != ws[j].symbol || ws[i].direction != ws[j].direction
  }

  lemma LimitsStep(cfg: AlertConfig, events: seq<Event>, n: nat, ws: seq<ReadyWatch>)
    requires n < |events| && FreshIds(events) && WellIdentified(events, n, ws) && WithinLimit(cfg, ws) && NoTwins(ws)
    ensures WithinLimit(cfg, WatchesAfter(cfg, ws, events[n])) && NoTwins(WatchesAfter(cfg, ws, events[n]))
  {
    var e := events[n];
    if e.AddWatch? {
      CreatedIsAppended(cfg, events, n, ws);
      if Creates(cfg, ws, e.instrument, e.direction) {
        TwinFree(ws, NewWatch(e.id, e.instrument.value, e.direction, e.now));
      }
    } else if e.RemoveWatch? {
      RemovalKeepsLimits(cfg, ws, e.id);
    } else if e.Evaluated? {
      var ws' := CheckedAll(ws, e.s, e.authority);
      assert forall i :: 0 <= i < |ws| ==> ws'[i] == Evolved(ws[i], e);
      TwinsEvolve(ws, ws', e);
    }
  }

  lemma {:induction false} TwinFree(ws: seq<ReadyWatch>, w: ReadyWatch)
    requires NoTwins(ws) && OpenWatch(ws, w.symbol, w.direction).None?
    ensures NoTwins(ws + [w])
  {
    forall i | 0 <= i < |ws| ensures !IsOpenFor(ws[i], w.symbol, w.direction) {
      assert ws[i] in ws;
    }
  }

  lemma RemovalKeepsLimits(cfg: AlertConfig, ws: seq<ReadyWatch>, id: string)
    requires WithinLimit(cfg, ws) && NoTwins(ws)
    ensures WithinLimit(cfg, Remove(ws, id)) && NoTwins(Remove(ws, id))
  {
  }

  lemma TwinsEvolve(ws: seq<ReadyWatch>, ws': seq<ReadyWatch>, e: Event)
    requires NoTwins(ws) && |ws'| == |ws| && forall i :: 0 <= i < |ws| ==> ws'[i] == Evolved(ws[i], e)
    ensures NoTwins(ws')
  {
    forall i, j | 0 <= i < j < |ws|
      ensures ws'[i].state == FIRED || ws'[j].state == FIRED || ws'[i].symbol != ws'[j].symbol
              || ws'[i].direction != ws'[j].direction
    {
      EvolvedKeeps(ws[i], e);
      EvolvedKeeps(ws[j], e);
    }
  }

  /** In every reachable state the watches are within their limit and no two open ones share symbol and direction. */
  lemma {:induction false} WatchesStayLimited(cfg: AlertConfig, run: ServiceRun, n: nat)
    requires IsServiceRun(cfg, run) && n <= |run.events|
    ensures WithinLimit(cfg, run.states[n].watches) && NoTwins(run.states[n].watches)
  {
    if n > 0 {
      WatchesStayLimited(cfg, run, n - 1);
      AlwaysIdentified(cfg, run, n - 1);
      WatchesFollow(cfg, run, n - 1);
      LimitsStep(cfg, run.events, n - 1, run.states[n - 1].watches);
    }
  }
}
