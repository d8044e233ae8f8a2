/** From the store to the browser: what polls deliver of the alerts that the store and the monitor raise. */
module AlertDelivery {
  import opened Seqs
  import opened AlertModels
  import opened AlertStore
  import opened AlertFeed
  import AlertClient
  import WatchAlerts
  import WatchRuns
  import StoredAlerts

  /** The wanted alerts that had been raised at the last poll. */
  function WantedAtLastPoll(wanted: Alert -> bool, st: PollState): seq<Alert>
    requires st.polled <= |st.history|
  {
    Filter(wanted, st.history[..st.polled])
  }

  /**
   * What a polling client may rely on: the run is numbered, its list holds the newest of all deliveries, nothing was
   * lost if and only if every poll fitted, and then the list holds the newest of all wanted alerts.
   */
  ghost predicate Delivers(size: nat, wanted: Alert -> bool, events: seq<PollEvent>, max: nat) {
    var st, list := AfterPolls(size, wanted, events), AlertClient.ClientList(size, wanted, events, max);
    && NumberedRun(size, wanted, events) && st.polled <= |st.history|
    && AlertClient.IsTop(list, st.delivered, max)
    && (Caught(wanted, st) <==> AllFit(size, wanted, events))
    && (AllFit(size, wanted, events) ==> AlertClient.IsTop(list, WantedAtLastPoll(wanted, st), max))
  }

  /** When nothing was lost, the deliveries are the wanted alerts raised before the last poll. */
  lemma {:induction false} CaughtMeansAllWanted(wanted: Alert -> bool, st: PollState)
    requires Polled(wanted, st) && Caught(wanted, st)
    ensures forall a :: a in st.delivered <==> a in WantedAtLastPoll(wanted, st)
  {
    var seen := st.history[..st.polled];
    FilterMembers(wanted, seen);
    forall a | a in st.delivered ensures a in WantedAtLastPoll(wanted, st) {
      assert DeliveredOk(wanted, st.history, st.cursor, a);
      assert seen[a.number - 1] == a;
    }
  }

  /** The polls of a client deliver what any numbered history of alerts with the ids of the store promises. */
  lemma {:induction false} NumberedAlertsAreDelivered(
      size: nat, wanted: Alert -> bool, events: seq<PollEvent>, max: nat)
    requires Numbered(Published(events)) && IdsFollowNumbers(Published(events))
    ensures Delivers(size, wanted, events, max)
  {
    var st := AfterPolls(size, wanted, events);
    HistoryIsPublished(size, wanted, events);
    NumberedAlertsNumberTheRun(size, wanted, events);
    NothingLostIffEveryPollFits(size, wanted, events);
    AlertClient.ClientHoldsTheTop(size, wanted, events, max);
    if Caught(wanted, st) {
      CaughtMeansAllWanted(wanted, st);
    }
  }

  /**
   * The store delivers: whatever calls it received and however polls are interleaved with the alerts it raised, the
   * client's list is the newest of the deliveries, and complete if and only if every poll fitted.
   */
  lemma {:induction false} StoreDelivers(
      cfg: AlertConfig, run: StoreRun, wanted: Alert -> bool, events: seq<PollEvent>, max: nat)
    requires IsRun(cfg, run) && Published(events) == Raised(run.replies)
    ensures Delivers(cfg.bufferSize, wanted, events, max)
  {
    StoreHoldsRaised(cfg, run, |run.calls|);
    RaisedIdsFollowNumbers(cfg, run, |run.calls|);
    assert run.replies[..|run.calls|] == run.replies;
    NumberedAlertsAreDelivered(cfg.bufferSize, wanted, events, max);
  }

  /** A poll after the alerts of the first `n` calls reads the buffer that the store has then. */
  lemma {:induction false} PollReadsTheStore(
      cfg: AlertConfig, run: StoreRun, n: nat, wanted: Alert -> bool, events: seq<PollEvent>, limit: int)
    requires IsRun(cfg, run) && n <= |run.calls| && Published(events) == Raised(run.replies[..n])
    ensures var st := AfterPolls(cfg.bufferSize, wanted, events);
            Delivery(cfg.bufferSize, wanted, st, limit)
            == FeedAlerts(run.states[n].buffer, wanted, st.cursor, limit)
  {
    HistoryIsPublished(cfg.bufferSize, wanted, events);
    StoreHoldsRaised(cfg, run, n);
  }

  /** The monitor delivers: the same holds of the alerts that a run of the whole service raises. */
  lemma {:induction false} ServiceDelivers(
      cfg: AlertConfig, run: WatchRuns.ServiceRun, n: nat, wanted: Alert -> bool, events: seq<PollEvent>, max: nat)
    requires WatchRuns.IsServiceRun(cfg, run) && n <= |run.events|
    requires Published(events) == WatchAlerts.History(run.raised, n)
    ensures Delivers(cfg.bufferSize, wanted, events, max)
    ensures forall limit: int ::
              var st := AfterPolls(cfg.bufferSize, wanted, events);
              Delivery(cfg.bufferSize, wanted, st, limit)
              == FeedAlerts(run.states[n].store.buffer, wanted, st.cursor, limit)
  {
    var inner := StoredAlerts.StoreRunOf(cfg, run, n);
    StoreDelivers(cfg, inner, wanted, events, max);
    forall limit: int
      ensures var st := AfterPolls(cfg.bufferSize, wanted, events);
              Delivery(cfg.bufferSize, wanted, st, limit)
              == FeedAlerts(run.states[n].store.buffer, wanted, st.cursor, limit)
    {
      assert inner.replies[..|inner.calls|] == inner.replies;
      PollReadsTheStore(cfg, inner, |inner.calls|, wanted, events, limit);
    }
  }
}
