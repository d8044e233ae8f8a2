# Forex and metals command center: verified model

This project models five self-contained parts of the repository in Dafny and proves what they promise over all inputs
and over whole runs.

- **Alert store, feed and client** (`AlertModels`, `AlertStore`, `AlertFeed`, `AlertClient`, `AlertDelivery`). The store
  is a class; its pruned key map is compared with the unpruned history of calls. The feed is polled with a cursor; the
  client keeps the newest alerts it has received.
- **Alert rules** (`AlertRules`, `AlertRuns`, `AlertTraces`, `StreamTraces`, `StateTraces`, `EventLaws`). One cycle
  compares a snapshot with the memory of the previous cycle. Runs are sequences of snapshots of one symbol.
- **Ready watches and the monitor** (`ReadyChecklist`, `AlertService`, `WatchRuns`, `WatchAlerts`, `StoredAlerts`,
  `SwallowedAlerts`). Adding and removing watches, evaluating a symbol and failing to are the atomic steps of a state
  machine: the program gives up control only while it waits for data.
- **Analytics** (`AnalyticsModels`, `AnalyticsEngine`, `AnalyticsLaws`, `GroupLaws`, `DrawdownEngine`,
  `AnalyticsService`, `SampleLaws`, `AnalyticsClient`, `Rounding`). Numbers are exact reals, rounded half to even to four
  decimals where the program rounds.
- **Candle storage, backward paging and calendar ids** (`CandleRepository`, `BatchBacktest`, `FetchCalendar`).

`Basics.dfy` holds sequence, ordering and text helpers. Times are integers. Clocks, drawn ids, lookups and loaded data are
parameters. `dafny verify dfyconfig.toml` checks the whole project.

Assumptions are preconditions of the theorems: a nondecreasing clock for pruning and for stored alerts, ids of new watches
that do not repeat, symbols without a colon where dedupe keys must not clash, unique record ids where drawdown order
matters, and candles that are ordered and do not overlap for paging. The minute text inside a calendar id contains a T and
no colon, as its format makes it.

Where the code does something other than its documentation or texts say, the model follows the code:

- The engine's header says that expectancy equals the average R. That holds exactly when no half-step of the rounding lies
  between the two; otherwise they differ by one step of the fourth decimal.
- The text of a READY alert says that every mandatory condition is met. The watch fires on data, authority and the Master
  Decision's verdict; its own setup, risk and news conditions are listed but not asked. A reversal against the bias, which
  a flag enables, gives such a verdict without an open setup.
- Adding an existing watch is commented as idempotent. The limit is checked first, so at the limit the repeated call fails.
- Calendar ids are kept unique before they are cut to 120 characters, not after. It takes event ids of about a hundred
  characters for two events to get the same id.
- Changes of locks and sessions on ineligible data (for locks also without a risk assessment) are never announced. The
  alerts tell a lock or a session correctly if and only if such silent changes since its last announced one are even in
  number.
- A change that falls into the cooldown of its own key is dropped for good. All changes are told if and only if each comes
  after its cooldown. The last stored data alert is current if and only if the changes dropped since it are even in number;
  with the shipped cooldowns it can say UNAVAILABLE although data is usable again.

Two limits of single functions do not show in the running program. The drawdown function compares a recovery in rounded
figures, but recorded R values have three decimals, for which nothing is rounded. The rules forget announced countdowns in
a cycle without a news assessment, but a service wired with a news source assesses news in every cycle.

## Model

| member | source | states |
|---|---|---|
| AlertStore.AlertStore.Add | forex-metals-command-center/services/api/app/services/alerts/store.py:24-52 | Returns the stored alert, or none when the same dedupe key fired within the cooldown of its category; number, buffer, key map and suppressed counts afterwards are those of one reference step |
| AlertStore.PruningIsInvisible | forex-metals-command-center/services/api/app/services/alerts/store.py:24-60 | In every run with a nondecreasing clock a call raises an alert if and only if every earlier raising call under its key is at least the cooldown older that the configuration gives the category of its type, read off the whole unpruned history |
| AlertStore.HistoryDetermines | forex-metals-command-center/services/api/app/services/alerts/store.py:24-60 | That condition determines the answers of all calls: two ways of answering that follow it are the same, so a store that never forgets gives the same answers |
| AlertStore.StoreHoldsRaised | forex-metals-command-center/services/api/app/services/alerts/store.py:33-52 | After any calls the alerts raised so far are numbered 1, 2, 3 and so on, the counter is their number, and the buffer holds the newest of them |
| AlertStore.RaisedAlertCarriesItsCall | forex-metals-command-center/services/api/app/services/alerts/store.py:33-50 | The alert of a raising call has the next number and the id made of it, the key, and symbol, type, direction, price and time of its own candidate, category and priority of the type, and is created at the time of the call |
| AlertStore.KeysStayFew | forex-metals-command-center/services/api/app/services/alerts/store.py:54-60 | After every alert the store knows at most four buffers of keys, or every key it knows raised an alert within one of the cooldowns |
| AlertStore.SuppressedAreCounted | forex-metals-command-center/services/api/app/services/alerts/store.py:29-31 | The suppressed count of a type is the number of calls with that type that raised nothing |
| AlertModels.HorizonBounds | forex-metals-command-center/services/api/app/services/alerts/store.py:58 | No cooldown of any type exceeds the prune horizon |
| AlertModels.DedupeKeyInjective | forex-metals-command-center/services/api/app/services/alerts/store.py:27 | Equal dedupe keys of symbols without a colon mean equal symbol, type and reference; no two types share a name |
| AlertFeed.CollectFeed | forex-metals-command-center/services/api/app/services/alerts/service.py:107-121 | Newest first, the wanted alerts above the cursor, up to the limit (one alert for a limit below one) |
| AlertFeed.Feed | forex-metals-command-center/services/api/app/services/alerts/service.py:98-129 | The feed of the current buffer and the next cursor: the largest delivered number, or the old cursor |
| AlertFeed.FeedHoldsTheNewestAskedFor | forex-metals-command-center/services/api/app/services/alerts/service.py:107-121 | A feed holds the newest of the buffered alerts above the cursor that have the symbol (in upper case), the category and at least the priority asked for, as many as the limit allows; what it leaves out is older |
| AlertFeed.FeedIsOrdered | forex-metals-command-center/services/api/app/services/alerts/service.py:107-124 | A feed is strictly newest first, its cursor is the number of its first alert and never falls, every alert is wanted and above the old cursor |
| AlertFeed.PollingNeverDuplicates | forex-metals-command-center/services/api/app/services/alerts/service.py:98-129 | Over every interleaving of new alerts and polls that pass on the cursor, no alert is delivered twice, all delivered alerts are wanted alerts of the history, and the cursor bounds them |
| AlertFeed.DeliveryIsNewestPending | forex-metals-command-center/services/api/app/services/alerts/service.py:107-121 | A poll delivers exactly the newest pending alerts that the buffer still holds |
| AlertFeed.LossFreeIffFits | forex-metals-command-center/services/api/app/services/alerts/service.py:98-129 | A poll delivers every pending alert if and only if none was evicted unseen and no more are pending than the limit allows |
| AlertFeed.NothingLostIffEveryPollFits | forex-metals-command-center/services/api/app/services/alerts/service.py:98-129 | Over a whole run of alerts and polls every wanted alert raised before the last poll has been delivered, exactly once, if and only if at every poll nothing pending had left the buffer unseen and no more was pending than its limit |
| AlertClient.MergeAlerts | forex-metals-command-center/apps/web/src/lib/alerts.ts:105-109 | Keeps the first alert of each id, sorted by descending number, cut to the maximum |
| AlertClient.IncomingWins | forex-metals-command-center/apps/web/src/lib/alerts.ts:106-107 | Of alerts under one id the merged list holds the first of the incoming and then the existing ones, so an incoming alert replaces an older copy |
| AlertClient.CheckOrder | forex-metals-command-center/apps/web/src/lib/alerts.ts:58-66 | None exactly when the feed is strictly newest first and at or below the cursor; otherwise the problem of the first alert that has one, order before cursor |
| AlertClient.ServiceFeedPasses | forex-metals-command-center/services/api/app/services/alerts/service.py:107-124 | Every feed the service builds passes the order and cursor checks of the client |
| AlertClient.MergeIsTop | forex-metals-command-center/apps/web/src/lib/alerts.ts:105-109 | The merged list is the top by number of both lists, strictly descending and without duplicates |
| AlertClient.TopOfTop | forex-metals-command-center/apps/web/src/lib/alerts.ts:105-109 | The top of a top and more alerts is the top of everything |
| AlertClient.ClientHoldsTheTop | forex-metals-command-center/apps/web/src/lib/alerts.ts:105-109 | After any sequence of polls the client list is the top by number of everything delivered |
| AlertDelivery.StoreDelivers | forex-metals-command-center/services/api/app/services/alerts/store.py:33-52 | For every run of the store and every interleaving of polls with the alerts it raised: the client list is the newest of all deliveries, nothing wanted before the last poll was lost if and only if every poll fitted buffer and limit, and then the list is the newest of all wanted alerts |
| AlertDelivery.PollReadsTheStore | forex-metals-command-center/services/api/app/services/alerts/service.py:107-121 | A poll after the alerts of some calls reads the buffer that the store has after these calls |
| AlertDelivery.ServiceDelivers | forex-metals-command-center/services/api/app/services/alerts/service.py:98-129 | The same of every run of the whole monitor, with the buffer of its store at the poll |
| AlertRules.Derive | forex-metals-command-center/services/api/app/services/alerts/rules.py:140-406 | Alerts and memory of one cycle as functions of snapshot and previous memory, which the laws of a cycle then tell by snapshots alone; the first snapshot is a silent baseline |
| EventLaws.CycleIsTold | forex-metals-command-center/services/api/app/services/alerts/rules.py:140-406 | Every cycle of a run raises exactly the alerts that the fields of this and the earlier snapshots tell, in order and each once, although the rules see a memory only: changes of verdict and news, one countdown, the last bias, and on data that may be decided on locks, sessions, setups, warnings and the pipeline |
| EventLaws.EventAnnouncedIff | forex-metals-command-center/services/api/app/services/alerts/rules.py:227-405 | Over every run an alert of one of the eight lists is raised if and only if the data may be decided on and an item passes the filter of its list, was not shown under its id by the snapshot before, and is not older than the grace bars before its as-of |
| EventLaws.LockNameInjective | forex-metals-command-center/services/api/app/services/alerts/rules.py:241 | The text of a lock alert names its lock |
| EventLaws.WarningNameInjective | forex-metals-command-center/services/api/app/services/alerts/rules.py:276 | The text of a warning alert names its warning |
| EventLaws.ShiftNamesInjective | forex-metals-command-center/services/api/app/services/alerts/rules.py:219 | The text of a macro shift names the old and the new bias |
| AlertRuns.TagsAreAmongIds | forex-metals-command-center/services/api/app/services/alerts/rules.py:87-100 | Every key whose novelty decides an alert is among the ids of the same snapshot, and agrees with type, reference, time and symbol of its alert |
| AlertRuns.AnnouncedAtStartOfStretch | forex-metals-command-center/services/api/app/services/alerts/rules.py:227-236 | Over every run an event is announced only at the first snapshot of a stretch that shows it, on eligible data, after the baseline, and never when the previous as-of is more than the grace bars past its time |
| AlertRuns.SilentStretch | forex-metals-command-center/services/api/app/services/alerts/rules.py:227-236 | An event that stays visible is never announced again, and stays silent for the whole stretch when it was there at the baseline or came in on ineligible data |
| AlertTraces.DeriveNeverReady | forex-metals-command-center/services/api/app/services/alerts/rules.py:140-406 | A cycle raises alerts of its own symbol only, never a READY or MONITOR_FAILURE alert |
| AlertTraces.DataAlertsSelected | forex-metals-command-center/services/api/app/services/alerts/rules.py:161-178 | The data alerts of a cycle are exactly those of the change of the verdict |
| AlertTraces.MacroAlertsSelected | forex-metals-command-center/services/api/app/services/alerts/rules.py:209-225 | The macro alerts of a cycle are exactly those of the change of the available bias |
| AlertTraces.CountdownAlertsSelected | forex-metals-command-center/services/api/app/services/alerts/rules.py:195-205 | The countdown alerts of a cycle are exactly the one of the announced threshold |
| AlertTraces.LockAlertsSelected | forex-metals-command-center/services/api/app/services/alerts/rules.py:238-250 | The lock alerts of a cycle are exactly those of the lock changes, and there are none on ineligible data |
| StreamTraces.CountdownsStayClosed | forex-metals-command-center/services/api/app/services/alerts/rules.py:132-137 | In every run the remembered thresholds of each event stay upward closed |
| StreamTraces.LeastThresholdIsLeast | forex-metals-command-center/services/api/app/services/alerts/rules.py:198 | The announced threshold is the least listed one among the new keys |
| StreamTraces.AnnouncementFacts | forex-metals-command-center/services/api/app/services/alerts/rules.py:195-206 | An announced threshold was not remembered, lies below all remembered ones of its event, and is remembered from then on |
| StreamTraces.CountdownsDecrease | forex-metals-command-center/services/api/app/services/alerts/rules.py:195-206 | Over every stretch with news assessments the thresholds announced for one event strictly decrease, so none is announced twice, whatever the minutes to the event do |
| StreamTraces.GapRepeatsCountdown | forex-metals-command-center/services/api/app/services/alerts/rules.py:195-206 | Of the rule alone: after a cycle without a news assessment it announces again exactly what it announced for the same news before the gap |
| StreamTraces.RememberedBias | forex-metals-command-center/services/api/app/services/alerts/rules.py:224-225 | The remembered bias is the last available one; an outage does not reset it |
| StreamTraces.ShiftsTraceBiases | forex-metals-command-center/services/api/app/services/alerts/rules.py:209-225 | Over every run the macro shifts are the adjacent pairs of the available biases with outages removed and repeats collapsed |
| StreamTraces.MacroStream | forex-metals-command-center/services/api/app/services/alerts/rules.py:209-225 | The MACRO_SHIFT alerts in the stream of a whole run, by type and reference, are exactly those pairs in order |
| StreamTraces.DataAlertsTraceOutages | forex-metals-command-center/services/api/app/services/alerts/rules.py:161-178 | Over every run the data alerts are the changes of availability after the baseline |
| StreamTraces.DataAlertsAlternate | forex-metals-command-center/services/api/app/services/alerts/rules.py:161-178 | DATA_UNAVAILABLE and DATA_RESTORED strictly alternate |
| StreamTraces.DataStream | forex-metals-command-center/services/api/app/services/alerts/rules.py:161-178 | The data alerts in the stream of a whole run are exactly those changes in order |
| StreamTraces.AnnouncedLocksReplay | forex-metals-command-center/services/api/app/services/alerts/rules.py:239-250 | With eligible data and a risk assessment, replaying the announced changes on the remembered locks gives the current locks |
| StreamTraces.LockTraceFaithfulIff | forex-metals-command-center/services/api/app/services/alerts/rules.py:227-250 | One cycle that starts in step stays in step if and only if data was eligible and risk assessed, or the locks did not change |
| StreamTraces.LockTraceBreaksOnIneligibleData | forex-metals-command-center/services/api/app/services/alerts/rules.py:227-250 | Two snapshots, the second on ineligible data, after which the announced changes still show a lock that has ended |
| StreamTraces.LockAlertsReplay | forex-metals-command-center/services/api/app/services/alerts/rules.py:239-250 | Over every stretch of eligible data with risk assessments, replaying the announced changes on the starting locks gives the current ones |
| StreamTraces.LockTraceIff | forex-metals-command-center/services/api/app/services/alerts/rules.py:227-250 | Over every run the announced changes tell a lock correctly if and only if it changed an even number of times in silent cycles (ineligible data or no risk assessment) since its last announced change |
| StreamTraces.ReplaysIff | forex-metals-command-center/services/api/app/services/alerts/rules.py:227-250 | Replaying the announced changes gives the current locks if and only if that holds of every lock |
| StreamTraces.SilentReturnStaysInStep | forex-metals-command-center/services/api/app/services/alerts/rules.py:227-250 | A lock that ends and returns on ineligible data: out of step after the first of the two cycles, in step after the second |
| StreamTraces.LockStream | forex-metals-command-center/services/api/app/services/alerts/rules.py:239-250 | The lock alerts in the stream after the baseline are exactly the announced changes in order |
| StateTraces.SessionAlertsSelected | forex-metals-command-center/services/api/app/services/alerts/rules.py:253-257 | The session alerts of a cycle tell exactly the sessions that started and ended, and there are none on ineligible data |
| StateTraces.ShiftTextInjective | forex-metals-command-center/services/api/app/services/alerts/rules.py:254-257 | The text of a session alert determines which sessions started and which ended |
| StateTraces.SessionTraceFaithfulIff | forex-metals-command-center/services/api/app/services/alerts/rules.py:227-257 | One cycle that starts in step stays in step if and only if data was eligible or nothing changed |
| StateTraces.SessionAlertsReplay | forex-metals-command-center/services/api/app/services/alerts/rules.py:253-257 | Over every stretch of eligible data replaying the session alerts gives the current sessions |
| StateTraces.SessionTraceIff | forex-metals-command-center/services/api/app/services/alerts/rules.py:227-257 | Over every run the announced shifts tell a session correctly if and only if it changed an even number of times on ineligible data since its last announced change |
| StateTraces.SessionsReplayIff | forex-metals-command-center/services/api/app/services/alerts/rules.py:227-257 | Replaying the announced shifts gives the current sessions if and only if that holds of every session |
| StateTraces.ApproachAnnouncedIff | forex-metals-command-center/services/api/app/services/alerts/rules.py:336-345 | Over every run an approach is announced if and only if data is eligible, the pool is external, not taken and approached, and the previous cycle did not show it as approached |
| StateTraces.WarningAnnouncedIff | forex-metals-command-center/services/api/app/services/alerts/rules.py:270-281 | Over every run a warning is announced if and only if data is eligible, the open setup shows it, and the previous cycle did not show it for the same setup |
| StateTraces.NewsWindowsAnnouncedIff | forex-metals-command-center/services/api/app/services/alerts/rules.py:181-194 | Over every run a blackout is announced exactly when it begins with an active event, and the end of a news window exactly when the state leaves BLACKOUT and POST_NEWS_WAIT, on eligible data or not |
| ReadyChecklist.Checklist | forex-metals-command-center/services/api/app/services/alerts/ready.py:44-117 | Conditions in fixed order, the watch state and whether to fire, which the next two laws tell by the fields of the snapshot |
| ReadyChecklist.ConditionsAreTold | forex-metals-command-center/services/api/app/services/alerts/ready.py:53-105 | Each of the fourteen conditions: data usable, open setup in the watched direction, the last listed status of each of eight steps, risk within limits, news clear, cautious or normalised without blockers, FULL authority, LONG or SHORT as watched |
| ReadyChecklist.StateIsTold | forex-metals-command-center/services/api/app/services/alerts/ready.py:107-117 | FIRED on FULL authority and a verdict as watched, UNAVAILABLE on unusable data, GATES_PENDING when all but authority and verdict are met, else WAITING |
| ReadyChecklist.StepMap | forex-metals-command-center/services/api/app/services/alerts/ready.py:70 | The last listed step of each name decides |
| ReadyChecklist.NextRequired | forex-metals-command-center/services/api/app/services/alerts/ready.py:120-122 | The first condition that is not met, none exactly when all are met |
| ReadyChecklist.CompleteIffFiresWithGates | forex-metals-command-center/services/api/app/services/alerts/ready.py:107-117 | Nothing is missing if and only if the watch fires and all setup, risk and news conditions are met: a complete checklist always fires |
| ReadyChecklist.PendingNeedsVerdict | forex-metals-command-center/services/api/app/services/alerts/ready.py:112-117 | While gates are pending the next required condition is the authority or the verdict |
| ReadyChecklist.FiresWithoutGates | forex-metals-command-center/services/api/app/services/alerts/ready.py:107-109 | A verdict for long from a reversal against the bias, with eligible data, risk within limits and clear news, fires while OPEN_SETUP is the next required condition |
| AlertService.AlertService.MonitoredSymbols | forex-metals-command-center/services/api/app/services/alerts/service.py:77-82 | Configured symbols, then watched ones that are not listed yet, cut to the limit |
| AlertService.AlertService.Add | forex-metals-command-center/services/api/app/services/alerts/service.py:136-164 | Unknown symbol, watch limit, symbol limit, the open watch of the same symbol and direction, or a new waiting watch, in that order of precedence |
| AlertService.AlertService.RemoveById | forex-metals-command-center/services/api/app/services/alerts/service.py:166-167 | Removes the watch with the id and says whether there was one; all others keep their order |
| AlertService.AlertService.Evaluate | forex-metals-command-center/services/api/app/services/alerts/service.py:232-268 | One evaluation: derived alerts and READY alerts added to the store in order, memory replaced, every open watch of the symbol updated |
| AlertService.AlertService.CheckWatches | forex-metals-command-center/services/api/app/services/alerts/service.py:241-268 | Every watch of the symbol that has not fired gets the state, conditions and times of its checklist; fired ones and other symbols are left alone |
| AlertService.AlertService.Fail | forex-metals-command-center/services/api/app/services/alerts/service.py:189-203 | A failed symbol raises one MONITOR_FAILURE alert, subject to its cooldown, and changes nothing else |
| WatchRuns.FiredIsAbsorbing | forex-metals-command-center/services/api/app/services/alerts/service.py:242-267 | Over every interleaving of events with fresh ids, a fired watch stays exactly as it is until it is removed, and its id never comes back |
| WatchRuns.FiresOnlyAsWatched | forex-metals-command-center/services/api/app/services/alerts/service.py:245-253 | An open watch fires in a step if and only if its symbol is evaluated with FULL authority and LONG for a bullish watch, SHORT for a bearish one, either for a watch without direction; its time of firing is that of the evaluation |
| WatchRuns.OpenWatchAfter | forex-metals-command-center/services/api/app/services/alerts/service.py:241-268 | What a step makes of an open watch: untouched unless its symbol is evaluated, else state, conditions, next requirement and times are those of the evaluation and all else stays |
| WatchRuns.FiredAtIffFired | forex-metals-command-center/services/api/app/services/alerts/service.py:246-253 | In every reachable state the time of firing is set exactly when the watch is FIRED |
| WatchRuns.WatchesStayLimited | forex-metals-command-center/services/api/app/services/alerts/service.py:140-151 | In every reachable state the number of watches is within its limit and no two open ones share symbol and direction |
| WatchAlerts.OneReadyAlertPerFiring | forex-metals-command-center/services/api/app/services/alerts/service.py:252-267 | In every run a watch fires at most once, is FIRED exactly when it has fired, and exactly one alert under its READY key has been raised when it has fired and none otherwise |
| WatchAlerts.CandidatesAreTold | forex-metals-command-center/services/api/app/services/alerts/service.py:232-267 | What an event adds to the store, in order: the alerts of the rules against the remembered cycle, then one READY for each watch that fires, in the order of the watches; a failure its own alert; adding and removing nothing |
| WatchAlerts.ReadyAlertIs | forex-metals-command-center/services/api/app/services/alerts/service.py:254-267 | The alert of a firing watch is READY under its symbol and id, with its direction, at the time of the evaluation |
| WatchAlerts.EventAlertsCarry | forex-metals-command-center/services/api/app/services/alerts/service.py:239-267 | Every alert that an event raises carries the fields of one of its candidates, stamped with the time of the event |
| WatchAlerts.FailureAlertIs | forex-metals-command-center/services/api/app/services/alerts/service.py:192-203 | A symbol that fails raises nothing but a MONITOR_FAILURE alert of its own |
| WatchAlerts.AddRefusedIff | forex-metals-command-center/services/api/app/services/alerts/service.py:136-144 | A request is refused as unknown, at the watch limit, or when configured and watched symbols fill the symbol limit without it, exactly in these cases and in this order |
| WatchAlerts.RemovalLeavesOthers | forex-metals-command-center/services/api/app/services/alerts/service.py:166-167 | Removing an id leaves exactly the watches of other ids, in their order |
| WatchAlerts.StoreHoldsHistory | forex-metals-command-center/services/api/app/services/alerts/service.py:239-266 | After every event the store numbers the alerts of all events in order and buffers the newest of them |
| WatchAlerts.AllIsGivenAndExtra | forex-metals-command-center/services/api/app/services/alerts/service.py:77-81 | The untruncated list is the configured one followed by each missing watched symbol once |
| WatchAlerts.WatchedSymbolsAreMonitored | forex-metals-command-center/services/api/app/services/alerts/service.py:77-82 | In every reachable state truncation drops no watched symbol, even when the configured list alone exceeds the limit |
| WatchAlerts.AddIsIdempotentIffBelowLimit | forex-metals-command-center/services/api/app/services/alerts/service.py:136-151 | In every reachable state, asking for a watch that is open returns that watch if and only if the watch limit is not reached; otherwise it fails with the limit error, and nothing changes either way |
| WatchAlerts.GrantedIsOpen | forex-metals-command-center/services/api/app/services/alerts/service.py:146-164 | The watch that a successful call returns is open in the state after the call, with the symbol and direction asked for; it was there before, or is new, waiting and unchecked |
| WatchAlerts.RepeatedAddCanFail | forex-metals-command-center/services/api/app/services/alerts/service.py:140-151 | With gold monitored and any limit of at least one a run reaches an open watch whose repeated call fails, fired watches filling the limit |
| WatchAlerts.FailedAddChangesNothing | forex-metals-command-center/services/api/app/services/alerts/service.py:137-144 | A call that fails leaves the watches as they are |
| StoredAlerts.StoredByHistory | forex-metals-command-center/services/api/app/services/alerts/service.py:232-268 | Over every run of the service with a nondecreasing clock the alerts stored are exactly the announced changes that no alert under the same key precedes within its cooldown, in order |
| StoredAlerts.ServiceRemembers | forex-metals-command-center/services/api/app/services/alerts/service.py:233-238 | What the service remembers of a symbol is the memory of the run of its snapshots |
| StoredAlerts.AnnouncedIsStream | forex-metals-command-center/services/api/app/services/alerts/service.py:233-239 | The changes announced for a symbol over a run of the service are the stream that the rules derive from its snapshots |
| StoredAlerts.StoredAsAnnouncedIff | forex-metals-command-center/services/api/app/services/alerts/store.py:28-31 | The stored alerts of some kinds of a symbol are all its announced changes of these kinds, in order, if and only if each comes at least its cooldown after every earlier one under its key |
| StoredAlerts.StoredTraceIff | forex-metals-command-center/services/api/app/services/alerts/service.py:233-239 | The stored alerts of some kinds of a symbol are exactly the stream of its snapshots if and only if no change falls into its cooldown |
| StoredAlerts.DataAlertsStoredIff | forex-metals-command-center/services/api/app/services/alerts/rules.py:161-178 | The stored data alerts of a symbol tell exactly the changes of its availability if and only if no change falls into its cooldown |
| StoredAlerts.LockAlertsStoredIff | forex-metals-command-center/services/api/app/services/alerts/rules.py:239-250 | The stored lock alerts of a symbol are exactly the announced lock changes if and only if none falls into its cooldown |
| SwallowedAlerts.StoredAreAnswered | forex-metals-command-center/services/api/app/services/alerts/store.py:24-52 | The stored alerts of a run are the announced changes that pass the cooldown test one after the other |
| SwallowedAlerts.LastStoredIsCurrentIff | forex-metals-command-center/services/api/app/services/alerts/store.py:28-31 | A symbol has a stored data alert if and only if its availability changed after the baseline, and the last one names the current availability if and only if the number of changes swallowed since it is even |
| SwallowedAlerts.RestorationCanBeSwallowed | forex-metals-command-center/services/api/app/services/alerts/store.py:28-31 | With cooldowns of 600 and 900 seconds a run of the service with changes at 300, 600, 900 and 1200 seconds ends with usable data and DATA_UNAVAILABLE as the last stored alert |
| SwallowedAlerts.SwallowedPairCancelsOut | forex-metals-command-center/services/api/app/services/alerts/store.py:28-31 | With changes at 100, 200, 300 and 400 seconds the last two are swallowed and the last stored alert is current |
| AnalyticsEngine.ComputeBreakdown | forex-metals-command-center/services/api/app/services/analytics/engine.py:84-110 | Groups and best group as functions of the records, which the laws of groups then tell by the records themselves |
| GroupLaws.FiguresAreTold | forex-metals-command-center/services/api/app/services/analytics/engine.py:53-79 | Every figure of a group is the one of its records: counts, label by thresholds, win rate, average, total, averages of wins and of other trades, expectancy and profit factor, none where there is nothing to divide by |
| GroupLaws.GroupsAreTold | forex-metals-command-center/services/api/app/services/analytics/engine.py:84-90 | One group for each key that a record has, with the figures of exactly its records, larger groups first, equal ones in the order of their keys |
| GroupLaws.BestGroupIsBest | forex-metals-command-center/services/api/app/services/analytics/engine.py:91-110 | The named group has the highest expectancy of those that reach the floor with a defined one, of equal ones the most records, of these it is the first; none is named, for the reason given, exactly when there are fewer than two groups or none qualifies |
| AnalyticsLaws.ExpectancyNearMean | forex-metals-command-center/services/api/app/services/analytics/engine.py:49-64 | For every list with a defined R the expectancy built from rounded averages is within 0.0001 of the true mean R and of the reported average R |
| AnalyticsLaws.ExpectancyEqualsAverageIff | forex-metals-command-center/services/api/app/services/analytics/engine.py:3-6 | Expectancy and average R are equal, as the header says, if and only if no half-step of the rounding separates the share-weighted sum of the rounded averages from the mean |
| AnalyticsLaws.ExpectancyOfOneSided | forex-metals-command-center/services/api/app/services/analytics/engine.py:61-64 | They are equal whenever the wins or the other trades with R are empty |
| AnalyticsLaws.ExpectancyOfExactAverages | forex-metals-command-center/services/api/app/services/analytics/engine.py:61-64 | They are equal whenever the averages of wins and of other trades have at most four decimals |
| AnalyticsLaws.ExpectancyCanDifferFromAverage | forex-metals-command-center/services/api/app/services/analytics/engine.py:3-6 | They differ for seven trades, one win of 0.15 and losses of 0.5 five times and 0.496: -0.4065 against -0.4066 |
| Rounding.SameFigureIff | forex-metals-command-center/services/api/app/services/analytics/engine.py:50 | Two values round to the same four decimals if and only if no half-step, ties going to the even figure, separates them |
| AnalyticsLaws.GroupStatsForgetOrder | forex-metals-command-center/services/api/app/services/analytics/engine.py:53-81 | Group statistics do not depend on the order of the samples |
| AnalyticsLaws.BreakdownForgetsOrder | forex-metals-command-center/services/api/app/services/analytics/engine.py:84-110 | Groups, their order, the best group and the reason do not depend on the order of the samples |
| AnalyticsLaws.BreakdownConserves | forex-metals-command-center/services/api/app/services/analytics/engine.py:84-90 | Summing count, wins, losses, break-evens and R counts over the groups of a breakdown gives the overall figures |
| AnalyticsLaws.DownsampleKeepsOrder | forex-metals-command-center/services/api/app/services/analytics/engine.py:202-207 | At most the limit, at the evenly spaced positions the script computes, which strictly increase, the last point kept; a short curve unchanged |
| Rounding.Round4Near | forex-metals-command-center/services/api/app/services/analytics/engine.py:50 | Rounding to four decimals moves a value by at most half a step |
| DrawdownEngine.ScanFalls | forex-metals-command-center/services/api/app/services/analytics/engine.py:117-135 | One pass yields the rounded curve and level, times and index of the fall that the fold over the records finds |
| DrawdownEngine.ScanFindsWorst | forex-metals-command-center/services/api/app/services/analytics/engine.py:123-135 | That fold finds the largest fall over all pairs of positions from 0, at the earliest trough and the first position of its peak |
| DrawdownEngine.FindRecovery | forex-metals-command-center/services/api/app/services/analytics/engine.py:136-142 | The first later point at or above the rounded peak, and its distance |
| DrawdownEngine.ComputeDrawdown | forex-metals-command-center/services/api/app/services/analytics/engine.py:113-152 | The reported drawdown is the one of a worst fall over all pairs of positions in close order, with the curve |
| DrawdownEngine.ReportIsTold | forex-metals-command-center/services/api/app/services/analytics/engine.py:144-151 | For any records the report gives the rounded fall, the close times of peak and trough (none for the start), and the first later record that is back in rounded figures with its distance, or none |
| DrawdownEngine.RecordsInCloseOrder | forex-metals-command-center/services/api/app/services/analytics/engine.py:115-124 | What is scanned: exactly the records with an R, by close time and then id, their R values added up |
| DrawdownEngine.CurvePoints | forex-metals-command-center/services/api/app/services/analytics/engine.py:125 | The points of the curve are the close times and the rounded equity after each record |
| DrawdownEngine.WorstFallUnique | forex-metals-command-center/services/api/app/services/analytics/engine.py:113-135 | The quadratic definition has one solution, so it determines the report |
| DrawdownEngine.DrawdownForgetsOrder | forex-metals-command-center/services/api/app/services/analytics/engine.py:113-127 | Reordering records with unique ids changes neither drawdown nor curve |
| DrawdownEngine.FirstIsFirst | forex-metals-command-center/services/api/app/services/analytics/engine.py:139-142 | The recovery scan finds the least position at or above the level, none exactly when there is none |
| DrawdownEngine.RecoveryTrueIffNoNearMiss | forex-metals-command-center/services/api/app/services/analytics/engine.py:136-142 | The reported recovery is the one of unrounded equity if and only if no position lifted to the peak by rounding only comes first |
| DrawdownEngine.RecoveryNeverLate | forex-metals-command-center/services/api/app/services/analytics/engine.py:136-142 | A recovery of unrounded equity is reported, never late |
| DrawdownEngine.DrawdownExactOnGrid | forex-metals-command-center/services/api/app/services/analytics/engine.py:125-150 | With R values of at most four decimals fall and recovery are exact |
| DrawdownEngine.RecordedDrawdownIsExact | forex-metals-command-center/services/api/app/services/analytics/engine.py:113-152 | For records with R of three decimals, as journal and simulations round it, the report gives, and only then is given, the exact largest fall, the close times of its peak and trough, and the first record at which exact equity is back with its distance, none if there is none |
| DrawdownEngine.RecoveryCanBeReportedBelowThePeak | forex-metals-command-center/services/api/app/services/analytics/engine.py:140 | Of the bare function, which takes any R: for three finer values than records hold it reports a recovery below the peak |
| DrawdownEngine.CurveEndsAtTotal | forex-metals-command-center/services/api/app/services/analytics/engine.py:76 | The curve has one point per R, and its last point is the total R of the overall group |
| AnalyticsService.JournalCandidates | forex-metals-command-center/services/api/app/services/analytics/service.py:182-200 | The journal pass counts filtered, decision, tampered and open records by their fate and keeps the other samples in order |
| AnalyticsService.PaperCandidates | forex-metals-command-center/services/api/app/services/analytics/service.py:201-213 | The paper pass does the same, without decision records |
| AnalyticsService.KeepSamples | forex-metals-command-center/services/api/app/services/analytics/service.py:217-228 | Filters by range and version, then drops synthetic samples unless they are wanted |
| AnalyticsService.PassesFollowFates | forex-metals-command-center/services/api/app/services/analytics/service.py:178-228 | The counters and the kept samples of both passes are what the fates of the single records say |
| AnalyticsService.FatesPartition | forex-metals-command-center/services/api/app/services/analytics/service.py:178-228 | Every record has exactly one fate: filtered, decision record, tampered, not closed, synthetic or counted |
| AnalyticsService.BuildReport | forex-metals-command-center/services/api/app/services/analytics/service.py:159-259 | The report of an export: its counts, overall group, drawdown, breakdowns and curve; an empty report for an unavailable store |
| SampleLaws.SamplesAreTold | forex-metals-command-center/services/api/app/services/analytics/service.py:68-142 | A record gives a sample exactly when it has closed (journal: a trade with outcome and direction; paper: with result, fill and exit), and each field of the sample is that of the record: win by classification, break-even by result or tolerance, labels with their fallbacks |
| SampleLaws.FatesAreTold | forex-metals-command-center/services/api/app/services/analytics/service.py:178-228 | The fate of every record, decided by its own fields and the filters: symbol, kind, integrity, closed, range from start to before end, version, synthetic |
| SampleLaws.DimensionsAreTold | forex-metals-command-center/services/api/app/services/analytics/engine.py:210-222 | The nine dimensions, by name and by the field each one groups by |
| SampleLaws.ReportIsTold | forex-metals-command-center/services/api/app/services/analytics/service.py:230-254 | All sections of a report describe the counted records: overall figures, each breakdown with its groups and best group, and the largest fall |
| SampleLaws.EmptyReportIsTold | forex-metals-command-center/services/api/app/services/analytics/service.py:261-289 | When the store cannot be read the report is unavailable, with all counts zero, no breakdown, no fall and no curve |
| AnalyticsService.ReportConservesRecords | forex-metals-command-center/services/api/app/services/analytics/service.py:236-251 | The counts of a report add up to the number of exported records |
| AnalyticsService.ReportCurveEndsAtTotal | forex-metals-command-center/services/api/app/services/analytics/service.py:230-254 | The downsampled curve of a report is within its limit and ends at the total R of the overall group |
| AnalyticsClient.LabelsAgreeIffSameThresholds | forex-metals-command-center/apps/web/src/lib/analytics.ts:17-22 | Client and engine give the same label to every count if and only if the thresholds are 30, 100 and 300 |
| AnalyticsClient.GroupErrorIff | forex-metals-command-center/apps/web/src/lib/analytics.ts:24-35 | A group is rejected for the first condition it breaks: counts add up, label of 30, 100 and 300, win rate within a thousandth, profit factor not negative |
| AnalyticsClient.ReportAcceptedIff | forex-metals-command-center/apps/web/src/lib/analytics.ts:37-58 | A report is accepted exactly when it claims no authority, has a disclaimer, all its groups are in order, every best group is there above the smallest label, and an unavailable store counts nothing |
| AnalyticsClient.EveryGroupPasses | forex-metals-command-center/apps/web/src/lib/analytics.ts:24-35 | Every group the engine builds passes the client check: counts add up, label, win rate within 0.001, profit factor |
| AnalyticsClient.EveryBreakdownPasses | forex-metals-command-center/apps/web/src/lib/analytics.ts:45-55 | With a best-group floor of at least LIMITED every breakdown passes, its best group included |
| AnalyticsClient.EveryReportPasses | forex-metals-command-center/apps/web/src/lib/analytics.ts:37-58 | Every report of the service passes the whole client check |
| CandleRepository.Repository.UpsertCandles | forex-metals-command-center/services/api/app/db/repository.py:65-110 | Rows, events and counters after a batch are those of writing its candles one after the other |
| CandleRepository.RowsFollowHistory | forex-metals-command-center/services/api/app/db/repository.py:65-110 | After any batches the row of an identity is that of the first closed candle seen, else of the last forming one; its close time is that of the first candle |
| CandleRepository.ClosedRowsAreImmutable | forex-metals-command-center/services/api/app/db/repository.py:87-108 | A closed row never changes or reopens, whatever is written later |
| CandleRepository.SplitBatch | forex-metals-command-center/services/api/app/db/repository.py:65-67 | Splitting a batch does not matter |
| CandleRepository.ReplayKeepsRows | forex-metals-command-center/services/api/app/db/repository.py:65-110 | Replaying a batch leaves every row as it is, apart from the ingestion time of forming rows |
| CandleRepository.ReportAccounts | forex-metals-command-center/services/api/app/db/repository.py:25-30 | The four counters add up to the batch, conflicts are the events added, insertions are the new rows |
| CandleRepository.CountersAreTold | forex-metals-command-center/services/api/app/db/repository.py:25-30 | Each counter of a batch counts its own kind of candle, told by the earlier ones of the identity: new, still forming, repeated, or a rejected revision of a closed one |
| CandleRepository.OutcomeByHistory | forex-metals-command-center/services/api/app/db/repository.py:76-108 | Inserted, updated, unchanged or conflict: decided by the earlier candles of the identity alone |
| CandleRepository.EventsAreConflicts | forex-metals-command-center/services/api/app/db/repository.py:97-108 | The recorded events are, in order, the revisions of prices that the first closed candle of their identity had fixed, each with the time of its batch |
| BatchBacktest.LoadRange | forex-metals-command-center/services/api/scripts/batch_backtest.py:61-75 | The pager returns exactly the closed candles inside the range among those its queries reach, ascending; its chunk ends strictly decrease |
| BatchBacktest.LoadedCandles | forex-metals-command-center/services/api/scripts/batch_backtest.py:61-75 | A candle is loaded exactly when it opens at the start or later, closes by the end, and is among the newest limit times chunks before the end |
| BatchBacktest.ReachIsProduct | forex-metals-command-center/services/api/scripts/batch_backtest.py:64-65 | The queries together reach limit times chunks candles before the end |
| BatchBacktest.CompleteIffWithinReach | forex-metals-command-center/services/api/scripts/batch_backtest.py:61-75 | The range is complete if and only if no candle inside it lies beyond that reach |
| BatchBacktest.RangesThatFitAreComplete | forex-metals-command-center/services/api/scripts/batch_backtest.py:64-65 | With 400 chunks of 1000 every range within the newest 400,000 candles before its end is complete |
| BatchBacktest.OneCandleQueriesLose | forex-metals-command-center/services/api/scripts/batch_backtest.py:66-71 | Why the query size, 1000 in the script, matters: with a size of one and a newest candle that is still forming the result is empty, complete only if the range is |
| BatchBacktest.ResultAscends | forex-metals-command-center/services/api/scripts/batch_backtest.py:75 | The result is strictly ascending, so it has no duplicates |
| FetchCalendar.EventBuilder.DrawIdent | forex-metals-command-center/services/api/scripts/fetch_calendar.py:116-120 | The loop ends, and draws the first of base, base:1, base:2 and so on that has not been seen |
| FetchCalendar.EventBuilder.ToEvent | forex-metals-command-center/services/api/scripts/fetch_calendar.py:101-136 | The event of a usable row, with a new id and its country; other rows draw none |
| FetchCalendar.BuildCalendar | forex-metals-command-center/services/api/scripts/fetch_calendar.py:139-161 | Fails exactly when no row is usable; otherwise source, fetch time, queried window and the calendar of the usable rows |
| FetchCalendar.EventsAreTold | forex-metals-command-center/services/api/scripts/fetch_calendar.py:101-136 | Which rows give an event, and every field of it: id cut to 120, country, name cut to 200 or a placeholder, time, importance, actual unless not loaded |
| FetchCalendar.CalendarHoldsItsRows | forex-metals-command-center/services/api/scripts/fetch_calendar.py:147-152 | A calendar holds the events of its rows, and events of one time keep the order of the rows |
| FetchCalendar.SeenBoundsTries | forex-metals-command-center/services/api/scripts/fetch_calendar.py:117-119 | Pigeonhole: candidates that have all been seen are no more than the ids seen |
| FetchCalendar.DrawsAgree | forex-metals-command-center/services/api/scripts/fetch_calendar.py:116-120 | The drawn ids are determined by the base ids and their order |
| FetchCalendar.IdentsAreDistinct | forex-metals-command-center/services/api/scripts/fetch_calendar.py:116-120 | Drawn ids never repeat |
| FetchCalendar.UncutIdsAreDistinct | forex-metals-command-center/services/api/scripts/fetch_calendar.py:116-127 | Emitted ids are pairwise distinct whenever no drawn id exceeds the cut |
| FetchCalendar.RowsDrawByRank | forex-metals-command-center/services/api/scripts/fetch_calendar.py:115-120 | Every row draws the candidate of its rank among the rows that share its base id |
| FetchCalendar.EmittedIdsDistinctIff | forex-metals-command-center/services/api/scripts/fetch_calendar.py:115-127 | For any rows, emitted ids are pairwise distinct if and only if no base id is repeated too often for the cut and no base id longer than the cut starts with the emitted id of a row with another base |
| FetchCalendar.CalendarIsSound | forex-metals-command-center/services/api/scripts/fetch_calendar.py:147-161 | A calendar has one event per usable row, in order of time, and pairwise distinct ids exactly under that condition on the base ids |
| FetchCalendar.RepeatedBaseIsSafeIff | forex-metals-command-center/services/api/scripts/fetch_calendar.py:116-127 | Rows of one base id get distinct emitted ids if and only if there is one row, the last candidate fits into 120 characters, or there are two rows and the base has exactly 119 |
| FetchCalendar.ShortIdsAreDistinct | forex-metals-command-center/services/api/scripts/fetch_calendar.py:115-127 | With base ids that leave room for a suffix as long as the number of rows, as short event numbers do, the ids of a calendar are pairwise distinct |
| FetchCalendar.CutIdsCanCollide | forex-metals-command-center/services/api/scripts/fetch_calendar.py:116-127 | Two rows under one event id of 104 characters make a calendar whose two events have the same id |

## Left out

- Titles, messages, labels and other display texts of alerts, conditions and reports: wording without influence on state.
- Floating-point error and NaN: figures are exact reals, so bounds are those of rounding to four decimals only.
- `process_stats`, `dol_accuracy`, durations and averages of the report: counting and text matching of the same kind as the groups.
- The scheduling of `cycle` (which symbols are due, locking, sleeping, counters) and `watches()`: the theorems hold for every order of evaluations.
- Exceptions between the steps of one evaluation: the calls inside it do not raise, apart from the assertion that eligible data comes with a run, which is a precondition here.
- The order in which cleared locks are announced: the program iterates over a set, the model uses the order of the enumeration.
- Id strings of analysis events are tagged values, countdown keys are pairs: the prefixes and the split at the last colon keep them apart.
- Restart of the in-memory store and clocks that run backwards.
- `reconcileAlertFeed` beyond order and cursor, `reconcileWatches`, `alertEvents` and payload shape checks: the types of the model rule out malformed payloads.
- Fields of alerts, samples and rows that are only copied (strategy version, excursions, efficiencies).
- SQL sessions, transactions and two writers at once: the candle table is a map, one batch after another.
- The candle service behind the pager (validation, aggregation, withheld data): a load returns the latest candles before its end, as the provider contract says.
- Parsing of dates and time zones, the check for letters and the number checks of calendar rows: their results are fields of the row.
- AlertService.AlertService.Fail: leaves out the text of the last error that the monitor status shows.
- AnalyticsService.BuildReport: leaves out durations, excursion and efficiency averages, process and draw-on-liquidity sections, which no other part of the report depends on.
- AlertFeed.Feed: leaves out the suppressed counts, monitor status and time of the reply, which are copied.
