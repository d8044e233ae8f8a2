/** What session, approach, warning and news-window alerts say about the snapshots of a run. */
module StateTraces {
  import opened Wrappers
  import opened Seqs
  import opened Text
  import opened AlertModels
  import opened AlertRules
  import opened AlertRuns
  import opened AlertTraces
  import opened StreamTraces

  // ---------------------------------------------------------------- sessions

  /** Sessions that started and sessions that ended since the previous cycle. */
  datatype SessionShift = SessionShift(started: set<Session>, ended: set<Session>)

  function ShiftText(x: SessionShift): string {
    Join(FlatMap(Mentions(x.started, " started"), SESSIONS) + FlatMap(Mentions(x.ended, " ended"), SESSIONS))
  }

  /** The shift that one cycle announces. */
  function AnnouncedShift(s: Snapshot, p: Memory): Option<SessionShift> {
    if s.Eligible() && s.run.Some? && s.run.value.sessions != p.sessions
    then Some(SessionShift(s.run.value.sessions - p.sessions, p.sessions - s.run.value.sessions)) else None
  }

  function AfterShift(sessions: set<Session>, x: Option<SessionShift>): set<Session> {
    if x.Some? then sessions + x.value.started - x.value.ended else sessions
  }

  predicate IsSessionKind(t: AlertType) {
    t.SESSION_CHANGE?
  }

  lemma NoSessionsAround(s: Snapshot, p: Memory, cfg: AlertConfig)
    requires s.run.Some? && s.evaluation.Some?
    ensures NoneOf(IsSessionKind, LockAlerts(s, p))
    ensures NoneOf(IsSessionKind, NewOnes(p, Grace(s, p, cfg), FlatMap(SetupTag(s), s.run.value.events)))
    ensures NoneOf(IsSessionKind, WarningAlerts(s, p))
  {
    var locks, warnings := LockAlerts(s, p), WarningAlerts(s, p);
    var setups := NewOnes(p, Grace(s, p, cfg), FlatMap(SetupTag(s), s.run.value.events));
    forall i | 0 <= i < |locks| ensures !IsSessionKind(locks[i].kind) {
      LocksAreNoEvents(s, p, locks[i]);
    }
    forall i | 0 <= i < |setups| ensures !IsSessionKind(setups[i].kind) {
      SetupTagsAreAmongIds(s);
      NewOnesKinds(s, p, Grace(s, p, cfg), FlatMap(SetupTag(s), s.run.value.events), setups[i]);
    }
    forall i | 0 <= i < |warnings| ensures !IsSessionKind(warnings[i].kind) {
      WarningKinds(s, p, warnings[i]);
    }
  }

  lemma NoSessionsInContext(s: Snapshot, p: Memory, cfg: AlertConfig)
    ensures NoneOf(IsSessionKind, ContextAlerts(s, p, cfg))
  {
    var cs := ContextAlerts(s, p, cfg);
    forall i | 0 <= i < |cs| ensures !IsSessionKind(cs[i].kind) {
      ContextKinds(s, p, cfg, cs[i]);
    }
  }

  lemma NoSessionsInPipeline(s: Snapshot, p: Memory, pipe: Pipeline, cfg: AlertConfig)
    requires ShowsPipeline(s, pipe)
    ensures NoneOf(IsSessionKind, PipelineAlerts(s, p, pipe, cfg))
  {
    var cs := PipelineAlerts(s, p, pipe, cfg);
    forall i | 0 <= i < |cs| ensures !IsSessionKind(cs[i].kind) {
      PipelineOrigin(s, p, pipe, cfg, cs[i]);
    }
  }

  /** Pipeline alerts are event alerts or approaches. */
  lemma PipelineOrigin(s: Snapshot, p: Memory, pipe: Pipeline, cfg: AlertConfig, c: AlertCandidate)
    requires ShowsPipeline(s, pipe)
    ensures c in PipelineAlerts(s, p, pipe, cfg) ==>
              IsEventType(c.kind) || (c.kind == LIQUIDITY_APPROACHING && c in FlatMap(
                                        PoolAlerts(s, p, Grace(s, p, cfg)), pipe.pools))
  {
    if c in FlatMap(PoolAlerts(s, p, Grace(s, p, cfg)), pipe.pools) {
      PoolKinds(s, p, Grace(s, p, cfg), pipe.pools, c);
    } else if c in PipelineAlerts(s, p, pipe, cfg) {
      PipelineNewOnes(s, p, pipe, cfg, c);
      PipelineTagsAreAmongIds(s, pipe, cfg);
      NewOnesKinds(s, p, Grace(s, p, cfg), PipelineTags(s, pipe, cfg), c);
    }
  }

  lemma SecondOfFive(
      a: seq<AlertCandidate>, b: seq<AlertCandidate>, c: seq<AlertCandidate>, d: seq<AlertCandidate>,
      e: seq<AlertCandidate>, f: seq<AlertCandidate>)
    ensures a + (b + c + d + e + f) == a + b + c + (d + e + f)
  {
  }

  /** The session alerts of a cycle tell exactly the announced shift. */
  lemma SessionAlertsSelected(s: Snapshot, p: Memory, cfg: AlertConfig)
    requires Coherent(s)
    ensures Filter(KindIn(IsSessionKind), Alerts(s, Some(p), cfg))
            == match AnnouncedShift(s, p)
               case Some(x) => [Change(SESSION_CHANGE, s, ShiftText(x))]
               case None => []
  {
    AlertsSplit(s, p, cfg);
    NoSessionsInContext(s, p, cfg);
    if s.Eligible() {
      SessionsInMarket(s, p, cfg);
    } else {
      SelectSecond(IsSessionKind, ContextAlerts(s, p, cfg), [], []);
    }
  }

  lemma SessionsInMarket(s: Snapshot, p: Memory, cfg: AlertConfig)
    requires Coherent(s) && s.Eligible() && NoneOf(IsSessionKind, ContextAlerts(s, p, cfg))
    ensures Filter(KindIn(IsSessionKind), ContextAlerts(s, p, cfg) + MarketAlerts(s, p, cfg)) == SessionAlerts(s, p)
  {
    var context, locks, warnings := ContextAlerts(s, p, cfg), LockAlerts(s, p), WarningAlerts(s, p);
    var setups := NewOnes(p, Grace(s, p, cfg), FlatMap(SetupTag(s), s.run.value.events));
    var events := if s.run.value.pipeline.Some? then PipelineAlerts(s, p, s.run.value.pipeline.value, cfg) else [];
    assert NoneOf(IsSessionKind, events) by {
      if s.run.value.pipeline.Some? {
        NoSessionsInPipeline(s, p, s.run.value.pipeline.value, cfg);
      }
    }
    NoSessionsAround(s, p, cfg);
    NoneOfAppend(IsSessionKind, context, locks);
    NoneOfAppend(IsSessionKind, setups, warnings);
    NoneOfAppend(IsSessionKind, setups + warnings, events);
    SecondOfFive(context, locks, SessionAlerts(s, p), setups, warnings, events);
    SelectSplit(IsSessionKind, context + locks, SessionAlerts(s, p), setups + warnings + events);
  }

  /** The announced shift reproduces the remembered sessions if and only if data was eligible or nothing changed. */
  lemma SessionTraceFaithfulIff(s: Snapshot, p: Memory, cfg: AlertConfig)
    requires Coherent(s)
    ensures AfterShift(p.sessions, AnnouncedShift(s, p)) == NextMemory(s, Some(p), cfg).sessions
            <==> s.Eligible() || NextMemory(s, Some(p), cfg).sessions == p.sessions
  {
  }

  /** The sessions after the shifts announced from step `i` up to step `j`. */
  function SessionsAfter(start: set<Session>, snaps: seq<Snapshot>, cfg: AlertConfig, i: nat, j: nat): set<Session>
    requires 0 < i <= j <= |snaps|
  {
    if i == j then start
    else AfterShift(
      SessionsAfter(start, snaps, cfg, i, j - 1), AnnouncedShift(snaps[j - 1], MemoryAt(snaps, cfg, j - 1).value))
  }

  ghost predicate SessionsReplay(snaps: seq<Snapshot>, cfg: AlertConfig, i: nat, j: nat)
    requires 0 < i <= j <= |snaps|
  {
    SessionsAfter(MemoryAt(snaps, cfg, i).value.sessions, snaps, cfg, i, j) == MemoryAt(snaps, cfg, j).value.sessions
  }

  /** Over every stretch of eligible data the announced shifts lead from the starting sessions to the current ones. */
  lemma {:induction false} SessionAlertsReplay(snaps: seq<Snapshot>, cfg: AlertConfig, i: nat, j: nat)
    requires 0 < i <= j <= |snaps| && CoherentRun(snaps)
    requires forall k :: i <= k < j ==> snaps[k].Eligible()
    ensures SessionsReplay(snaps, cfg, i, j)
  {
    for k := i to j
      invariant SessionsReplay(snaps, cfg, i, k)
    {
      var p := MemoryBefore(snaps, cfg, k);
      SessionTraceFaithfulIff(snaps[k], p, cfg);
    }
  }

  function ShownSessions(s: Snapshot): set<Session> {
    if s.run.Some? then s.run.value.sessions else {}
  }

  function ShowsSession(x: Session): Snapshot -> bool {
    (s: Snapshot) => x in ShownSessions(s)
  }

  /** The cycle announces its session shift. */
  function TellsSessionShift(): Snapshot -> bool {
    (s: Snapshot) => s.Eligible()
  }

  lemma {:induction false} SessionsRemembered(snaps: seq<Snapshot>, cfg: AlertConfig, n: nat)
    requires 0 < n <= |snaps|
    ensures MemoryAt(snaps, cfg, n).value.sessions == ShownSessions(snaps[n - 1])
  {
  }

  /** The sessions that the shifts announced from step `i` up to step `j` give. */
  function ReplayedSessions(snaps: seq<Snapshot>, cfg: AlertConfig, i: nat, j: nat): set<Session>
    requires 0 < i <= j <= |snaps|
  {
    SessionsAfter(MemoryAt(snaps, cfg, i).value.sessions, snaps, cfg, i, j)
  }

  lemma ShiftedStep(snaps: seq<Snapshot>, cfg: AlertConfig, i: nat, j: nat, x: Session)
    requires 0 < i <= j < |snaps| && CoherentRun(snaps)
    ensures var shows, tells := ShowsSession(x), TellsSessionShift();
            x in ReplayedSessions(snaps, cfg, i, j + 1)
            <==> if shows(snaps[j]) != shows(snaps[j - 1]) && tells(snaps[j]) then shows(snaps[j])
                 else x in ReplayedSessions(snaps, cfg, i, j)
  {
    SessionsRemembered(snaps, cfg, j);
  }

  /** The replay agrees with the snapshot before step `j` on the session exactly when the drift is even. */
  ghost predicate TellsSession(snaps: seq<Snapshot>, cfg: AlertConfig, i: nat, j: nat, x: Session)
    requires 0 < i <= j <= |snaps|
  {
    (x in ReplayedSessions(snaps, cfg, i, j)) == ShowsSession(x)(snaps[j - 1])
    <==> InStep(ShowsSession(x), TellsSessionShift(), snaps, i, j)
  }

  lemma TellsSessionStep(snaps: seq<Snapshot>, cfg: AlertConfig, i: nat, j: nat, x: Session)
    requires 0 < i <= j < |snaps| && CoherentRun(snaps) && TellsSession(snaps, cfg, i, j, x)
    ensures TellsSession(snaps, cfg, i, j + 1, x)
  {
    ShiftedStep(snaps, cfg, i, j, x);
    InStepStep(
      ShowsSession(x), TellsSessionShift(), snaps, i, j, x in ReplayedSessions(snaps, cfg, i, j),
      x in ReplayedSessions(snaps, cfg, i, j + 1));
  }

  /**
   * Over every run, the announced shifts tell a session correctly if and only if it changed an even number of times in
   * silent cycles since its last announced change.
   */
  lemma {:induction false} SessionTraceIff(snaps: seq<Snapshot>, cfg: AlertConfig, i: nat, j: nat, x: Session)
    requires 0 < i <= j <= |snaps| && CoherentRun(snaps)
    ensures (x in ReplayedSessions(snaps, cfg, i, j) <==> x in MemoryAt(snaps, cfg, j).value.sessions)
            <==> InStep(ShowsSession(x), TellsSessionShift(), snaps, i, j)
  {
    SessionsRemembered(snaps, cfg, i);
    SessionsRemembered(snaps, cfg, j);
    for k := i to j
      invariant TellsSession(snaps, cfg, i, k, x)
    {
      TellsSessionStep(snaps, cfg, i, k, x);
    }
  }

  /** ... so the replay gives the current sessions if and only if that holds of every session. */
  lemma SessionsReplayIff(snaps: seq<Snapshot>, cfg: AlertConfig, i: nat, j: nat)
    requires 0 < i <= j <= |snaps| && CoherentRun(snaps)
    ensures SessionsReplay(snaps, cfg, i, j)
            <==> forall x: Session :: InStep(ShowsSession(x), TellsSessionShift(), snaps, i, j)
  {
    forall x: Session
      ensures (x in ReplayedSessions(snaps, cfg, i, j) <==> x in MemoryAt(snaps, cfg, j).value.sessions)
              <==> InStep(ShowsSession(x), TellsSessionShift(), snaps, i, j)
    {
      SessionTraceIff(snaps, cfg, i, j, x);
    }
  }

  // ---------------------------------------------------------------- the text of a session shift

  ghost predicate PlainParts(parts: seq<string>) {
    forall i :: 0 <= i < |parts| ==> |parts[i]| > 0 && ';' !in parts[i]
  }

  lemma {:induction false} LastPartSplit(a: string, x: string, b: string, y: string)
    requires ';' !in x && ';' !in y && a + "; " + x == b + "; " + y
    ensures a == b && x == y
  {
    assert a + "; " + x == a + [';'] + (" " + x) && b + "; " + y == b + [';'] + (" " + y);
    LastSplit(';', a, " " + x, b, " " + y);
    assert (" " + x)[1..] == x && (" " + y)[1..] == y;
  }

  lemma {:induction false} JoinOfMany(parts: seq<string>)
    requires |parts| > 1
    ensures Join(parts) == Join(parts[..|parts| - 1]) + "; " + parts[|parts| - 1] && ';' in Join(parts)
  {
    var front := Join(parts[..|parts| - 1]);
    assert Join(parts)[|front|] == ';';
  }

  /** Parts without a semicolon can be read off the joined text. */
  lemma {:induction false} JoinInjective(a: seq<string>, b: seq<string>)
    requires PlainParts(a) && PlainParts(b) && Join(a) == Join(b)
    ensures a == b
    decreases |a|
  {
    if |a| > 1 && |b| > 1 {
      JoinOfMany(a);
      JoinOfMany(b);
      LastPartSplit(Join(a[..|a| - 1]), a[|a| - 1], Join(b[..|b| - 1]), b[|b| - 1]);
      JoinInjective(a[..|a| - 1], b[..|b| - 1]);
      FrontLast(a);
      FrontLast(b);
    } else if |a| > 1 {
      JoinOfMany(a);
    } else if |b| > 1 {
      JoinOfMany(b);
    }
  }

  lemma SessionsAreListed(x: Session)
    ensures x in SESSIONS
  {
    assert SESSIONS[0] == ASIA && SESSIONS[1] == LONDON && SESSIONS[2] == LONDON_CLOSE;
    assert SESSIONS[3] == NY_AM && SESSIONS[4] == NY_PM;
  }

  lemma StartIsNoEnd(x: Session, y: Session)
    ensures SessionText(x) + " started" != SessionText(y) + " ended"
  {
    var s, e := SessionText(x) + " started", SessionText(y) + " ended";
    assert s[|s| - 3] == 't' && e[|e| - 3] == 'd';
  }

  lemma NamesDiffer(x: Session, y: Session)
    requires SessionText(x) == SessionText(y)
    ensures x == y
  {
    assert |SessionText(ASIA)| == 4 && |SessionText(LONDON)| == 6 && |SessionText(LONDON_CLOSE)| == 12;
    assert |SessionText(NY_AM)| == 5 && |SessionText(NY_PM)| == 5;
    assert SessionText(NY_AM)[3] == 'A' && SessionText(NY_PM)[3] == 'P';
  }

  lemma SuffixedNamesDiffer(x: Session, y: Session, suffix: string)
    requires SessionText(x) + suffix == SessionText(y) + suffix
    ensures x == y
  {
    var s := SessionText(x) + suffix;
    assert s == SessionText(y) + suffix;
    assert SessionText(x) == s[..|s| - |suffix|] && SessionText(y) == s[..|s| - |suffix|];
    NamesDiffer(x, y);
  }

  /** Which sessions a list of mentions names. */
  lemma MentionedIff(xs: set<Session>, suffix: string, x: Session)
    ensures SessionText(x) + suffix in FlatMap(Mentions(xs, suffix), SESSIONS) <==> x in xs
  {
    var text := SessionText(x) + suffix;
    FlatMapMembers(Mentions(xs, suffix), SESSIONS, text);
    if i :| 0 <= i < |SESSIONS| && text in Mentions(xs, suffix)(SESSIONS[i]) {
      SuffixedNamesDiffer(x, SESSIONS[i], suffix);
    }
    if x in xs {
      SessionsAreListed(x);
      var i :| 0 <= i < |SESSIONS| && SESSIONS[i] == x;
      assert text in Mentions(xs, suffix)(SESSIONS[i]);
    }
  }

  lemma NotMentioned(xs: set<Session>, suffix: string, text: string)
    requires forall y: Session :: SessionText(y) + suffix != text
    ensures text !in FlatMap(Mentions(xs, suffix), SESSIONS)
  {
    FlatMapMembers(Mentions(xs, suffix), SESSIONS, text);
  }

  function ShiftParts(x: SessionShift): seq<string> {
    FlatMap(Mentions(x.started, " started"), SESSIONS) + FlatMap(Mentions(x.ended, " ended"), SESSIONS)
  }

  lemma PartsName(x: SessionShift, s: Session)
    ensures SessionText(s) + " started" in ShiftParts(x) <==> s in x.started
    ensures SessionText(s) + " ended" in ShiftParts(x) <==> s in x.ended
  {
    MentionedIff(x.started, " started", s);
    MentionedIff(x.ended, " ended", s);
    forall y: Session ensures SessionText(y) + " ended" != SessionText(s) + " started" {
      StartIsNoEnd(s, y);
    }
    NotMentioned(x.ended, " ended", SessionText(s) + " started");
    forall y: Session ensures SessionText(y) + " started" != SessionText(s) + " ended" {
      StartIsNoEnd(y, s);
    }
    NotMentioned(x.started, " started", SessionText(s) + " ended");
  }

  lemma NoSemicolon(s: Session, suffix: string)
    requires ';' !in suffix && |suffix| > 0
    ensures ';' !in SessionText(s) + suffix && |SessionText(s) + suffix| > 0
  {
  }

  lemma MentionsArePlain(xs: set<Session>, suffix: string)
    requires ';' !in suffix && |suffix| > 0
    ensures PlainParts(FlatMap(Mentions(xs, suffix), SESSIONS))
  {
    var parts := FlatMap(Mentions(xs, suffix), SESSIONS);
    forall k | 0 <= k < |parts| ensures |parts[k]| > 0 && ';' !in parts[k] {
      FlatMapMembers(Mentions(xs, suffix), SESSIONS, parts[k]);
      var i :| 0 <= i < |SESSIONS| && parts[k] in Mentions(xs, suffix)(SESSIONS[i]);
      NoSemicolon(SESSIONS[i], suffix);
    }
  }

  /** The text of a session alert determines which sessions started and which ended. */
  lemma {:induction false} ShiftTextInjective(x: SessionShift, y: SessionShift)
    requires ShiftText(x) == ShiftText(y)
    ensures x == y
  {
    PartsArePlain(x);
    PartsArePlain(y);
    JoinInjective(ShiftParts(x), ShiftParts(y));
    forall s: Session ensures (s in x.started <==> s in y.started) && (s in x.ended <==> s in y.ended) {
      PartsName(x, s);
      PartsName(y, s);
    }
  }

  lemma PartsArePlain(x: SessionShift)
    ensures PlainParts(ShiftParts(x))
  {
    MentionsArePlain(x.started, " started");
    MentionsArePlain(x.ended, " ended");
  }

  // ---------------------------------------------------------------- approaches, warnings, news windows

  /** The previous cycle showed the pool as approached. */
  predicate WasApproaching(before: Snapshot, id: string) {
    id in ApproachingPools(before)
  }

  function ApproachAlert(s: Snapshot, x: Pool): AlertCandidate {
    AlertCandidate(LIQUIDITY_APPROACHING, s.symbol, x.id, s.now, Some(x.price), None)
  }

  /** A market alert of no event type, lock, session or warning is an approach. */
  lemma {:induction false} ApproachOrigin(s: Snapshot, p: Memory, cfg: AlertConfig, c: AlertCandidate)
    requires Coherent(s) && c.kind == LIQUIDITY_APPROACHING
    ensures c in Alerts(s, Some(p), cfg)
            <==> s.Eligible() && s.Pipe().Some?
                 && c in FlatMap(PoolAlerts(s, p, Grace(s, p, cfg)), s.Pipe().value.pools)
  {
    if c in Alerts(s, Some(p), cfg) {
      AlertOrigin(s, p, cfg, c);
      if c in ContextAlerts(s, p, cfg) {
        ContextKinds(s, p, cfg, c);
      } else {
        MarketApproach(s, p, cfg, c);
      }
    }
    if s.Eligible() && s.Pipe().Some? && c in FlatMap(PoolAlerts(s, p, Grace(s, p, cfg)), s.Pipe().value.pools) {
      AlertsSplit(s, p, cfg);
      PoolsAreMarket(s, p, cfg, c);
    }
  }

  lemma PoolsAreMarket(s: Snapshot, p: Memory, cfg: AlertConfig, c: AlertCandidate)
    requires Coherent(s) && s.Eligible() && s.Pipe().Some?
    requires c in FlatMap(PoolAlerts(s, p, Grace(s, p, cfg)), s.Pipe().value.pools)
    ensures c in MarketAlerts(s, p, cfg)
  {
    assert c in PipelineAlerts(s, p, s.Pipe().value, cfg);
  }

  lemma MarketApproach(s: Snapshot, p: Memory, cfg: AlertConfig, c: AlertCandidate)
    requires Coherent(s) && c in MarketAlerts(s, p, cfg) && c.kind == LIQUIDITY_APPROACHING
    ensures s.Eligible() && s.Pipe().Some? && c in FlatMap(PoolAlerts(s, p, Grace(s, p, cfg)), s.Pipe().value.pools)
  {
    if c in StateAlerts(s, p, cfg) {
      NoApproachInState(s, p, cfg, c);
    } else {
      PipelineOrigin(s, p, s.Pipe().value, cfg, c);
    }
  }

  lemma NoApproachInState(s: Snapshot, p: Memory, cfg: AlertConfig, c: AlertCandidate)
    requires s.run.Some? && s.evaluation.Some?
    ensures c in StateAlerts(s, p, cfg) ==> c.kind != LIQUIDITY_APPROACHING
  {
    if c in LockAlerts(s, p) {
      LocksAreNoEvents(s, p, c);
    } else if c in WarningAlerts(s, p) {
      WarningKinds(s, p, c);
    } else if c !in SessionAlerts(s, p) && c in StateAlerts(s, p, cfg) {
      SetupTagsAreAmongIds(s);
      NewOnesKinds(s, p, Grace(s, p, cfg), FlatMap(SetupTag(s), s.run.value.events), c);
    }
  }

  lemma {:induction false} ApproachOfPool(s: Snapshot, p: Memory, grace: Option<int>, x: Pool, c: AlertCandidate)
    requires c.kind == LIQUIDITY_APPROACHING
    ensures c in PoolAlerts(s, p, grace)(x) <==> NewlyApproaching(p, x) && c == ApproachAlert(s, x)
  {
    NewOnesMembers(p, grace, PoolTag(s)(x), c);
  }

  /**
   * Over every run an approach is announced if and only if data is eligible, the pool is external, not taken and
   * approached, and the previous cycle did not show it as approached.
   */
  lemma {:induction false} ApproachAnnouncedIff(
      snaps: seq<Snapshot>, cfg: AlertConfig, i: nat, c: AlertCandidate)
    requires 0 < i < |snaps| && CoherentRun(snaps) && c.kind == LIQUIDITY_APPROACHING
    ensures c in AlertsAt(snaps, cfg, i)
            <==> snaps[i].Eligible() && snaps[i].Pipe().Some?
                 && exists k :: 0 <= k < |snaps[i].Pipe().value.pools|
                                && IsNewApproach(snaps[i - 1], snaps[i], snaps[i].Pipe().value.pools[k], c)
  {
    var s := snaps[i];
    var p := MemoryBefore(snaps, cfg, i);
    ApproachesRemembered(snaps, cfg, i, p);
    ApproachOrigin(s, p, cfg, c);
    if s.Eligible() && s.Pipe().Some? {
      var pools := s.Pipe().value.pools;
      FlatMapMembers(PoolAlerts(s, p, Grace(s, p, cfg)), pools, c);
      forall k | 0 <= k < |pools|
        ensures c in PoolAlerts(s, p, Grace(s, p, cfg))(pools[k]) <==> IsNewApproach(snaps[i - 1], s, pools[k], c)
      {
        ApproachOfPool(s, p, Grace(s, p, cfg), pools[k], c);
      }
    }
  }

  predicate IsNewApproach(before: Snapshot, s: Snapshot, x: Pool, c: AlertCandidate) {
    c == ApproachAlert(s, x) && x.approaching && x.external && !x.taken && !WasApproaching(before, x.id)
  }

  lemma {:induction false} ApproachesRemembered(snaps: seq<Snapshot>, cfg: AlertConfig, n: nat, p: Memory)
    requires 0 < n <= |snaps| && MemoryAt(snaps, cfg, n) == Some(p)
    ensures p.approachingPools == ApproachingPools(snaps[n - 1])
  {
  }

  // ---------------------------------------------------------------- early-entry warnings

  function WarningOf(s: Snapshot, setup: Setup, w: EntryWarning): AlertCandidate {
    AlertCandidate(
      EARLY_ENTRY_WARNING, s.symbol, setup.id + ":" + WarningName(w), s.now, None, Some(setup.direction))
  }

  /** The snapshot shows the warning for the setup. */
  predicate ShowsWarning(s: Snapshot, setup: Setup, w: EntryWarning) {
    s.Current().Some? && s.Current().value.id == setup.id && s.evaluation.Some? && w in s.evaluation.value.warnings
  }

  predicate IsNewWarning(before: Snapshot, s: Snapshot, w: EntryWarning, c: AlertCandidate) {
    && s.Current().Some? && ShowsWarning(s, s.Current().value, w) && !ShowsWarning(before, s.Current().value, w)
    && c == WarningOf(s, s.Current().value, w)
  }

  ghost predicate ShowsNewWarning(before: Snapshot, s: Snapshot, c: AlertCandidate) {
    exists w: EntryWarning :: IsNewWarning(before, s, w, c)
  }

  lemma {:induction false} WarningOrigin(s: Snapshot, p: Memory, cfg: AlertConfig, c: AlertCandidate)
    requires Coherent(s) && c.kind == EARLY_ENTRY_WARNING
    ensures c in Alerts(s, Some(p), cfg) <==> s.Eligible() && c in WarningAlerts(s, p)
  {
    if c in Alerts(s, Some(p), cfg) {
      AlertOrigin(s, p, cfg, c);
      if c in ContextAlerts(s, p, cfg) {
        ContextKinds(s, p, cfg, c);
      } else {
        MarketWarning(s, p, cfg, c);
      }
    }
    if s.Eligible() && c in WarningAlerts(s, p) {
      AlertsSplit(s, p, cfg);
      WarningsAreMarket(s, p, cfg, c);
    }
  }

  lemma WarningsAreMarket(s: Snapshot, p: Memory, cfg: AlertConfig, c: AlertCandidate)
    requires Coherent(s) && s.Eligible() && c in WarningAlerts(s, p)
    ensures c in MarketAlerts(s, p, cfg)
  {
    assert c in StateAlerts(s, p, cfg);
  }

  lemma MarketWarning(s: Snapshot, p: Memory, cfg: AlertConfig, c: AlertCandidate)
    requires Coherent(s) && c in MarketAlerts(s, p, cfg) && c.kind == EARLY_ENTRY_WARNING
    ensures s.Eligible() && c in WarningAlerts(s, p)
  {
    if c in StateAlerts(s, p, cfg) {
      StateWarning(s, p, cfg, c);
    } else {
      PipelineOrigin(s, p, s.Pipe().value, cfg, c);
    }
  }

  lemma StateWarning(s: Snapshot, p: Memory, cfg: AlertConfig, c: AlertCandidate)
    requires s.run.Some? && s.evaluation.Some?
    ensures c in StateAlerts(s, p, cfg) && c.kind == EARLY_ENTRY_WARNING ==> c in WarningAlerts(s, p)
  {
    if c in LockAlerts(s, p) {
      LocksAreNoEvents(s, p, c);
    } else if c !in SessionAlerts(s, p) && c !in WarningAlerts(s, p) && c in StateAlerts(s, p, cfg) {
      SetupTagsAreAmongIds(s);
      NewOnesKinds(s, p, Grace(s, p, cfg), FlatMap(SetupTag(s), s.run.value.events), c);
    }
  }

  lemma WarningsAreListed(w: EntryWarning)
    ensures w in WARNINGS
  {
    assert WARNINGS[0] == AGAINST_HTF && WARNINGS[1] == BEFORE_CLOSE && WARNINGS[2] == BEFORE_MAJOR_NEWS;
    assert WARNINGS[3] == BEFORE_RETRACEMENT && WARNINGS[4] == DURING_SWEEP && WARNINGS[5] == EARLY_BEFORE_MSS;
    assert WARNINGS[6] == INSIDE_DISPLACEMENT && WARNINGS[7] == WEAK_FVG;
  }

  lemma {:induction false} WarningMembers(s: Snapshot, setup: Setup, unseen: set<EntryWarning>, c: AlertCandidate)
    ensures c in FlatMap(WarningAlert(s, setup, unseen), WARNINGS)
            <==> exists w: EntryWarning :: w in unseen && c == WarningOf(s, setup, w)
  {
    var alert := WarningAlert(s, setup, unseen);
    FlatMapMembers(alert, WARNINGS, c);
    if w: EntryWarning :| w in unseen && c == WarningOf(s, setup, w) {
      WarningsAreListed(w);
      var k :| 0 <= k < |WARNINGS| && WARNINGS[k] == w;
      assert c in alert(WARNINGS[k]);
    }
  }

  /**
   * Over every run a warning is announced if and only if data is eligible, the open setup shows it, and the previous
   * cycle did not show it for the same setup.
   */
  lemma {:induction false} WarningAnnouncedIff(
      snaps: seq<Snapshot>, cfg: AlertConfig, i: nat, c: AlertCandidate)
    requires 0 < i < |snaps| && CoherentRun(snaps) && c.kind == EARLY_ENTRY_WARNING
    ensures c in AlertsAt(snaps, cfg, i)
            <==> snaps[i].Eligible() && ShowsNewWarning(snaps[i - 1], snaps[i], c)
  {
    var s := snaps[i];
    var p := MemoryBefore(snaps, cfg, i);
    WarningOrigin(s, p, cfg, c);
    WarningsRemembered(snaps, cfg, i, p);
    if s.Eligible() && s.Current().Some? {
      var setup := s.Current().value;
      var unseen := FreshWarnings(setup, s.evaluation.value.warnings, p);
      WarningMembers(s, setup, unseen, c);
      forall w: EntryWarning
        ensures w in unseen && c == WarningOf(s, setup, w) <==> IsNewWarning(snaps[i - 1], s, w, c) {
      }
    }
  }

  lemma {:induction false} WarningsRemembered(snaps: seq<Snapshot>, cfg: AlertConfig, n: nat, p: Memory)
    requires 0 < n <= |snaps| && MemoryAt(snaps, cfg, n) == Some(p)
    ensures var s := snaps[n - 1];
            && p.setupId == (if s.Current().Some? then Some(s.Current().value.id) else None)
            && p.warnings == (if s.evaluation.Some? then s.evaluation.value.warnings else {})
            && p.newsState == (if s.News().Some? then Some(s.News().value.state) else None)
  {
  }

  // ---------------------------------------------------------------- news windows

  function NewsStateOf(s: Snapshot): Option<NewsState> {
    if s.News().Some? then Some(s.News().value.state) else None
  }

  lemma NewsIsNoMarket(t: AlertType)
    requires t == NEWS_BLACKOUT || t == NEWS_CLEARED
    ensures !IsMarketKind(t)
  {
  }

  lemma {:induction false} NewsOrigin(s: Snapshot, p: Memory, cfg: AlertConfig, c: AlertCandidate)
    requires Coherent(s) && (c.kind == NEWS_BLACKOUT || c.kind == NEWS_CLEARED)
    ensures c in Alerts(s, Some(p), cfg) <==> c in ContextAlerts(s, p, cfg)
  {
    if c in Alerts(s, Some(p), cfg) {
      AlertOrigin(s, p, cfg, c);
      if c in MarketAlerts(s, p, cfg) {
        MarketKinds(s, p, cfg, c);
        NewsIsNoMarket(c.kind);
      }
    }
    AlertsSplit(s, p, cfg);
  }

  lemma BlackoutOrigin(s: Snapshot, p: Memory, cfg: AlertConfig, c: AlertCandidate)
    requires c.kind == NEWS_BLACKOUT
    ensures c in ContextAlerts(s, p, cfg) <==> c in BlackoutAlerts(s, p)
  {
  }

  lemma ClearedOrigin(s: Snapshot, p: Memory, cfg: AlertConfig, c: AlertCandidate)
    requires c.kind == NEWS_CLEARED
    ensures c in ContextAlerts(s, p, cfg) <==> c in ClearedAlerts(s, p)
  {
  }

  /**
   * Over every run a blackout is announced exactly when it begins with an active event, and the end of a news window
   * exactly when the state leaves BLACKOUT and POST_NEWS_WAIT, whether or not data is eligible.
   */
  lemma {:induction false} NewsWindowsAnnouncedIff(
      snaps: seq<Snapshot>, cfg: AlertConfig, i: nat, c: AlertCandidate)
    requires 0 < i < |snaps| && CoherentRun(snaps)
    ensures c.kind == NEWS_BLACKOUT ==>
              (c in AlertsAt(snaps, cfg, i)
               <==> NewsStateOf(snaps[i]) == Some(BLACKOUT) && NewsStateOf(snaps[i - 1]) != Some(BLACKOUT)
                    && snaps[i].News().value.activeEvent.Some?
                    && c == Change(NEWS_BLACKOUT, snaps[i], snaps[i].News().value.activeEvent.value.id))
    ensures c.kind == NEWS_CLEARED ==>
              (c in AlertsAt(snaps, cfg, i)
               <==> snaps[i].News().Some? && Blocking(NewsStateOf(snaps[i - 1])) && !Blocking(NewsStateOf(snaps[i]))
                    && c == Change(NEWS_CLEARED, snaps[i], "news"))
  {
    var s := snaps[i];
    var p := MemoryBefore(snaps, cfg, i);
    WarningsRemembered(snaps, cfg, i, p);
    if c.kind == NEWS_BLACKOUT {
      NewsOrigin(s, p, cfg, c);
      BlackoutOrigin(s, p, cfg, c);
    } else if c.kind == NEWS_CLEARED {
      NewsOrigin(s, p, cfg, c);
      ClearedOrigin(s, p, cfg, c);
    }
  }
}
