/** The checklist behind an ALERT_ME_WHEN_READY watch: its conditions, its state and whether it fires. */
module ReadyChecklist {
  import opened Wrappers
  import opened Domain
  import opened AlertRules

  datatype ConditionName =
    | DATA_USABLE | OPEN_SETUP | SEQUENCE_STEP(step: StepName) | RISK_CONDITION | NEWS_GATE | VERDICT_AUTHORITY
    | VERDICT_CONDITION
  datatype ConditionStatus = MET | MISSING | NOT_EVALUATED
  datatype Condition = Condition(name: ConditionName, status: ConditionStatus)
  datatype WatchState = WAITING | GATES_PENDING | FIRED | UNAVAILABLE_WATCH

  const SEQUENCE: seq<StepName> := [
    HTF_BIAS, DOL_TARGET, LIQUIDITY_EVENT, DISPLACEMENT_STEP, MSS, PD_ARRAY, RETRACEMENT, LTF_CONFIRMATION
  ]

  /** The names of a checklist, in order. */
  const NAMES: seq<ConditionName> := [
    DATA_USABLE, OPEN_SETUP, SEQUENCE_STEP(HTF_BIAS), SEQUENCE_STEP(DOL_TARGET), SEQUENCE_STEP(LIQUIDITY_EVENT),
    SEQUENCE_STEP(DISPLACEMENT_STEP), SEQUENCE_STEP(MSS), SEQUENCE_STEP(PD_ARRAY), SEQUENCE_STEP(RETRACEMENT),
    SEQUENCE_STEP(LTF_CONFIRMATION), RISK_CONDITION, NEWS_GATE, VERDICT_AUTHORITY, VERDICT_CONDITION
  ]

  function StepMeaning(status: StepStatus): ConditionStatus {
    match status
    case DONE => MET
    case PENDING_STEP => MISSING
    case STEP_NOT_EVALUATED => NOT_EVALUATED
  }

  function MetIf(b: bool): ConditionStatus {
    if b then MET else MISSING
  }

  predicate Usable(s: Snapshot) {
    s.verdict != UNAVAILABLE
  }

  /** The open setup, when it has the watched direction; every direction is watched when none is given. */
  function MatchingSetup(s: Snapshot, direction: Option<Direction>): Option<Setup> {
    if s.Current().Some? && (direction.None? || s.Current().value.direction == direction.value)
    then s.Current() else None
  }

  predicate RiskOk(s: Snapshot) {
    s.Risk().Some? && s.Risk().value.withinLimits
  }

  predicate NewsOk(s: Snapshot) {
    s.News().Some? && !s.News().value.hasBlockers
    && (s.News().value.state == CLEAR || s.News().value.state == NORMALIZED || s.News().value.state == CAUTION)
  }

  function VerdictFor(d: Direction): Verdict {
    match d case BULLISH => LONG case BEARISH => SHORT
  }

  predicate Directional(v: Verdict, direction: Option<Direction>) {
    match direction
    case Some(d) => v == VerdictFor(d)
    case None => v == LONG || v == SHORT
  }

  /** The status of the last listed step of a name. */
  function LastStatus(steps: seq<SetupStep>, name: StepName): Option<StepStatus> {
    if |steps| == 0 then None
    else if steps[|steps| - 1].name == name then Some(steps[|steps| - 1].status)
    else LastStatus(steps[..|steps| - 1], name)
  }

  function StepStatusOf(setup: Option<Setup>, name: StepName): ConditionStatus {
    if setup.None? || LastStatus(setup.value.steps, name).None? then MISSING
    else StepMeaning(LastStatus(setup.value.steps, name).value)
  }

  /** What each condition means. */
  function StatusOf(s: Snapshot, direction: Option<Direction>, authority: string, name: ConditionName)
    : ConditionStatus
  {
    match name
    case DATA_USABLE => MetIf(Usable(s))
    case OPEN_SETUP => if Usable(s) then MetIf(MatchingSetup(s, direction).Some?) else NOT_EVALUATED
    case SEQUENCE_STEP(step) =>
      if Usable(s) then StepStatusOf(MatchingSetup(s, direction), step) else NOT_EVALUATED
    case RISK_CONDITION => MetIf(RiskOk(s))
    case NEWS_GATE => MetIf(NewsOk(s))
    case VERDICT_AUTHORITY => MetIf(authority == "FULL")
    case VERDICT_CONDITION => MetIf(Directional(s.verdict, direction))
  }

  ghost predicate IsChecklist(
    s: Snapshot, direction: Option<Direction>, authority: string, conditions: seq<Condition>)
  {
    |conditions| == |NAMES|
    && forall i :: 0 <= i < |NAMES| ==>
         conditions[i] == Condition(NAMES[i], StatusOf(s, direction, authority, NAMES[i]))
  }

  /** The decision itself is directional, as watched, on usable data and with full authority. */
  predicate Fires(s: Snapshot, direction: Option<Direction>, authority: string) {
    Usable(s) && authority == "FULL" && Directional(s.verdict, direction)
  }

  /** The conditions on setup, risk and news. */
  predicate IsGate(name: ConditionName) {
    name == OPEN_SETUP || name == RISK_CONDITION || name == NEWS_GATE
    || (name.SEQUENCE_STEP? && name.step in SEQUENCE)
  }

  ghost predicate GatesMet(s: Snapshot, direction: Option<Direction>, authority: string) {
    forall name :: name in NAMES && IsGate(name) ==> StatusOf(s, direction, authority, name) == MET
  }

  ghost function StateOf(s: Snapshot, direction: Option<Direction>, authority: string): WatchState {
    if Fires(s, direction, authority) then FIRED
    else if !Usable(s) then UNAVAILABLE_WATCH
    else if GatesMet(s, direction, authority) then GATES_PENDING
    else WAITING
  }

  /** Later steps of the same name replace earlier ones. */
  method StepMap(steps: seq<SetupStep>) returns (m: map<StepName, StepStatus>)
    ensures forall n :: n in m <==> LastStatus(steps, n).Some?
    ensures forall n :: n in m ==> LastStatus(steps, n) == Some(m[n])
  {
    m := map[];
    for i := 0 to |steps|
      invariant forall n :: n in m <==> LastStatus(steps[..i], n).Some?
      invariant forall n :: n in m ==> LastStatus(steps[..i], n) == Some(m[n])
    {
      assert steps[..i + 1][..i] == steps[..i];
      m := m[steps[i].name := steps[i].status];
    }
    assert steps[..|steps|] == steps;
  }

  /** Appends the conditions of the setup steps. */
  method StepConditions(before: seq<Condition>, setup: Option<Setup>) returns (c: seq<Condition>)
    ensures |c| == |before| + |SEQUENCE| && c[..|before|] == before
    ensures forall i :: 0 <= i < |SEQUENCE| ==>
              c[|before| + i] == Condition(SEQUENCE_STEP(SEQUENCE[i]), StepStatusOf(setup, SEQUENCE[i]))
  {
    var steps := map[];
    if setup.Some? {
      steps := StepMap(setup.value.steps);
    }
    c := before;
    for i := 0 to |SEQUENCE|
      invariant |c| == |before| + i && c[..|before|] == before
      invariant forall k :: 0 <= k < i ==>
                  c[|before| + k] == Condition(SEQUENCE_STEP(SEQUENCE[k]), StepStatusOf(setup, SEQUENCE[k]))
    {
      var name := SEQUENCE[i];
      c := c + [Condition(SEQUENCE_STEP(name), if name in steps then StepMeaning(steps[name]) else MISSING)];
    }
  }

  /** Setup progress computed from untrusted data counts as nothing. */
  method SkippedConditions(before: seq<Condition>) returns (c: seq<Condition>)
    ensures |c| == |before| + 1 + |SEQUENCE| && c[..|before|] == before
    ensures c[|before|] == Condition(OPEN_SETUP, NOT_EVALUATED)
    ensures forall i :: 0 <= i < |SEQUENCE| ==>
              c[|before| + 1 + i] == Condition(SEQUENCE_STEP(SEQUENCE[i]), NOT_EVALUATED)
  {
    c := before + [Condition(OPEN_SETUP, NOT_EVALUATED)];
    for i := 0 to |SEQUENCE|
      invariant |c| == |before| + 1 + i && c[..|before|] == before
      invariant c[|before|] == Condition(OPEN_SETUP, NOT_EVALUATED)
      invariant forall k :: 0 <= k < i ==>
                  c[|before| + 1 + k] == Condition(SEQUENCE_STEP(SEQUENCE[k]), NOT_EVALUATED)
    {
      c := c + [Condition(SEQUENCE_STEP(SEQUENCE[i]), NOT_EVALUATED)];
    }
  }

  /** The setup part of the list, after the condition on the data. */
  method SetupConditions(s: Snapshot, direction: Option<Direction>, authority: string) returns (c: seq<Condition>)
    ensures |c| == 10
    ensures forall i :: 0 <= i < 10 ==> c[i] == Condition(NAMES[i], StatusOf(s, direction, authority, NAMES[i]))
  {
    c := [Condition(DATA_USABLE, MetIf(s.verdict != UNAVAILABLE))];
    if s.verdict == UNAVAILABLE {
      c := SkippedConditions(c);
    } else {
      var setup := MatchingSetup(s, direction);
      c := StepConditions(c + [Condition(OPEN_SETUP, MetIf(setup.Some?))], setup);
    }
    forall i | 0 <= i < 10 ensures c[i] == Condition(NAMES[i], StatusOf(s, direction, authority, NAMES[i])) {
      assert i < 2 || NAMES[i] == SEQUENCE_STEP(SEQUENCE[i - 2]);
    }
  }

  method Checklist(s: Snapshot, direction: Option<Direction>, authority: string)
    returns (state: WatchState, conditions: seq<Condition>, fire: bool)
    ensures IsChecklist(s, direction, authority, conditions)
    ensures state == StateOf(s, direction, authority) && (fire <==> Fires(s, direction, authority))
  {
    conditions := SetupConditions(s, direction, authority);
    conditions := conditions + [
      Condition(RISK_CONDITION, MetIf(s.Risk().Some? && s.Risk().value.withinLimits)),
      Condition(NEWS_GATE, MetIf(NewsOk(s))),
      Condition(VERDICT_AUTHORITY, MetIf(authority == "FULL")),
      Condition(VERDICT_CONDITION, MetIf(Directional(s.verdict, direction)))
    ];
    fire := s.verdict != UNAVAILABLE && authority == "FULL" && Directional(s.verdict, direction);
    if fire {
      return FIRED, conditions, true;
    }
    if s.verdict == UNAVAILABLE {
      return UNAVAILABLE_WATCH, conditions, false;
    }
    var setupDone := AllGates(conditions);
    AllGatesMeet(s, direction, authority, conditions);
    state := if setupDone then GATES_PENDING else WAITING;
  }

  predicate GatesMetIn(conditions: seq<Condition>) {
    forall i :: 0 <= i < |conditions| && IsGate(conditions[i].name) ==> conditions[i].status == MET
  }

  method AllGates(conditions: seq<Condition>) returns (ok: bool)
    ensures ok <==> GatesMetIn(conditions)
  {
    ok := true;
    for i := 0 to |conditions|
      invariant ok <==> GatesMetIn(conditions[..i])
    {
      ok := ok && (!IsGate(conditions[i].name) || conditions[i].status == MET);
    }
  }

  lemma AllGatesMeet(s: Snapshot, direction: Option<Direction>, authority: string, conditions: seq<Condition>)
    requires IsChecklist(s, direction, authority, conditions)
    ensures GatesMetIn(conditions) <==> GatesMet(s, direction, authority)
  {
    forall name | name in NAMES && IsGate(name) && GatesMetIn(conditions)
      ensures StatusOf(s, direction, authority, name) == MET
    {
      var i :| 0 <= i < |NAMES| && NAMES[i] == name;
      assert conditions[i].name == name;
    }
    forall i | 0 <= i < |conditions| && IsGate(conditions[i].name) && GatesMet(s, direction, authority)
      ensures conditions[i].status == MET
    {
      assert NAMES[i] in NAMES;
    }
  }

  /** The first condition that is not met. */
  function NextRequired(conditions: seq<Condition>): (r: Option<ConditionName>)
    ensures r.None? <==> forall c :: c in conditions ==> c.status == MET
    ensures r.Some? ==> exists i :: 0 <= i < |conditions| && conditions[i].name == r.value
                                    && conditions[i].status != MET
                                    && forall j :: 0 <= j < i ==> conditions[j].status == MET
  {
    if |conditions| == 0 then None
    else if conditions[0].status != MET then Some(conditions[0].name)
    else
      var rest := NextRequired(conditions[1..]);
      assert rest.Some? ==>
        var i :| 0 <= i < |conditions[1..]| && conditions[1..][i].name == rest.value
                 && conditions[1..][i].status != MET
                 && forall j :: 0 <= j < i ==> conditions[1..][j].status == MET;
        conditions[i + 1].name == rest.value && conditions[i + 1].status != MET
        && forall j :: 0 <= j < i + 1 ==> j == 0 || conditions[j] == conditions[1..][j - 1];
      rest
  }

  // ---------------------------------------------------------------- the conditions, told by the snapshot

  /** The condition has the name, and is met or missing. */
  predicate Tells(c: Condition, name: ConditionName, met: bool) {
    c.name == name && c.status == (if met then MET else MISSING)
  }

  /** The open setup is there and has the watched direction. */
  predicate SetupIsOpen(s: Snapshot, direction: Option<Direction>) {
    && s.run.Some? && s.run.value.current.Some?
    && (direction.None? || direction == Some(s.run.value.current.value.direction))
  }

  /** The last step of the name among the steps of the open setup decides; without one the step is missing. */
  predicate TellsStep(c: Condition, s: Snapshot, direction: Option<Direction>, name: StepName) {
    && c.name == SEQUENCE_STEP(name)
    && if s.verdict == UNAVAILABLE then c.status == NOT_EVALUATED
       else if !SetupIsOpen(s, direction) then c.status == MISSING
       else IsStatusIn(s.run.value.current.value.steps, name, c.status)
  }

  predicate IsStatusIn(steps: seq<SetupStep>, name: StepName, status: ConditionStatus) {
    || (status == MISSING && forall k :: 0 <= k < |steps| ==> steps[k].name != name)
    || exists k :: 0 <= k < |steps| && IsLastOf(steps, name, k) && Means(steps[k].status, status)
  }

  /** Step `k` is the last one of the name. */
  predicate IsLastOf(steps: seq<SetupStep>, name: StepName, k: int) {
    0 <= k < |steps| && steps[k].name == name && forall n :: k < n < |steps| ==> steps[n].name != name
  }

  predicate Means(step: StepStatus, status: ConditionStatus) {
    (step.DONE? && status.MET?) || (step.PENDING_STEP? && status.MISSING?)
    || (step.STEP_NOT_EVALUATED? && status.NOT_EVALUATED?)
  }

  predicate RiskWithinLimits(s: Snapshot) {
    s.evaluation.Some? && s.evaluation.value.risk.Some? && s.evaluation.value.risk.value.withinLimits
  }

  predicate NewsGateOpen(s: Snapshot) {
    && s.evaluation.Some? && s.evaluation.value.news.Some? && !s.evaluation.value.news.value.hasBlockers
    && var state := s.evaluation.value.news.value.state;
       state.CLEAR? || state.CAUTION? || state.NORMALIZED?
  }

  predicate VerdictAsWatched(v: Verdict, direction: Option<Direction>) {
    (v.LONG? && direction != Some(BEARISH)) || (v.SHORT? && direction != Some(BULLISH))
  }

  lemma {:induction false} LastStatusIs(steps: seq<SetupStep>, name: StepName)
    ensures LastStatus(steps, name).None? ==> forall k :: 0 <= k < |steps| ==> steps[k].name != name
    ensures LastStatus(steps, name).Some? ==>
              exists k :: IsLastOf(steps, name, k) && LastStatus(steps, name) == Some(steps[k].status)
  {
    if |steps| != 0 {
      var front, n := steps[..|steps| - 1], |steps| - 1;
      if steps[n].name == name {
        assert IsLastOf(steps, name, n);
      } else {
        LastStatusIs(front, name);
        if LastStatus(front, name).Some? {
          var k :| IsLastOf(front, name, k) && LastStatus(front, name) == Some(front[k].status);
          assert IsLastOf(steps, name, k) && steps[k] == front[k];
        }
      }
    }
  }

  lemma {:induction false} LastStatusDecides(steps: seq<SetupStep>, name: StepName)
    ensures IsStatusIn(
              steps, name,
              if LastStatus(steps, name).None? then MISSING else StepMeaning(LastStatus(steps, name).value))
  {
    LastStatusIs(steps, name);
  }

  lemma {:induction false} StepIsTold(s: Snapshot, direction: Option<Direction>, authority: string, name: StepName)
    ensures TellsStep(
              Condition(SEQUENCE_STEP(name), StatusOf(s, direction, authority, SEQUENCE_STEP(name))), s, direction,
              name)
  {
    if MatchingSetup(s, direction).Some? {
      LastStatusDecides(MatchingSetup(s, direction).value.steps, name);
    }
  }

  /** Every condition of a checklist, told by the fields of the snapshot. */
  lemma {:induction false} ConditionsAreTold(
      s: Snapshot, direction: Option<Direction>, authority: string, c: seq<Condition>)
    requires IsChecklist(s, direction, authority, c)
    ensures |c| == 14 && Tells(c[0], DATA_USABLE, s.verdict != UNAVAILABLE)
    ensures c[1].name == OPEN_SETUP
            && c[1].status == (if s.verdict == UNAVAILABLE then NOT_EVALUATED
                               else if SetupIsOpen(s, direction) then MET else MISSING)
    ensures TellsStep(c[2], s, direction, HTF_BIAS) && TellsStep(c[3], s, direction, DOL_TARGET)
    ensures TellsStep(c[4], s, direction, LIQUIDITY_EVENT) && TellsStep(c[5], s, direction, DISPLACEMENT_STEP)
    ensures TellsStep(c[6], s, direction, MSS) && TellsStep(c[7], s, direction, PD_ARRAY)
    ensures TellsStep(c[8], s, direction, RETRACEMENT) && TellsStep(c[9], s, direction, LTF_CONFIRMATION)
    ensures Tells(c[10], RISK_CONDITION, RiskWithinLimits(s)) && Tells(c[11], NEWS_GATE, NewsGateOpen(s))
    ensures Tells(c[12], VERDICT_AUTHORITY, authority == "FULL")
    ensures Tells(c[13], VERDICT_CONDITION, VerdictAsWatched(s.verdict, direction))
  {
    GateIsTold(s, direction, authority, c);
    StepAt(s, direction, authority, c, 2, HTF_BIAS);
    StepAt(s, direction, authority, c, 3, DOL_TARGET);
    StepAt(s, direction, authority, c, 4, LIQUIDITY_EVENT);
    StepAt(s, direction, authority, c, 5, DISPLACEMENT_STEP);
    StepAt(s, direction, authority, c, 6, MSS);
    StepAt(s, direction, authority, c, 7, PD_ARRAY);
    StepAt(s, direction, authority, c, 8, RETRACEMENT);
    StepAt(s, direction, authority, c, 9, LTF_CONFIRMATION);
  }

  lemma StepAt(
      s: Snapshot, direction: Option<Direction>, authority: string, c: seq<Condition>, i: nat, name: StepName)
    requires IsChecklist(s, direction, authority, c) && i < |NAMES| && NAMES[i] == SEQUENCE_STEP(name)
    ensures TellsStep(c[i], s, direction, name)
  {
    StepIsTold(s, direction, authority, name);
  }

  lemma {:induction false} GateIsTold(
      s: Snapshot, direction: Option<Direction>, authority: string, c: seq<Condition>)
    requires IsChecklist(s, direction, authority, c)
    ensures |c| == 14 && Tells(c[0], DATA_USABLE, s.verdict != UNAVAILABLE)
    ensures c[1].name == OPEN_SETUP
            && c[1].status == (if s.verdict == UNAVAILABLE then NOT_EVALUATED
                               else if SetupIsOpen(s, direction) then MET else MISSING)
    ensures Tells(c[10], RISK_CONDITION, RiskWithinLimits(s)) && Tells(c[11], NEWS_GATE, NewsGateOpen(s))
    ensures Tells(c[12], VERDICT_AUTHORITY, authority == "FULL")
    ensures Tells(c[13], VERDICT_CONDITION, VerdictAsWatched(s.verdict, direction))
  {
    assert c[0].name == NAMES[0] && c[1].name == NAMES[1] && c[10].name == NAMES[10] && c[11].name == NAMES[11];
    assert c[12].name == NAMES[12] && c[13].name == NAMES[13];
  }

  /** The state of a checklist: what fires, what cannot be decided, and what only waits for authority or verdict. */
  lemma {:induction false} StateIsTold(s: Snapshot, direction: Option<Direction>, authority: string, c: seq<Condition>)
    requires IsChecklist(s, direction, authority, c)
    ensures var state := StateOf(s, direction, authority);
            && (state == FIRED <==> authority == "FULL" && VerdictAsWatched(s.verdict, direction))
            && (state == UNAVAILABLE_WATCH <==> s.verdict == UNAVAILABLE)
            && (state == GATES_PENDING
                <==> s.verdict != UNAVAILABLE && !(authority == "FULL" && VerdictAsWatched(s.verdict, direction))
                     && forall i :: 1 <= i < 12 ==> c[i].status == MET)
  {
    AllGatesMeet(s, direction, authority, c);
    GatesOf(s, direction, authority, c);
  }

  lemma {:induction false} GatesOf(s: Snapshot, direction: Option<Direction>, authority: string, c: seq<Condition>)
    requires IsChecklist(s, direction, authority, c)
    ensures GatesMetIn(c) <==> forall i :: 1 <= i < 12 ==> c[i].status == MET
  {
    forall i | 0 <= i < 14 ensures IsGate(c[i].name) <==> 1 <= i < 12 {
      assert c[i].name == NAMES[i];
    }
  }

  /**
   * Nothing is missing exactly when the watch fires and all conditions on setup, risk and news are met too: a
   * complete checklist always fires, a firing checklist need not be complete.
   */
  lemma {:induction false} CompleteIffFiresWithGates(
      s: Snapshot, direction: Option<Direction>, authority: string, conditions: seq<Condition>)
    requires IsChecklist(s, direction, authority, conditions)
    ensures NextRequired(conditions).None? <==> Fires(s, direction, authority) && GatesMet(s, direction, authority)
  {
    AllGatesMeet(s, direction, authority, conditions);
    if NextRequired(conditions).None? {
      assert conditions[0] in conditions && conditions[12] in conditions && conditions[13] in conditions;
      forall i | 0 <= i < |conditions| ensures conditions[i].status == MET {
        assert conditions[i] in conditions;
      }
    }
    if Fires(s, direction, authority) && GatesMetIn(conditions) {
      forall i | 0 <= i < |NAMES| ensures conditions[i].status == MET {
        assert IsGate(NAMES[i]) || i == 0 || i == 12 || i == 13;
      }
    }
  }

  /** While the gates are pending only the authority or the verdict is missing. */
  lemma {:induction false} PendingNeedsVerdict(
      s: Snapshot, direction: Option<Direction>, authority: string, conditions: seq<Condition>)
    requires IsChecklist(s, direction, authority, conditions)
    requires StateOf(s, direction, authority) == GATES_PENDING
    ensures NextRequired(conditions) == Some(VERDICT_AUTHORITY) || NextRequired(conditions) == Some(VERDICT_CONDITION)
  {
    AllGatesMeet(s, direction, authority, conditions);
    CompleteIffFiresWithGates(s, direction, authority, conditions);
    forall i | 0 <= i < 12 ensures conditions[i].status == MET {
      assert IsGate(NAMES[i]) || i == 0;
    }
  }

  /** What a reversal against the bias leaves: a verdict for long without an open setup, all other gates clear. */
  function ReversalSnapshot(now: int): Snapshot {
    Snapshot(
      "XAUUSD", now, LONG,
      Some(Evaluation(
        Some(Risk(true, [])), Some(News(CLEAR, None, None, false)), Some(Macro(NEUTRAL_MACRO, true)), {}, true)),
      Some(Run(Some(now), 300, [], None, {}, Some(Pipeline([], [], [], [], [], [], [], [])))))
  }

  /**
   * The text of a READY alert says that every mandatory condition is met. A reversal against the bias gives a verdict
   * without an open setup: with risk within limits and clear news the watch fires while OPEN_SETUP is missing.
   */
  lemma FiresWithoutGates() returns (s: Snapshot)
    ensures s.evaluation.Some? && s.run.Some? && Coherent(s) && s.Eligible() && s.Pipe().Some?
    ensures s.Macro().Some? && RiskOk(s) && NewsOk(s) && s.Current().None? && Fires(s, Some(BULLISH), "FULL")
    ensures forall c: seq<Condition> ::
              IsChecklist(s, Some(BULLISH), "FULL", c) ==> NextRequired(c) == Some(OPEN_SETUP)
  {
    s := ReversalSnapshot(0);
    forall c: seq<Condition> | IsChecklist(s, Some(BULLISH), "FULL", c) ensures NextRequired(c) == Some(OPEN_SETUP) {
      assert c[0].status == MET && c[1].status == MISSING && c[1] in c;
    }
  }
}
