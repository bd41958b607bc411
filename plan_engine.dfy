/** The plan function's decision logic: the regime chosen from the metrics,
    the template lookup with its fallback, the keyword rules that adapt a
    template to the regime, and the explanation attached to the plan. */
module PlanEngine {
  import opened Wrappers
  import opened Numerics
  import opened Text
  import opened Sessions
  import opened Metrics
  import opened MetricsFacts
  import opened PlanTemplates

  /** The three regimes `decidePlanType` can return. */
  datatype PlanType = Performance | Deload | Regeneration

  const InjuryRiskLimit: real := 0.70
  const RecoveryLimit: int := 40

  /** `decidePlanType`: a high injury risk wins over a low recovery index;
      both thresholds are strict. */
  function DecidePlanType(injuryRisk: real, recoveryIndex: int): (t: PlanType)
    ensures t == Regeneration <==> injuryRisk > InjuryRiskLimit
    ensures t == Deload <==> injuryRisk <= InjuryRiskLimit && recoveryIndex < RecoveryLimit
    ensures t == Performance <==> injuryRisk <= InjuryRiskLimit && recoveryIndex >= RecoveryLimit
  {
    if injuryRisk > InjuryRiskLimit then Regeneration
    else if recoveryIndex < RecoveryLimit then Deload
    else Performance
  }

  /** `generateBasePlan`: the template of the pair, or Running/Endurance. */
  function GenerateBasePlan(sport: string, goal: string): (plan: seq<DayPlan>)
    ensures sport in Templates && goal in Templates[sport] ==> plan == Templates[sport][goal]
    ensures !(sport in Templates && goal in Templates[sport]) ==> plan == Templates["Running"]["Endurance"]
    ensures IsWeek(plan)
  {
    TemplatesAreWeeks();
    if sport in Templates && goal in Templates[sport] then Templates[sport][goal]
    else Templates["Running"]["Endurance"]
  }

  const RecoverySession: string := "Mobility + Core 20'"
  const RecoveryFocus: string := "Recovery"
  const EasyRunSession: string := "Easy Run 5–6 km"
  const EasyRunFocus: string := "Locker"
  const DeloadSuffix: string := " (\U{2212}30% Volumen)"

  /** The high-intensity keywords; matching is case-sensitive. */
  predicate HighIntensity(session: string) {
    Includes(session, "Intervals") || Includes(session, "Depth")
    || Includes(session, "SSG") || Includes(session, "Hill")
  }

  predicate LongRun(session: string) {
    Includes(session, "Long Run")
  }

  /** The body of the `plan.map` callback: a copy of the day whose session
      and focus are overwritten one rule after the other, so the Long Run
      rule sees the text the high-intensity rule left. */
  function AdaptDay(item: DayPlan, planType: PlanType): (r: DayPlan)
    ensures r.day == item.day
    ensures planType == Regeneration ==> !HighIntensity(r.session) && !LongRun(r.session)
    ensures planType == Regeneration && !HighIntensity(item.session) && !LongRun(item.session) ==> r == item
    ensures planType == Deload ==> r.session == item.session + DeloadSuffix && r.focus == item.focus
    ensures planType == Performance ==> r == item
  {
    RecoverySessionIsCalm();
    EasyRunSessionIsCalm();
    match planType
    case Regeneration =>
      var sess := if HighIntensity(item.session) then item.(session := RecoverySession, focus := RecoveryFocus) else item;
      if LongRun(sess.session) then sess.(session := EasyRunSession, focus := EasyRunFocus) else sess
    case Deload => item.(session := item.session + DeloadSuffix)
    case Performance => item
  }

  /** A text without the capitals I, D, S, H and L holds no keyword. */
  lemma CalmWithoutCapitals(s: string)
    requires forall c :: c in s ==> c != 'I' && c != 'D' && c != 'S' && c != 'H' && c != 'L'
    ensures !HighIntensity(s) && !LongRun(s)
  {
    NotIncludedWithoutFirstChar(s, "Intervals");
    NotIncludedWithoutFirstChar(s, "Depth");
    NotIncludedWithoutFirstChar(s, "SSG");
    NotIncludedWithoutFirstChar(s, "Hill");
    NotIncludedWithoutFirstChar(s, "Long Run");
  }

  /** Neither replacement text holds a keyword of either rule. */
  lemma RecoverySessionIsCalm()
    ensures !HighIntensity(RecoverySession) && !LongRun(RecoverySession)
  {
    CalmWithoutCapitals(RecoverySession);
  }

  lemma EasyRunSessionIsCalm()
    ensures !HighIntensity(EasyRunSession) && !LongRun(EasyRunSession)
  {
    CalmWithoutCapitals(EasyRunSession);
  }

  /** The outcome of the Regeneration rules for one day: a high-intensity day
      becomes the mobility session even when it also mentions a Long Run; a
      Long Run day becomes an easy run; any other day is kept. */
  lemma RegenerationDay(item: DayPlan)
    ensures HighIntensity(item.session) ==>
      AdaptDay(item, Regeneration) == DayPlan(item.day, RecoverySession, RecoveryFocus)
    ensures !HighIntensity(item.session) && LongRun(item.session) ==>
      AdaptDay(item, Regeneration) == DayPlan(item.day, EasyRunSession, EasyRunFocus)
    ensures !HighIntensity(item.session) && !LongRun(item.session) ==>
      AdaptDay(item, Regeneration) == item
  {
    RecoverySessionIsCalm();
  }

  /** `adaptPlanForState`: a new list, day by day. */
  function AdaptPlanForState(plan: seq<DayPlan>, planType: PlanType): (r: seq<DayPlan>)
    ensures |r| == |plan|
    ensures forall i :: 0 <= i < |plan| ==> r[i] == AdaptDay(plan[i], planType)
    ensures forall i :: 0 <= i < |plan| ==> r[i].day == plan[i].day
  {
    seq(|plan|, i requires 0 <= i < |plan| => AdaptDay(plan[i], planType))
  }

  /** Performance keeps the plan as it is. */
  lemma PerformanceKeepsPlan(plan: seq<DayPlan>)
    ensures AdaptPlanForState(plan, Performance) == plan
  {
  }

  /** Deload appends the volume note to every session and keeps the focus. */
  lemma DeloadAppendsNote(plan: seq<DayPlan>)
    ensures forall i :: 0 <= i < |plan| ==>
      && AdaptPlanForState(plan, Deload)[i].session == plan[i].session + DeloadSuffix
      && AdaptPlanForState(plan, Deload)[i].focus == plan[i].focus
  {
  }

  /** After Regeneration no day of the week holds a high-intensity keyword
      or a Long Run. */
  lemma RegenerationIsCalm(plan: seq<DayPlan>)
    ensures forall i :: 0 <= i < |plan| ==>
      !HighIntensity(AdaptPlanForState(plan, Regeneration)[i].session)
      && !LongRun(AdaptPlanForState(plan, Regeneration)[i].session)
  {
    RecoverySessionIsCalm();
    EasyRunSessionIsCalm();
  }

  /** An adapted template is still a full week, Mon to Sun. */
  lemma AdaptedIsWeek(plan: seq<DayPlan>, planType: PlanType)
    requires IsWeek(plan)
    ensures IsWeek(AdaptPlanForState(plan, planType))
  {
  }

  const SmallSidedGames: string := "Small Sided Games 4×6'"

  /** The spelled-out football drill holds no 'SSG': neither capital S in it
      is followed by another S. The search is stepped back one position at a
      time, in two halves. */
  lemma NoSsgFromEleven()
    ensures !OccursFrom(SmallSidedGames, "SSG", 11)
  {
    assert !OccursFrom(SmallSidedGames, "SSG", 19);
    assert !OccursFrom(SmallSidedGames, "SSG", 18);
    assert !OccursFrom(SmallSidedGames, "SSG", 17);
    assert !OccursFrom(SmallSidedGames, "SSG", 16);
    assert !OccursFrom(SmallSidedGames, "SSG", 15);
    assert !OccursFrom(SmallSidedGames, "SSG", 14);
    assert !OccursFrom(SmallSidedGames, "SSG", 13);
    assert !OccursFrom(SmallSidedGames, "SSG", 12);
    assert !OccursFrom(SmallSidedGames, "SSG", 11);
  }

  lemma NoSsgInSmallSidedGames()
    ensures !Includes(SmallSidedGames, "SSG")
  {
    NoSsgFromEleven();
    assert !OccursFrom(SmallSidedGames, "SSG", 10);
    assert !OccursFrom(SmallSidedGames, "SSG", 9);
    assert !OccursFrom(SmallSidedGames, "SSG", 8);
    assert !OccursFrom(SmallSidedGames, "SSG", 7);
    assert !OccursFrom(SmallSidedGames, "SSG", 6);
    assert !OccursFrom(SmallSidedGames, "SSG", 5);
    assert !OccursFrom(SmallSidedGames, "SSG", 4);
    assert !OccursFrom(SmallSidedGames, "SSG", 3);
    assert !OccursFrom(SmallSidedGames, "SSG", 2);
    assert !OccursFrom(SmallSidedGames, "SSG", 1);
  }

  /** A text whose only keyword capital is S, and which holds no 'SSG', holds
      no keyword. */
  lemma CalmWithoutSsg(s: string)
    requires forall c :: c in s ==> c != 'I' && c != 'D' && c != 'H' && c != 'L'
    requires !Includes(s, "SSG")
    ensures !HighIntensity(s) && !LongRun(s)
  {
    NotIncludedWithoutFirstChar(s, "Intervals");
    NotIncludedWithoutFirstChar(s, "Depth");
    NotIncludedWithoutFirstChar(s, "Hill");
    NotIncludedWithoutFirstChar(s, "Long Run");
  }

  /** The football small-sided games, spelled out, contain none of the
      keywords (no 'SSG' in particular), so they trigger no Regeneration
      rule and are kept. */
  lemma SmallSidedGamesKept(item: DayPlan)
    requires item.session == SmallSidedGames
    ensures AdaptDay(item, Regeneration) == item
  {
    NoSsgInSmallSidedGames();
    CalmWithoutSsg(SmallSidedGames);
    RegenerationDay(item);
  }

  const LowerCaseKeywords: string := "long run, ssg"

  /** The keyword match is case-sensitive: a long run and small-sided
      games named in lower case hold no keyword. */
  lemma LowerCaseKeywordsCalm()
    ensures !HighIntensity(LowerCaseKeywords) && !LongRun(LowerCaseKeywords)
  {
    CalmWithoutCapitals(LowerCaseKeywords);
  }

  /** A day with that lower-case session is kept by Regeneration. */
  lemma LowerCaseKeywordsKept(item: DayPlan)
    requires item.session == LowerCaseKeywords
    ensures AdaptDay(item, Regeneration) == item
  {
    LowerCaseKeywordsCalm();
  }

  lemma FootballEnduranceWednesday()
    ensures Templates["Football"]["Endurance"][2] == DayPlan("Wed", SmallSidedGames, "Matchfitness")
  {
  }

  /** What `explainReason` reports per regime: the injury risk as printed
      with two decimals, and the recovery index and 7-day load as whole
      numbers. The wording of each message is fixed by the regime. */
  datatype Reason =
    | ElevatedInjuryRisk(injuryRisk: real, recoveryIndex: int, tl7: int)
    | LowRecovery(recoveryIndex: int, tl7: int)
    | Stable(injuryRisk: real, recoveryIndex: int, tl7: int)

  function ExplainReason(m: Metrics, planType: PlanType): (r: Reason)
    ensures planType == Regeneration <==> r.ElevatedInjuryRisk?
    ensures planType == Deload <==> r.LowRecovery?
    ensures planType == Performance <==> r.Stable?
    ensures r.recoveryIndex == m.recoveryIndex && r.tl7 == m.tl7d
    ensures !r.LowRecovery? ==> HasDecimals(r.injuryRisk, TwoDecimals) && -0.005 <= r.injuryRisk - m.injuryRisk <= 0.005
  {
    var ir := RoundTo(m.injuryRisk, TwoDecimals);
    var ri := Round(m.recoveryIndex as real);
    var tl := Round(m.tl7d as real);
    RoundOfInteger(m.recoveryIndex);
    RoundOfInteger(m.tl7d);
    match planType
    case Regeneration => ElevatedInjuryRisk(ir, ri, tl)
    case Deload => LowRecovery(ri, tl)
    case Performance => Stable(ir, ri, tl)
  }

  /** The plan function's response body. */
  datatype PlanResponse = PlanResponse(planType: PlanType, reason: Reason, weekPlan: seq<DayPlan>, metrics: Metrics)

  /** How `generatePlan` composes its response: the metrics are the plan
      record of the aggregation, and the regime, the explanation and the
      week all derive from that same record. */
  predicate IsPlanFor(r: PlanResponse, sport: string, goal: string, sessions: seq<Session>, today: string, toDate: DateParser) {
    && r.metrics == PlanOutput(Aggregate(sessions, today, toDate), today)
    && r.planType == DecidePlanType(r.metrics.injuryRisk, r.metrics.recoveryIndex)
    && r.reason == ExplainReason(r.metrics, r.planType)
    && r.weekPlan == AdaptPlanForState(GenerateBasePlan(sport, goal), r.planType)
  }

  method GeneratePlan(sport: string, goal: string, sessions: seq<Session>, today: string, toDate: DateParser)
    returns (r: PlanResponse)
    ensures IsPlanFor(r, sport, goal, sessions, today, toDate)
    ensures IsWeek(r.weekPlan)
  {
    var raw := AggregateMetrics(sessions, today, toDate);
    var metrics := PlanOutput(raw, today);
    var planType := DecidePlanType(metrics.injuryRisk, metrics.recoveryIndex);
    var base := GenerateBasePlan(sport, goal);
    var plan := AdaptPlanForState(base, planType);
    AdaptedIsWeek(base, planType);
    r := PlanResponse(planType, ExplainReason(metrics, planType), plan, metrics);
  }

  /** The regime as a function of the unrounded aggregation: the risk is
      compared unrounded, the recovery index after rounding, so a recovery
      below 39.5 already means Deload. */
  lemma RegimeOfAggregate(m: RawMetrics, today: string)
    ensures var t := DecidePlanType(PlanOutput(m, today).injuryRisk, PlanOutput(m, today).recoveryIndex);
      && (t == Regeneration <==> m.injuryRisk > 0.70)
      && (t == Deload <==> m.injuryRisk <= 0.70 && m.recoveryIndex < 39.5)
      && (t == Performance <==> m.injuryRisk <= 0.70 && m.recoveryIndex >= 39.5)
  {
    var r := PlanOutput(m, today).recoveryIndex;
    assert r < 40 <==> m.recoveryIndex < 39.5;
  }

  /** The worked example as a plan request for Running/Endurance: risk
      0.397 and recovery index 74 give Performance, so the template comes
      back unmodified. */
  lemma WorkedExamplePlan(today: string, toDate: DateParser)
    requires toDate(today).Some?
    ensures var m := PlanOutput(Aggregate([Session(today, "Running", 60.0, 8.0, 5.0, 6.0)], today, toDate), today);
      var t := DecidePlanType(m.injuryRisk, m.recoveryIndex);
      && t == Performance
      && AdaptPlanForState(GenerateBasePlan("Running", "Endurance"), t) == RunningEndurance
  {
    WorkedExample(today, toDate);
    PerformanceKeepsPlan(RunningEndurance);
  }

  /** A request to the plan function: `None` stands for a member that is
      missing, null or (for `sessions`) not an array. */
  datatype PlanRequest = PlanRequest(today: Option<string>, sport: Option<string>, goal: Option<string>, sessions: Option<seq<SessionInput>>)

  const MissingPlanFields: string := "Missing required fields: today, sport, goal, sessions"

  predicate PlanRequestComplete(req: PlanRequest) {
    TruthyText(req.today) && TruthyText(req.sport) && TruthyText(req.goal) && req.sessions.Some?
  }

  /** The handler body without HTTP: field checks, the session validation
      loop with its defaults, then `generatePlan`. */
  method HandlePlan(req: PlanRequest, toDate: DateParser) returns (r: Result<PlanResponse, string>)
    ensures !PlanRequestComplete(req) ==> r == Failure(MissingPlanFields)
    ensures PlanRequestComplete(req) && ValidateSessions(req.sessions.value).Failure? ==> r == Failure(InvalidSessionError)
    ensures r.Success? <==> PlanRequestComplete(req) && ValidateSessions(req.sessions.value).Success?
    ensures r.Success? ==> IsPlanFor(r.value, req.sport.value, req.goal.value, ValidateSessions(req.sessions.value).value, req.today.value, toDate)
  {
    if !PlanRequestComplete(req) {
      return Failure(MissingPlanFields);
    }
    var cleaned := ApplyDefaults(req.sessions.value);
    if cleaned.Failure? {
      return Failure(cleaned.error);
    }
    var plan := GeneratePlan(req.sport.value, req.goal.value, cleaned.value, req.today.value, toDate);
    r := Success(plan);
  }
}
