/** `aggregateMetrics`: the trailing-window reduction of a session list to
    load, recovery and risk metrics, shared by the analyze and plan
    functions, with the two output records they build from it. */
module Metrics {
  import opened Wrappers
  import opened Numerics
  import opened Sessions

  /** `new Date(s).getTime()`: milliseconds since the epoch, or None for an
      Invalid Date. Supplied by the caller. */
  type DateParser = string -> Option<int>

  const DayMs: int := 24 * 60 * 60 * 1000

  /** The heuristic constants of the recovery and risk model. */
  const TlMax7d: real := 3000.0
  const SleepReference: real := 8.0
  const SleepFactorCap: real := 1.25
  const EmptySleep: real := 7.0
  const EmptySoreness: real := 0.0
  const EmptyRpe: real := 5.0

  /** `d > win && d <= td` with `win = td - days * 24h`. Comparisons with an
      Invalid Date are false, so such a session or reference date puts
      nothing in any window. */
  predicate InWindow(d: Option<int>, td: Option<int>, days: int) {
    d.Some? && td.Some? && td.value - days * DayMs < d.value <= td.value
  }

  lemma WeekWithinFortnight(d: Option<int>, td: Option<int>)
    ensures InWindow(d, td, 7) ==> InWindow(d, td, 14)
  {
  }

  /** The loop accumulators `tl7`, `tl14`, `count7`, the sleep and soreness
      sums and the sum of `rpeList7`. */
  datatype Sums = Sums(tl7: real, tl14: real, count7: nat, sleep7: real, soreness7: real, rpe7: real) {
    function Plus(o: Sums): Sums {
      Sums(tl7 + o.tl7, tl14 + o.tl14, count7 + o.count7, sleep7 + o.sleep7,
           soreness7 + o.soreness7, rpe7 + o.rpe7)
    }
  }

  const NoSums: Sums := Sums(0.0, 0.0, 0, 0.0, 0.0, 0.0)

  /** `s.sleep_hours || 7.0`: a logged 0 counts as 7 hours. */
  function SleepOrDefault(s: Session): (r: real)
    ensures r != 0.0
  {
    if s.sleepHours != 0.0 then s.sleepHours else EmptySleep
  }

  /** What one session adds to the accumulators. The soreness term is
      `s.soreness_1_10 || 0.0`, which is the soreness itself. */
  function Contribution(s: Session, toDate: DateParser, td: Option<int>): Sums {
    var d := toDate(s.date);
    var tl := TrainingLoad(s);
    var in7 := InWindow(d, td, 7);
    Sums(if in7 then tl else 0.0,
         if InWindow(d, td, 14) then tl else 0.0,
         if in7 then 1 else 0,
         if in7 then SleepOrDefault(s) else 0.0,
         if in7 then s.soreness else 0.0,
         if in7 then s.rpe else 0.0)
  }

  /** The accumulators after the loop has visited every session of ss; at
      most every session is counted. */
  function Accumulate(ss: seq<Session>, toDate: DateParser, td: Option<int>): (r: Sums)
    ensures r.count7 <= |ss|
    decreases |ss|
  {
    if ss == [] then NoSums
    else Accumulate(ss[..|ss| - 1], toDate, td).Plus(Contribution(ss[|ss| - 1], toDate, td))
  }

  /** `rpeList7.reduce((a, b) => a + b, 0)`. */
  function SeqSum(xs: seq<real>): real
    decreases |xs|
  {
    if xs == [] then 0.0 else SeqSum(xs[..|xs| - 1]) + xs[|xs| - 1]
  }

  /** The unrounded values `aggregateMetrics` computes before building its
      output record. */
  datatype RawMetrics = RawMetrics(
    tl7: real, tl14: real, tl7Norm: real,
    avgSleep7: real, avgSoreness7: real, avgRpe7: real,
    recoveryIndex: real, injuryRisk: real)

  predicate InRange(m: RawMetrics) {
    && 0.0 <= m.tl7Norm <= 1.0
    && 0.0 <= m.recoveryIndex <= 100.0
    && 0.0 <= m.injuryRisk <= 1.0
  }

  /** The computation after the loop: averages with their fallbacks for an
      empty week, then the clamped normalisation, recovery and risk formulas. */
  function Finish(a: Sums): (m: RawMetrics)
    ensures InRange(m)
    ensures m.tl7 == a.tl7 && m.tl14 == a.tl14
    ensures a.count7 == 0 ==> m.avgSleep7 == EmptySleep && m.avgSoreness7 == EmptySoreness && m.avgRpe7 == EmptyRpe
    ensures a.count7 > 0 ==> && m.avgSleep7 == a.sleep7 / (a.count7 as real)
                             && m.avgSoreness7 == a.soreness7 / (a.count7 as real)
                             && m.avgRpe7 == a.rpe7 / (a.count7 as real)
  {
    var n := a.count7 as real;
    var avgSleep7 := if a.count7 > 0 then a.sleep7 / n else EmptySleep;
    var avgSoreness7 := if a.count7 > 0 then a.soreness7 / n else EmptySoreness;
    var avgRpe7 := if a.count7 > 0 then a.rpe7 / n else EmptyRpe;
    var tl7Norm := Clamp(a.tl7 / TlMax7d, 0.0, 1.0);
    var sleepFactor := Clamp(avgSleep7 / SleepReference, 0.0, SleepFactorCap);
    var sorenessFactor := Clamp(1.0 - avgSoreness7 / 10.0, 0.0, 1.0);
    var recoveryIndex := Clamp(100.0 * (0.65 * (1.0 - tl7Norm) + 0.25 * sleepFactor + 0.10 * sorenessFactor), 0.0, 100.0);
    var injuryRisk := Clamp(0.45 * tl7Norm + 0.20 * (avgRpe7 / 10.0)
                            + 0.20 * (1.0 - Clamp(avgSleep7 / SleepReference, 0.0, 1.0))
                            + 0.15 * (avgSoreness7 / 10.0), 0.0, 1.0);
    RawMetrics(a.tl7, a.tl14, tl7Norm, avgSleep7, avgSoreness7, avgRpe7, recoveryIndex, injuryRisk)
  }

  /** The reference definition of `aggregateMetrics(sessions, today)`. */
  function Aggregate(sessions: seq<Session>, today: string, toDate: DateParser): RawMetrics {
    Finish(Accumulate(sessions, toDate, toDate(today)))
  }

  /** One more session extends the accumulated totals by its contribution. */
  lemma AccumulatePrefix(ss: seq<Session>, i: nat, toDate: DateParser, td: Option<int>)
    requires i < |ss|
    ensures Accumulate(ss[..i + 1], toDate, td) == Accumulate(ss[..i], toDate, td).Plus(Contribution(ss[i], toDate, td))
  {
    assert ss[..i + 1][..i] == ss[..i];
  }

  lemma SeqSumSnoc(xs: seq<real>, x: real)
    ensures SeqSum(xs + [x]) == SeqSum(xs) + x
  {
    assert (xs + [x])[..|xs|] == xs;
  }

  /** The body of the accumulating loop: the totals after visiting one
      session grow by exactly its contribution. */
  method Visit(s: Session, toDate: DateParser, td: Option<int>,
               tl7: real, tl14: real, count7: nat, sleep7: real, soreness7: real, rpeList7: seq<real>)
    returns (tl7': real, tl14': real, count7': nat, sleep7': real, soreness7': real, rpeList7': seq<real>)
    requires |rpeList7| == count7
    ensures |rpeList7'| == count7'
    ensures Sums(tl7', tl14', count7', sleep7', soreness7', SeqSum(rpeList7'))
            == Sums(tl7, tl14, count7, sleep7, soreness7, SeqSum(rpeList7)).Plus(Contribution(s, toDate, td))
  {
    tl7', tl14', count7', sleep7', soreness7', rpeList7' := tl7, tl14, count7, sleep7, soreness7, rpeList7;
    var d := toDate(s.date);
    var tl := TrainingLoad(s);
    if InWindow(d, td, 14) {
      tl14' := tl14' + tl;
    }
    if InWindow(d, td, 7) {
      tl7' := tl7' + tl;
      count7' := count7' + 1;
      sleep7' := sleep7' + SleepOrDefault(s);
      soreness7' := soreness7' + s.soreness;
      SeqSumSnoc(rpeList7', s.rpe);
      rpeList7' := rpeList7' + [s.rpe];
    }
  }

  /** The accumulating loop of `aggregateMetrics`: the running totals and
      the list of RPE values of the sessions in the 7-day window. */
  method SumWindows(sessions: seq<Session>, toDate: DateParser, td: Option<int>)
    returns (tl7: real, tl14: real, count7: nat, sleep7: real, soreness7: real, rpeList7: seq<real>)
    ensures |rpeList7| == count7
    ensures Sums(tl7, tl14, count7, sleep7, soreness7, SeqSum(rpeList7)) == Accumulate(sessions, toDate, td)
  {
    tl7, tl14, count7, sleep7, soreness7 := 0.0, 0.0, 0, 0.0, 0.0;
    rpeList7 := [];
    var i := 0;
    while i < |sessions|
      invariant 0 <= i <= |sessions|
      invariant |rpeList7| == count7
      invariant Sums(tl7, tl14, count7, sleep7, soreness7, SeqSum(rpeList7)) == Accumulate(sessions[..i], toDate, td)
    {
      AccumulatePrefix(sessions, i, toDate, td);
      tl7, tl14, count7, sleep7, soreness7, rpeList7 := Visit(sessions[i], toDate, td, tl7, tl14, count7, sleep7, soreness7, rpeList7);
      i := i + 1;
    }
    assert sessions[..i] == sessions;
  }

  /** `aggregateMetrics`: the loop, then the averages, factors and indices
      computed from its totals. */
  method AggregateMetrics(sessions: seq<Session>, today: string, toDate: DateParser) returns (m: RawMetrics)
    ensures m == Aggregate(sessions, today, toDate)
  {
    var tl7, tl14, count7, avgSleep7, avgSoreness7, rpeList7 := SumWindows(sessions, toDate, toDate(today));
    avgSleep7 := if count7 > 0 then avgSleep7 / count7 as real else EmptySleep;
    avgSoreness7 := if count7 > 0 then avgSoreness7 / count7 as real else EmptySoreness;
    var avgRpe7 := if |rpeList7| > 0 then SeqSum(rpeList7) / |rpeList7| as real else EmptyRpe;
    var tl7Norm := Clamp(tl7 / TlMax7d, 0.0, 1.0);
    var sleepFactor := Clamp(avgSleep7 / SleepReference, 0.0, SleepFactorCap);
    var sorenessFactor := Clamp(1.0 - avgSoreness7 / 10.0, 0.0, 1.0);
    var recoveryIndex := Clamp(100.0 * (0.65 * (1.0 - tl7Norm) + 0.25 * sleepFactor + 0.10 * sorenessFactor), 0.0, 100.0);
    var injuryRisk := Clamp(0.45 * tl7Norm + 0.20 * (avgRpe7 / 10.0)
                            + 0.20 * (1.0 - Clamp(avgSleep7 / SleepReference, 0.0, 1.0))
                            + 0.15 * (avgSoreness7 / 10.0), 0.0, 1.0);
    m := RawMetrics(tl7, tl14, tl7Norm, avgSleep7, avgSoreness7, avgRpe7, recoveryIndex, injuryRisk);
  }

  /** The metrics record both functions return (field names `tl_7d`,
      `tl_14d`, `tl7_norm`, `avg_sleep7`, `avg_soreness7`, `avg_rpe7`,
      `recovery_index`, `injury_risk`, `today`). */
  datatype Metrics = Metrics(
    tl7d: int, tl14d: int, tl7Norm: real,
    avgSleep7: real, avgSoreness7: real, avgRpe7: real,
    recoveryIndex: int, injuryRisk: real, today: string)

  /** The analyze function's record: loads and recovery rounded to whole
      numbers, the normalised load and the risk to 3 decimals, the averages
      to 1 decimal, the reference date echoed. */
  function AnalyzeOutput(m: RawMetrics, today: string): (r: Metrics)
    ensures r.today == today
    ensures m.tl7 - 0.5 < r.tl7d as real <= m.tl7 + 0.5
    ensures m.tl14 - 0.5 < r.tl14d as real <= m.tl14 + 0.5
    ensures m.recoveryIndex - 0.5 < r.recoveryIndex as real <= m.recoveryIndex + 0.5
    ensures HasDecimals(r.tl7Norm, ThreeDecimals) && -0.0005 <= r.tl7Norm - m.tl7Norm <= 0.0005
    ensures HasDecimals(r.injuryRisk, ThreeDecimals) && -0.0005 <= r.injuryRisk - m.injuryRisk <= 0.0005
    ensures HasDecimals(r.avgSleep7, OneDecimal) && -0.05 <= r.avgSleep7 - m.avgSleep7 <= 0.05
    ensures HasDecimals(r.avgSoreness7, OneDecimal) && -0.05 <= r.avgSoreness7 - m.avgSoreness7 <= 0.05
    ensures HasDecimals(r.avgRpe7, OneDecimal) && -0.05 <= r.avgRpe7 - m.avgRpe7 <= 0.05
  {
    Metrics(Round(m.tl7), Round(m.tl14), RoundTo(m.tl7Norm, ThreeDecimals),
            RoundTo(m.avgSleep7, OneDecimal), RoundTo(m.avgSoreness7, OneDecimal), RoundTo(m.avgRpe7, OneDecimal),
            Round(m.recoveryIndex), RoundTo(m.injuryRisk, ThreeDecimals), today)
  }

  /** The plan function's record: only the two loads and the recovery index
      are rounded; the normalised load, the averages and the injury risk are
      returned exactly as computed. */
  function PlanOutput(m: RawMetrics, today: string): (r: Metrics)
    ensures r.today == today
    ensures m.tl7 - 0.5 < r.tl7d as real <= m.tl7 + 0.5
    ensures m.tl14 - 0.5 < r.tl14d as real <= m.tl14 + 0.5
    ensures m.recoveryIndex - 0.5 < r.recoveryIndex as real <= m.recoveryIndex + 0.5
    ensures r.tl7Norm == m.tl7Norm && r.injuryRisk == m.injuryRisk
    ensures r.avgSleep7 == m.avgSleep7 && r.avgSoreness7 == m.avgSoreness7 && r.avgRpe7 == m.avgRpe7
  {
    Metrics(Round(m.tl7), Round(m.tl14), m.tl7Norm, m.avgSleep7, m.avgSoreness7, m.avgRpe7,
            Round(m.recoveryIndex), m.injuryRisk, today)
  }
}
