/** The fixed weekly templates of the plan function, keyed by sport and
    goal. */
module PlanTemplates {
  /** One day of a weekly plan. */
  datatype DayPlan = DayPlan(day: string, session: string, focus: string)

  const WeekDays: seq<string> := ["Mon", "Tue", "Wed", "Thu", "Fri", "Sat", "Sun"]

  /** Seven days labelled Mon to Sun in order. */
  predicate IsWeek(plan: seq<DayPlan>) {
    |plan| == 7 && forall i :: 0 <= i < 7 ==> plan[i].day == WeekDays[i]
  }

  /** `TEMPLATES`: four sports with three goals each, one constant per
      week. */
  const RunningEndurance: seq<DayPlan> := [
    DayPlan("Mon", "Easy Run 5–6 km", "GA1"),
    DayPlan("Tue", "Mobility + Core 20'", "Stabilität"),
    DayPlan("Wed", "Intervals 6×400 m, 90\" TP", "Tempo"),
    DayPlan("Thu", "Rest / Walk 30'", "Recovery"),
    DayPlan("Fri", "Strength Core 30'", "Rumpf"),
    DayPlan("Sat", "Long Run 10–12 km", "Ausdauer"),
    DayPlan("Sun", "Rest + Stretch 15'", "Regeneration")
  ]

  const RunningTechnique: seq<DayPlan> := [
    DayPlan("Mon", "Drills: A-/B-Skips, Strides 6×80 m", "Lauftechnik"),
    DayPlan("Tue", "Easy Run 5 km", "GA1"),
    DayPlan("Wed", "Hill Repeats 8×30–45\"", "Kraft-Ausdauer"),
    DayPlan("Thu", "Mobility 20'", "Beweglichkeit"),
    DayPlan("Fri", "Plyo light + Core", "Ökonomie"),
    DayPlan("Sat", "Progressive Run 8 km", "Steigerung"),
    DayPlan("Sun", "Rest", "Regeneration")
  ]

  const RunningPrevention: seq<DayPlan> := [
    DayPlan("Mon", "Mobility + Balance 25'", "Prävention"),
    DayPlan("Tue", "Easy Run 4–5 km", "Locker"),
    DayPlan("Wed", "Core Antirotation 20'", "Stabilität"),
    DayPlan("Thu", "Rest", "Recovery"),
    DayPlan("Fri", "Strength legs leicht", "Beinachse"),
    DayPlan("Sat", "Long Run 8–10 km locker", "GA1"),
    DayPlan("Sun", "Rest + Stretch", "Regeneration")
  ]

  const StrengthPower: seq<DayPlan> := [
    DayPlan("Mon", "Lower: Squat 4×5, RDL 3×6, Core", "Maxkraft"),
    DayPlan("Tue", "Mobility 20'", "Beweglichkeit"),
    DayPlan("Wed", "Upper: Bench 4×5, Row 4×6", "Maxkraft"),
    DayPlan("Thu", "Rest / Walk", "Recovery"),
    DayPlan("Fri", "Plyo: Box Jumps 5×3, Medball 4×5", "Explosivität"),
    DayPlan("Sat", "Full Body 3×8", "Kraft"),
    DayPlan("Sun", "Rest + Stretch", "Regeneration")
  ]

  const StrengthHypertrophy: seq<DayPlan> := [
    DayPlan("Mon", "Push 4×8–12", "Volumen"),
    DayPlan("Tue", "Pull 4×8–12", "Volumen"),
    DayPlan("Wed", "Legs 4×8–12", "Volumen"),
    DayPlan("Thu", "Core + Mobility", "Stabilität"),
    DayPlan("Fri", "Full Body 3×10", "Hypertrophie"),
    DayPlan("Sat", "Cardio locker 20–30'", "GA1"),
    DayPlan("Sun", "Rest", "Regeneration")
  ]

  const StrengthPrevention: seq<DayPlan> := [
    DayPlan("Mon", "Prehab: Shoulder + Hip", "Prävention"),
    DayPlan("Tue", "Full Body 3×8 moderat", "Kraft"),
    DayPlan("Wed", "Mobility 25'", "Beweglichkeit"),
    DayPlan("Thu", "Core Antirotation 20'", "Stabilität"),
    DayPlan("Fri", "Glute + Hamstrings 3×12", "Beinachse"),
    DayPlan("Sat", "Cardio locker 20–30'", "GA1"),
    DayPlan("Sun", "Rest", "Regeneration")
  ]

  const FootballEndurance: seq<DayPlan> := [
    DayPlan("Mon", "Tempo Intervals 8×200 m", "Schnelligkeitsausdauer"),
    DayPlan("Tue", "Mobility + Core", "Stabilität"),
    DayPlan("Wed", "Small Sided Games 4×6'", "Matchfitness"),
    DayPlan("Thu", "Rest", "Recovery"),
    DayPlan("Fri", "Strength Lower 3×6", "Kraft"),
    DayPlan("Sat", "Endurance Run 30–40'", "GA1"),
    DayPlan("Sun", "Rest + Stretch", "Regeneration")
  ]

  const FootballTechnique: seq<DayPlan> := [
    DayPlan("Mon", "Ball mastery + Turns", "Technik"),
    DayPlan("Tue", "Speed Ladder + Accel 6×20 m", "Agility"),
    DayPlan("Wed", "SSG 3×8' + Passing", "Spielnahe Technik"),
    DayPlan("Thu", "Mobility + Core", "Stabilität"),
    DayPlan("Fri", "Finishing Drills", "Abschluss"),
    DayPlan("Sat", "Easy Run 20–30'", "GA1"),
    DayPlan("Sun", "Rest", "Regeneration")
  ]

  const FootballPrevention: seq<DayPlan> := [
    DayPlan("Mon", "Nordic Hamstrings + Copenhagen", "Prävention"),
    DayPlan("Tue", "Mobility Hips/Ankles", "Beweglichkeit"),
    DayPlan("Wed", "Core + Balance", "Stabilität"),
    DayPlan("Thu", "Rest / Walk", "Recovery"),
    DayPlan("Fri", "Light SSG 3×5'", "Belastung niedrig"),
    DayPlan("Sat", "Easy Run 20–25'", "GA1"),
    DayPlan("Sun", "Rest + Stretch", "Regeneration")
  ]

  const BasketballExplosiveness: seq<DayPlan> := [
    DayPlan("Mon", "Jump Drills: CMJ/Depth Jumps", "Plyometrics"),
    DayPlan("Tue", "Ballhandling + Pace", "Technik"),
    DayPlan("Wed", "Strength Lower 4×5", "Power"),
    DayPlan("Thu", "Mobility Ankles/Hips", "Beweglichkeit"),
    DayPlan("Fri", "Agility: Ladders + Closeouts", "Schnelligkeit"),
    DayPlan("Sat", "Shooting Volume 200", "Skill"),
    DayPlan("Sun", "Rest + Stretch", "Regeneration")
  ]

  const BasketballTechnique: seq<DayPlan> := [
    DayPlan("Mon", "Shooting Mechanics", "Form"),
    DayPlan("Tue", "Footwork + Finishing", "Technik"),
    DayPlan("Wed", "Strength Full Body 3×8", "Kraft"),
    DayPlan("Thu", "Mobility + Core", "Stabilität"),
    DayPlan("Fri", "Pick&Roll Reads", "Decision"),
    DayPlan("Sat", "Conditioning Intervals", "Ausdauer"),
    DayPlan("Sun", "Rest", "Regeneration")
  ]

  const BasketballPrevention: seq<DayPlan> := [
    DayPlan("Mon", "Knee/Ankle Prehab", "Prävention"),
    DayPlan("Tue", "Core Antirotation", "Stabilität"),
    DayPlan("Wed", "Strength light 3×10", "Kraft-Erhalt"),
    DayPlan("Thu", "Mobility Full Body", "Beweglichkeit"),
    DayPlan("Fri", "Landing Mechanics", "Technik"),
    DayPlan("Sat", "Shooting light 100", "Skill"),
    DayPlan("Sun", "Rest", "Regeneration")
  ]

  const RunningTemplates: map<string, seq<DayPlan>> := map[
    "Endurance" := RunningEndurance,
    "Technique" := RunningTechnique,
    "Prevention" := RunningPrevention
  ]

  const StrengthTemplates: map<string, seq<DayPlan>> := map[
    "Power" := StrengthPower,
    "Hypertrophy" := StrengthHypertrophy,
    "Prevention" := StrengthPrevention
  ]

  const FootballTemplates: map<string, seq<DayPlan>> := map[
    "Endurance" := FootballEndurance,
    "Technique" := FootballTechnique,
    "Prevention" := FootballPrevention
  ]

  const BasketballTemplates: map<string, seq<DayPlan>> := map[
    "Explosiveness" := BasketballExplosiveness,
    "Technique" := BasketballTechnique,
    "Prevention" := BasketballPrevention
  ]

  const Templates: map<string, map<string, seq<DayPlan>>> := map[
    "Running" := RunningTemplates,
    "Strength" := StrengthTemplates,
    "Football" := FootballTemplates,
    "Basketball" := BasketballTemplates
  ]

  /** Every goal of a sport maps to a full week. */
  predicate AllWeeks(goals: map<string, seq<DayPlan>>) {
    forall goal :: goal in goals ==> IsWeek(goals[goal])
  }

  lemma RunningWeeks()
    ensures AllWeeks(RunningTemplates)
  {
    assert IsWeek(RunningEndurance);
    assert IsWeek(RunningTechnique);
    assert IsWeek(RunningPrevention);
  }

  lemma StrengthWeeks()
    ensures AllWeeks(StrengthTemplates)
  {
    assert IsWeek(StrengthPower);
    assert IsWeek(StrengthHypertrophy);
    assert IsWeek(StrengthPrevention);
  }

  lemma FootballWeeks()
    ensures AllWeeks(FootballTemplates)
  {
    assert IsWeek(FootballEndurance);
    assert IsWeek(FootballTechnique);
    assert IsWeek(FootballPrevention);
  }

  lemma BasketballWeeks()
    ensures AllWeeks(BasketballTemplates)
  {
    assert IsWeek(BasketballExplosiveness);
    assert IsWeek(BasketballTechnique);
    assert IsWeek(BasketballPrevention);
  }


  /** Every template is a full week, Mon to Sun. */
  lemma TemplatesAreWeeks()
    ensures forall sport, goal :: sport in Templates && goal in Templates[sport] ==> IsWeek(Templates[sport][goal])
  {
    RunningWeeks();
    StrengthWeeks();
    FootballWeeks();
    BasketballWeeks();
    forall sport | sport in Templates
      ensures AllWeeks(Templates[sport])
    {
      if sport == "Running" {
      } else if sport == "Strength" {
      } else if sport == "Football" {
      } else {
        assert sport == "Basketball";
      }
    }
  }
}
