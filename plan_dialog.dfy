/** The sport and goal pickers of the plan generator dialog: the sport to
    goals table, the goal list offered for the current sport, and the rule
    that resets the goal when the sport changes. */
module PlanDialog {
  import opened PlanTemplates
  import opened PlanEngine

  /** `SPORT_GOALS`. */
  const SportGoals: map<string, seq<string>> := map[
    "Running" := ["Endurance", "Technique", "Prevention"],
    "Strength" := ["Power", "Hypertrophy", "Prevention"],
    "Football" := ["Endurance", "Technique", "Prevention"],
    "Basketball" := ["Explosiveness", "Technique", "Prevention"]]

  /** `availableGoals`: the goals of a known sport, Running's otherwise. */
  function AvailableGoals(sport: string): (goals: seq<string>)
    ensures sport in SportGoals ==> goals == SportGoals[sport]
    ensures sport !in SportGoals ==> goals == SportGoals["Running"]
    ensures |goals| == 3
  {
    if sport in SportGoals then SportGoals[sport] else SportGoals["Running"]
  }

  /** Every sport and goal the dialog can offer has its own template in the
      plan function, so the Running/Endurance fallback never fires for a
      choice made in the dialog. */
  lemma DialogChoicesHaveTemplates(sport: string, goal: string)
    requires sport in SportGoals && goal in SportGoals[sport]
    ensures sport in Templates && goal in Templates[sport]
    ensures GenerateBasePlan(sport, goal) == Templates[sport][goal]
  {
  }

  /** The dialog's state. */
  class PlanGeneratorDialog {
    var sport: string
    var goal: string

    /** The goal is one of those offered for a known sport. */
    predicate Consistent()
      reads this
    {
      sport in SportGoals && goal in SportGoals[sport]
    }

    /** The initial selection: Running, Endurance. */
    constructor ()
      ensures sport == "Running" && goal == "Endurance"
      ensures Consistent()
    {
      sport := "Running";
      goal := "Endurance";
    }

    /** The sport select's `onValueChange`: the sport is taken as chosen; for
        a known sport whose list lacks the current goal, the goal becomes that
        list's first entry; otherwise the goal stays. */
    method ChangeSport(value: string)
      modifies this
      ensures sport == value
      ensures value in SportGoals && old(goal) !in SportGoals[value] ==> goal == SportGoals[value][0]
      ensures !(value in SportGoals && old(goal) !in SportGoals[value]) ==> goal == old(goal)
      ensures value in SportGoals ==> Consistent()
    {
      sport := value;
      if value in SportGoals && goal !in SportGoals[value] {
        goal := SportGoals[value][0];
      }
    }

    /** The goal select's `onValueChange`. */
    method SelectGoal(value: string)
      modifies this
      ensures goal == value && sport == old(sport)
      ensures old(sport) in SportGoals && value in AvailableGoals(old(sport)) ==> Consistent()
    {
      goal := value;
    }
  }
}
