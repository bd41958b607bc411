/** The improvement plan page: the fixed 7-day plans per sport and goal,
    the plan shown for the current selection, and the completed-day
    checklist. */
module ImprovementPlan {
  datatype Intensity = Low | Medium | High

  /** One card of a plan. */
  datatype PlanDay = PlanDay(day: string, focus: string, session: string, duration: string, intensity: Intensity)

  /** `plans`: five plans, keyed by lower-case sport and goal. */
  const Plans: map<string, map<string, seq<PlanDay>>> := map[
    "running" := map[
      "endurance" := [
        PlanDay("Monday", "GA1 Base", "Easy Run 5 km", "35 min", Low),
        PlanDay("Tuesday", "Recovery", "Core Training + Mobility", "30 min", Low),
        PlanDay("Wednesday", "Tempo", "Intervals 6×400m @ 5K pace", "45 min", High),
        PlanDay("Thursday", "Active Recovery", "Easy Run 3 km + Stretching", "25 min", Low),
        PlanDay("Friday", "Stability", "Strength Training (Lower Body)", "40 min", Medium),
        PlanDay("Saturday", "Quality", "Threshold Run 8 km", "50 min", High),
        PlanDay("Sunday", "Endurance", "Long Run 12 km", "70 min", Medium)
      ],
      "power" := [
        PlanDay("Monday", "Explosive Power", "Hill Sprints 8×30s", "40 min", High),
        PlanDay("Tuesday", "Recovery", "Easy Run 4 km", "30 min", Low),
        PlanDay("Wednesday", "Strength", "Plyometric Training", "45 min", High),
        PlanDay("Thursday", "Technique", "Running Drills + Strides", "35 min", Medium),
        PlanDay("Friday", "Rest", "Complete Rest or Light Yoga", "20 min", Low),
        PlanDay("Saturday", "Speed", "200m Repeats × 10", "50 min", High),
        PlanDay("Sunday", "Endurance", "Easy Long Run 10 km", "60 min", Low)
      ]
    ],
    "strength" := map[
      "power" := [
        PlanDay("Monday", "Lower Body Power", "Squats 5×5, Deadlifts 3×5", "60 min", High),
        PlanDay("Tuesday", "Active Recovery", "Mobility + Light Cardio", "30 min", Low),
        PlanDay("Wednesday", "Upper Body Power", "Bench Press 5×5, Rows 4×6", "60 min", High),
        PlanDay("Thursday", "Core & Stability", "Planks, Anti-Rotation Work", "35 min", Medium),
        PlanDay("Friday", "Explosive", "Olympic Lifts: Clean & Jerk", "50 min", High),
        PlanDay("Saturday", "Hypertrophy", "Accessory Work (8-12 reps)", "45 min", Medium),
        PlanDay("Sunday", "Recovery", "Stretching + Foam Rolling", "25 min", Low)
      ]
    ],
    "basketball" := map[
      "endurance" := [
        PlanDay("Monday", "Jump Training", "Box Jumps + Vertical Leap Drills", "45 min", High),
        PlanDay("Tuesday", "Court Conditioning", "Suicide Runs + Defensive Slides", "40 min", High),
        PlanDay("Wednesday", "Strength", "Lower Body (Squats, Lunges)", "50 min", Medium),
        PlanDay("Thursday", "Agility", "Cone Drills + Ladder Work", "35 min", Medium),
        PlanDay("Friday", "Shooting Practice", "3-Point Shooting + Free Throws", "60 min", Low),
        PlanDay("Saturday", "Scrimmage", "Full-Court 5v5 Game", "60 min", High),
        PlanDay("Sunday", "Recovery", "Mobility + Core Stability", "30 min", Low)
      ]
    ],
    "football" := map[
      "endurance" := [
        PlanDay("Monday", "Sprint Work", "30m Sprints × 10", "45 min", High),
        PlanDay("Tuesday", "Strength", "Lower Body Strength", "55 min", High),
        PlanDay("Wednesday", "Ball Skills", "Dribbling + Passing Drills", "50 min", Medium),
        PlanDay("Thursday", "Conditioning", "Interval Runs (field lengths)", "40 min", High),
        PlanDay("Friday", "Recovery", "Light Jog + Stretching", "25 min", Low),
        PlanDay("Saturday", "Match Practice", "11v11 Scrimmage", "90 min", High),
        PlanDay("Sunday", "Regeneration", "Yoga + Foam Rolling", "30 min", Low)
      ]
    ]
  ]

  /** Every plan in the table has seven cards. */
  lemma PlansHaveSevenDays()
    ensures forall sport, goal :: sport in Plans && goal in Plans[sport] ==> |Plans[sport][goal]| == 7
  {
  }

  /** `currentPlan`: the plan of the pair, or running/endurance. */
  function CurrentPlan(sport: string, goal: string): (plan: seq<PlanDay>)
    ensures sport in Plans && goal in Plans[sport] ==> plan == Plans[sport][goal]
    ensures !(sport in Plans && goal in Plans[sport]) ==> plan == Plans["running"]["endurance"]
    ensures |plan| == 7
  {
    PlansHaveSevenDays();
    if sport in Plans && goal in Plans[sport] then Plans[sport][goal] else Plans["running"]["endurance"]
  }

  /** There is no strength/endurance plan: that choice shows running/endurance. */
  lemma StrengthEnduranceFallsBack()
    ensures CurrentPlan("strength", "endurance") == Plans["running"]["endurance"]
  {
  }

  /** `prev.filter(d => d !== i)`. */
  function Without(l: seq<int>, i: int): (r: seq<int>)
    ensures i !in r
    ensures forall x :: x in r <==> x in l && x != i
    ensures |r| <= |l|
    decreases |l|
  {
    if l == [] then []
    else if l[0] == i then Without(l[1..], i)
    else [l[0]] + Without(l[1..], i)
  }

  /** The updater `toggleDay` passes to `setCompletedDays`: afterwards i is
      completed exactly when it was not before, and every other day keeps
      its state. */
  function Toggle(l: seq<int>, i: int): (r: seq<int>)
    ensures i in r <==> i !in l
    ensures forall x :: x != i ==> (x in r <==> x in l)
    ensures i !in l ==> r == l + [i]
    ensures i in l ==> r == Without(l, i)
  {
    if i in l then Without(l, i) else l + [i]
  }

  predicate NoDuplicates(l: seq<int>) {
    forall a, b :: 0 <= a < b < |l| ==> l[a] != l[b]
  }

  lemma {:induction false} WithoutAppend(l: seq<int>, x: int, i: int)
    ensures Without(l + [x], i) == Without(l, i) + (if x == i then [] else [x])
    decreases |l|
  {
    if l == [] {
      assert [x][1..] == [];
    } else {
      assert (l + [x])[1..] == l[1..] + [x];
      WithoutAppend(l[1..], x, i);
    }
  }

  lemma {:induction false} WithoutIdempotent(l: seq<int>, i: int)
    ensures Without(Without(l, i), i) == Without(l, i)
    decreases |l|
  {
    if l != [] {
      WithoutIdempotent(l[1..], i);
      if l[0] != i {
        assert ([l[0]] + Without(l[1..], i))[1..] == Without(l[1..], i);
      }
    }
  }

  /** The entries other than i, in their order, are the same before and
      after a toggle of i. */
  lemma OthersKeepOrder(l: seq<int>, i: int)
    ensures Without(Toggle(l, i), i) == Without(l, i)
  {
    if i in l {
      WithoutIdempotent(l, i);
    } else {
      WithoutAppend(l, i, i);
    }
  }

  lemma {:induction false} WithoutAbsent(l: seq<int>, i: int)
    requires i !in l
    ensures Without(l, i) == l
    decreases |l|
  {
    if l != [] {
      assert l == [l[0]] + l[1..];
      WithoutAbsent(l[1..], i);
    }
  }

  /** Toggling an absent day twice gives the list back; in every case it
      restores which days are completed. */
  lemma ToggleTwice(l: seq<int>, i: int)
    ensures i !in l ==> Toggle(Toggle(l, i), i) == l
    ensures forall x :: x in Toggle(Toggle(l, i), i) <==> x in l
  {
    if i !in l {
      WithoutAppend(l, i, i);
      WithoutAbsent(l, i);
    }
  }

  lemma {:induction false} WithoutNoDuplicates(l: seq<int>, i: int)
    requires NoDuplicates(l)
    ensures NoDuplicates(Without(l, i))
    decreases |l|
  {
    if l != [] {
      assert NoDuplicates(l[1..]) by {
        forall a, b | 0 <= a < b < |l[1..]| ensures l[1..][a] != l[1..][b] {
          assert l[1..][a] == l[a + 1] && l[1..][b] == l[b + 1];
        }
      }
      WithoutNoDuplicates(l[1..], i);
      if l[0] != i {
        var w := Without(l[1..], i);
        assert l[0] !in l[1..] by {
          forall k | 0 <= k < |l[1..]| ensures l[1..][k] != l[0] {
            assert l[1..][k] == l[k + 1];
          }
        }
        assert l[0] !in w;
        var r := [l[0]] + w;
        forall a, b | 0 <= a < b < |r| ensures r[a] != r[b] {
          if a == 0 {
            assert r[b] == w[b - 1];
            assert r[b] in w;
          } else {
            assert r[a] == w[a - 1] && r[b] == w[b - 1];
          }
        }
      }
    }
  }

  /** A list without duplicates stays without duplicates under toggling. */
  lemma ToggleKeepsNoDuplicates(l: seq<int>, i: int)
    requires NoDuplicates(l)
    ensures NoDuplicates(Toggle(l, i))
  {
    if i in l {
      WithoutNoDuplicates(l, i);
    } else {
      var r := l + [i];
      forall a, b | 0 <= a < b < |r| ensures r[a] != r[b] {
        if b == |l| {
          assert r[a] == l[a];
          assert r[a] in l;
        }
      }
    }
  }

  lemma {:induction false} WithoutPresentOnce(l: seq<int>, i: int)
    requires NoDuplicates(l) && i in l
    ensures |Without(l, i)| == |l| - 1
    decreases |l|
  {
    assert NoDuplicates(l[1..]) by {
      forall a, b | 0 <= a < b < |l[1..]| ensures l[1..][a] != l[1..][b] {
        assert l[1..][a] == l[a + 1] && l[1..][b] == l[b + 1];
      }
    }
    if l[0] == i {
      assert i !in l[1..] by {
        forall k | 0 <= k < |l[1..]| ensures l[1..][k] != i {
          assert l[1..][k] == l[k + 1];
        }
      }
      WithoutAbsent(l[1..], i);
    } else {
      assert i in l[1..] by {
        var k :| 0 <= k < |l| && l[k] == i;
        assert l[1..][k - 1] == i;
      }
      WithoutPresentOnce(l[1..], i);
    }
  }

  /** On a list without duplicates a toggle changes the completed count by
      one: up when i is added, down when it is removed. */
  lemma ToggleCount(l: seq<int>, i: int)
    requires NoDuplicates(l)
    ensures i !in l ==> |Toggle(l, i)| == |l| + 1
    ensures i in l ==> |Toggle(l, i)| == |l| - 1
  {
    if i in l {
      WithoutPresentOnce(l, i);
    }
  }

  /** Kept apart so that the empty base case of DistinctBelow, where a
      non-empty list would contradict the bound, asserts nothing itself. */
  lemma FirstIsMember(l: seq<int>)
    ensures |l| > 0 ==> l[0] in l
  {
  }

  /** Distinct day indices below n number at most n. */
  lemma {:induction false} DistinctBelow(l: seq<int>, n: nat)
    requires NoDuplicates(l)
    requires forall x :: x in l ==> 0 <= x < n
    ensures |l| <= n
    decreases n
  {
    if n == 0 {
      assert forall x :: x in l ==> false;
      FirstIsMember(l);
    } else {
      var w := Without(l, n - 1);
      WithoutNoDuplicates(l, n - 1);
      DistinctBelow(w, n - 1);
      if n - 1 in l {
        WithoutPresentOnce(l, n - 1);
      } else {
        WithoutAbsent(l, n - 1);
      }
    }
  }

  /** The page's state. */
  class ImprovementPlanPage {
    var selectedSport: string
    var selectedGoal: string
    var completedDays: seq<int>

    /** The checklist holds distinct card indices of the week. */
    predicate Valid()
      reads this
    {
      NoDuplicates(completedDays) && forall x :: x in completedDays ==> 0 <= x < 7
    }

    /** The count shown as `completedDays.length/7` never exceeds 7. */
    lemma CompletedAtMostSeven()
      requires Valid()
      ensures |completedDays| <= 7
    {
      DistinctBelow(completedDays, 7);
    }

    function Plan(): (plan: seq<PlanDay>)
      reads this
      ensures plan == CurrentPlan(selectedSport, selectedGoal)
    {
      CurrentPlan(selectedSport, selectedGoal)
    }

    constructor ()
      ensures selectedSport == "running" && selectedGoal == "endurance" && completedDays == []
      ensures Valid()
    {
      selectedSport := "running";
      selectedGoal := "endurance";
      completedDays := [];
    }

    /** `toggleDay(dayIndex)`; a card index of the week keeps the checklist
        valid. */
    method ToggleDay(dayIndex: int)
      modifies this
      ensures completedDays == Toggle(old(completedDays), dayIndex)
      ensures selectedSport == old(selectedSport) && selectedGoal == old(selectedGoal)
      ensures old(Valid()) && 0 <= dayIndex < 7 ==> Valid()
    {
      if Valid() {
        ToggleKeepsNoDuplicates(completedDays, dayIndex);
      }
      completedDays := Toggle(completedDays, dayIndex);
    }

    method SetSport(value: string)
      modifies this
      ensures selectedSport == value
      ensures selectedGoal == old(selectedGoal) && completedDays == old(completedDays)
    {
      selectedSport := value;
    }

    method SetGoal(value: string)
      modifies this
      ensures selectedGoal == value
      ensures selectedSport == old(selectedSport) && completedDays == old(completedDays)
    {
      selectedGoal := value;
    }
  }
}
