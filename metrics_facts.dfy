/** Properties of the trailing-window aggregation: what each window
    contains, order independence, the load ordering of the two windows,
    bounds, the empty-week defaults and a worked example. */
module MetricsFacts {
  import opened Wrappers
  import opened Numerics
  import opened Sessions
  import opened Metrics

  lemma PlusAssociative(x: Sums, y: Sums, z: Sums)
    ensures x.Plus(y).Plus(z) == x.Plus(y.Plus(z))
  {
  }

  lemma PlusNoSums(x: Sums)
    ensures x.Plus(NoSums) == x && NoSums.Plus(x) == x
  {
  }

  lemma AccumulateStep(ss: seq<Session>, toDate: DateParser, td: Option<int>)
    requires ss != []
    ensures Accumulate(ss, toDate, td) == Accumulate(ss[..|ss| - 1], toDate, td).Plus(Contribution(ss[|ss| - 1], toDate, td))
  {
  }

  lemma AccumulateSingle(s: Session, toDate: DateParser, td: Option<int>)
    ensures Accumulate([s], toDate, td) == Contribution(s, toDate, td)
  {
    AccumulateStep([s], toDate, td);
    assert [s][..0] == [];
    PlusNoSums(Contribution(s, toDate, td));
  }

  /** The accumulators of a concatenation are the sums of the parts'. */
  lemma {:induction false} AccumulateAppend(a: seq<Session>, b: seq<Session>, toDate: DateParser, td: Option<int>)
    ensures Accumulate(a + b, toDate, td) == Accumulate(a, toDate, td).Plus(Accumulate(b, toDate, td))
    decreases |b|
  {
    if b == [] {
      assert a + b == a;
      PlusNoSums(Accumulate(a, toDate, td));
    } else {
      var b' := b[..|b| - 1];
      var last := b[|b| - 1];
      assert (a + b)[..|a + b| - 1] == a + b';
      assert (a + b)[|a + b| - 1] == last;
      AccumulateStep(a + b, toDate, td);
      AccumulateStep(b, toDate, td);
      AccumulateAppend(a, b', toDate, td);
      PlusAssociative(Accumulate(a, toDate, td), Accumulate(b', toDate, td), Contribution(last, toDate, td));
    }
  }

  lemma PlusSwap(p: Sums, q: Sums, c: Sums)
    ensures p.Plus(q).Plus(c) == p.Plus(c).Plus(q)
  {
  }

  lemma MultisetRemove<T>(b: seq<T>, k: nat)
    requires k < |b|
    ensures multiset(b[..k] + b[k + 1..]) == multiset(b) - multiset{b[k]}
  {
    assert b == b[..k] + [b[k]] + b[k + 1..];
  }

  /** Removing the session at position k takes its contribution out of the sums. */
  lemma AccumulateRemove(b: seq<Session>, k: nat, toDate: DateParser, td: Option<int>)
    requires k < |b|
    ensures Accumulate(b, toDate, td) == Accumulate(b[..k] + b[k + 1..], toDate, td).Plus(Contribution(b[k], toDate, td))
  {
    var x := b[k];
    assert b == b[..k] + [x] + b[k + 1..];
    AccumulateAppend(b[..k] + [x], b[k + 1..], toDate, td);
    AccumulateAppend(b[..k], [x], toDate, td);
    AccumulateAppend(b[..k], b[k + 1..], toDate, td);
    AccumulateSingle(x, toDate, td);
    PlusSwap(Accumulate(b[..k], toDate, td), Contribution(x, toDate, td), Accumulate(b[k + 1..], toDate, td));
    PlusSwap(Accumulate(b[..k], toDate, td), Accumulate(b[k + 1..], toDate, td), Contribution(x, toDate, td));
  }

  /** The accumulators do not depend on the order of the sessions. */
  lemma {:induction false} AccumulatePermutation(a: seq<Session>, b: seq<Session>, toDate: DateParser, td: Option<int>)
    requires multiset(a) == multiset(b)
    ensures Accumulate(a, toDate, td) == Accumulate(b, toDate, td)
    decreases |a|
  {
    if a == [] {
      assert |b| == |multiset(b)| == 0;
    } else {
      var x := a[|a| - 1];
      var a' := a[..|a| - 1];
      assert a == a' + [x];
      assert multiset(a) == multiset(a') + multiset{x};
      assert x in multiset(b);
      var k :| 0 <= k < |b| && b[k] == x;
      MultisetRemove(b, k);
      AccumulatePermutation(a', b[..k] + b[k + 1..], toDate, td);
      AccumulateRemove(b, k, toDate, td);
    }
  }

  /** Reordering the session list changes none of the metrics. */
  lemma AggregateOrderIndependent(a: seq<Session>, b: seq<Session>, today: string, toDate: DateParser)
    requires multiset(a) == multiset(b)
    ensures Aggregate(a, today, toDate) == Aggregate(b, today, toDate)
    ensures AnalyzeOutput(Aggregate(a, today, toDate), today) == AnalyzeOutput(Aggregate(b, today, toDate), today)
    ensures PlanOutput(Aggregate(a, today, toDate), today) == PlanOutput(Aggregate(b, today, toDate), today)
  {
    AccumulatePermutation(a, b, toDate, toDate(today));
  }

  /** The sessions of ss whose date lies in the window of `days` days, in order. */
  function SessionsIn(ss: seq<Session>, toDate: DateParser, td: Option<int>, days: int): seq<Session>
    decreases |ss|
  {
    if ss == [] then []
    else
      var last := ss[|ss| - 1];
      SessionsIn(ss[..|ss| - 1], toDate, td, days)
        + (if InWindow(toDate(last.date), td, days) then [last] else [])
  }

  /** The sum of f over the sessions of ss. */
  function SumOf(ss: seq<Session>, f: Session -> real): real
    decreases |ss|
  {
    if ss == [] then 0.0 else SumOf(ss[..|ss| - 1], f) + f(ss[|ss| - 1])
  }

  lemma SumOfAppend(a: seq<Session>, s: Session, f: Session -> real)
    ensures SumOf(a + [s], f) == SumOf(a, f) + f(s)
  {
    assert (a + [s])[..|a|] == a;
  }

  /** The soreness and RPE of a session, as terms of SumOf. */
  function SorenessOf(s: Session): real {
    s.soreness
  }

  function RpeOf(s: Session): real {
    s.rpe
  }

  /** Window membership: `tl_14d` is the load of exactly the sessions dated
      in (today - 14 days, today]; every other session adds nothing to it. */
  lemma {:induction false} FortnightLoad(ss: seq<Session>, toDate: DateParser, td: Option<int>)
    ensures Accumulate(ss, toDate, td).tl14 == SumOf(SessionsIn(ss, toDate, td, 14), TrainingLoad)
    decreases |ss|
  {
    if ss != [] {
      var rest := ss[..|ss| - 1];
      var last := ss[|ss| - 1];
      AccumulateStep(ss, toDate, td);
      FortnightLoad(rest, toDate, td);
      var c := Contribution(last, toDate, td);
      var w := SessionsIn(rest, toDate, td, 14);
      if InWindow(toDate(last.date), td, 14) {
        assert SessionsIn(ss, toDate, td, 14) == w + [last];
        SumOfAppend(w, last, TrainingLoad);
        assert c.tl14 == TrainingLoad(last);
      } else {
        assert SessionsIn(ss, toDate, td, 14) == w;
        assert c.tl14 == 0.0;
      }
    }
  }

  /** `tl_7d` and `count7` are the load and the number of exactly the
      sessions dated in (today - 7 days, today]. */
  lemma {:induction false} WeekLoad(ss: seq<Session>, toDate: DateParser, td: Option<int>)
    ensures Accumulate(ss, toDate, td).tl7 == SumOf(SessionsIn(ss, toDate, td, 7), TrainingLoad)
    ensures Accumulate(ss, toDate, td).count7 == |SessionsIn(ss, toDate, td, 7)|
    decreases |ss|
  {
    if ss != [] {
      var rest := ss[..|ss| - 1];
      var last := ss[|ss| - 1];
      AccumulateStep(ss, toDate, td);
      WeekLoad(rest, toDate, td);
      var c := Contribution(last, toDate, td);
      var w := SessionsIn(rest, toDate, td, 7);
      if InWindow(toDate(last.date), td, 7) {
        assert SessionsIn(ss, toDate, td, 7) == w + [last];
        SumOfAppend(w, last, TrainingLoad);
        assert c.tl7 == TrainingLoad(last) && c.count7 == 1;
      } else {
        assert SessionsIn(ss, toDate, td, 7) == w;
        assert c.tl7 == 0.0 && c.count7 == 0;
      }
    }
  }

  /** The sleep, soreness and RPE accumulators are the sums over exactly the
      sessions of the 7-day window, sleep counted through its default. */
  lemma {:induction false} WeekAccumulators(ss: seq<Session>, toDate: DateParser, td: Option<int>)
    ensures Accumulate(ss, toDate, td).sleep7 == SumOf(SessionsIn(ss, toDate, td, 7), SleepOrDefault)
    ensures Accumulate(ss, toDate, td).soreness7 == SumOf(SessionsIn(ss, toDate, td, 7), SorenessOf)
    ensures Accumulate(ss, toDate, td).rpe7 == SumOf(SessionsIn(ss, toDate, td, 7), RpeOf)
    decreases |ss|
  {
    if ss != [] {
      var rest := ss[..|ss| - 1];
      var last := ss[|ss| - 1];
      AccumulateStep(ss, toDate, td);
      WeekAccumulators(rest, toDate, td);
      var c := Contribution(last, toDate, td);
      var w := SessionsIn(rest, toDate, td, 7);
      if InWindow(toDate(last.date), td, 7) {
        assert SessionsIn(ss, toDate, td, 7) == w + [last];
        SumOfAppend(w, last, SleepOrDefault);
        SumOfAppend(w, last, SorenessOf);
        SumOfAppend(w, last, RpeOf);
        assert c.sleep7 == SleepOrDefault(last) && c.soreness7 == SorenessOf(last) && c.rpe7 == RpeOf(last);
      } else {
        assert SessionsIn(ss, toDate, td, 7) == w;
        assert c.sleep7 == 0.0 && c.soreness7 == 0.0 && c.rpe7 == 0.0;
      }
    }
  }

  /** The three 7-day averages are the means over the sessions of the 7-day
      window, and their fallbacks when that window is empty. */
  lemma WeekAverages(ss: seq<Session>, today: string, toDate: DateParser)
    ensures var w := SessionsIn(ss, toDate, toDate(today), 7);
      var m := Aggregate(ss, today, toDate);
      |w| > 0 ==> && m.avgSleep7 == SumOf(w, SleepOrDefault) / (|w| as real)
                  && m.avgSoreness7 == SumOf(w, SorenessOf) / (|w| as real)
                  && m.avgRpe7 == SumOf(w, RpeOf) / (|w| as real)
    ensures var m := Aggregate(ss, today, toDate);
      |SessionsIn(ss, toDate, toDate(today), 7)| == 0 ==> m.avgSleep7 == 7.0 && m.avgSoreness7 == 0.0 && m.avgRpe7 == 5.0
  {
    WeekLoad(ss, toDate, toDate(today));
    WeekAccumulators(ss, toDate, toDate(today));
  }

  /** A session dated outside the 14-day window can be added anywhere in the
      list without changing any metric. */
  lemma OutsideWindowsIgnored(a: seq<Session>, s: Session, b: seq<Session>, today: string, toDate: DateParser)
    requires !InWindow(toDate(s.date), toDate(today), 14)
    ensures Aggregate(a + [s] + b, today, toDate) == Aggregate(a + b, today, toDate)
  {
    var td := toDate(today);
    WeekWithinFortnight(toDate(s.date), td);
    AccumulateAppend(a + [s], b, toDate, td);
    AccumulateAppend(a, [s], toDate, td);
    AccumulateAppend(a, b, toDate, td);
    AccumulateSingle(s, toDate, td);
    assert Contribution(s, toDate, td) == NoSums;
    PlusNoSums(Accumulate(a, toDate, td));
    assert Accumulate(a + [s] + b, toDate, td) == Accumulate(a + b, toDate, td);
  }

  predicate NonNegativeLoads(ss: seq<Session>) {
    forall i :: 0 <= i < |ss| ==> ss[i].durationMin >= 0.0 && ss[i].rpe >= 0.0
  }

  lemma {:induction false} AccumulateTl7AtMostTl14(ss: seq<Session>, toDate: DateParser, td: Option<int>)
    requires NonNegativeLoads(ss)
    ensures 0.0 <= Accumulate(ss, toDate, td).tl7 <= Accumulate(ss, toDate, td).tl14
    decreases |ss|
  {
    if ss != [] {
      var rest := ss[..|ss| - 1];
      assert NonNegativeLoads(rest) by {
        forall i | 0 <= i < |rest| ensures rest[i] == ss[i] { }
      }
      AccumulateTl7AtMostTl14(rest, toDate, td);
      var last := ss[|ss| - 1];
      assert TrainingLoad(last) >= 0.0;
      WeekWithinFortnight(toDate(last.date), td);
    }
  }

  /** With non-negative durations and RPEs the 7-day load never exceeds the
      14-day load, before and after rounding. */
  lemma Tl7AtMostTl14(ss: seq<Session>, today: string, toDate: DateParser)
    requires NonNegativeLoads(ss)
    ensures 0.0 <= Aggregate(ss, today, toDate).tl7 <= Aggregate(ss, today, toDate).tl14
    ensures AnalyzeOutput(Aggregate(ss, today, toDate), today).tl7d <= AnalyzeOutput(Aggregate(ss, today, toDate), today).tl14d
    ensures PlanOutput(Aggregate(ss, today, toDate), today).tl7d <= PlanOutput(Aggregate(ss, today, toDate), today).tl14d
  {
    AccumulateTl7AtMostTl14(ss, toDate, toDate(today));
    var m := Aggregate(ss, today, toDate);
    RoundMonotone(m.tl7, m.tl14);
  }

  /** Whatever the sessions, the normalised load and the risk lie in [0,1]
      and the recovery index in [0,100], in both output records. */
  lemma OutputBounds(ss: seq<Session>, today: string, toDate: DateParser)
    ensures InRange(Aggregate(ss, today, toDate))
    ensures var r := AnalyzeOutput(Aggregate(ss, today, toDate), today);
      0.0 <= r.tl7Norm <= 1.0 && 0 <= r.recoveryIndex <= 100 && 0.0 <= r.injuryRisk <= 1.0
    ensures var r := PlanOutput(Aggregate(ss, today, toDate), today);
      0.0 <= r.tl7Norm <= 1.0 && 0 <= r.recoveryIndex <= 100 && 0.0 <= r.injuryRisk <= 1.0
  {
    var m := Aggregate(ss, today, toDate);
    RoundToUnit(m.tl7Norm, ThreeDecimals);
    RoundToUnit(m.injuryRisk, ThreeDecimals);
    RoundWithin(m.recoveryIndex, 0, 100);
  }

  lemma {:induction false} EmptyWeekSums(ss: seq<Session>, toDate: DateParser, td: Option<int>)
    requires forall i :: 0 <= i < |ss| ==> !InWindow(toDate(ss[i].date), td, 7)
    ensures Accumulate(ss, toDate, td).count7 == 0 && Accumulate(ss, toDate, td).tl7 == 0.0
    decreases |ss|
  {
    if ss != [] {
      var rest := ss[..|ss| - 1];
      forall i | 0 <= i < |rest| ensures !InWindow(toDate(rest[i].date), td, 7) {
        assert rest[i] == ss[i];
      }
      EmptyWeekSums(rest, toDate, td);
    }
  }

  /** No session in the last 7 days (an empty list, an unparsable reference
      date, or only older sessions): the averages take their fallbacks 7.0,
      0.0 and 5.0, so the recovery index is 96.875 (97 once rounded) and the
      injury risk 0.125. */
  lemma EmptyWeekDefaults(ss: seq<Session>, today: string, toDate: DateParser)
    requires forall i :: 0 <= i < |ss| ==> !InWindow(toDate(ss[i].date), toDate(today), 7)
    ensures var m := Aggregate(ss, today, toDate);
      && m.tl7 == 0.0 && m.tl7Norm == 0.0
      && m.avgSleep7 == 7.0 && m.avgSoreness7 == 0.0 && m.avgRpe7 == 5.0
      && m.recoveryIndex == 96.875 && m.injuryRisk == 0.125
    ensures var r := AnalyzeOutput(Aggregate(ss, today, toDate), today);
      r.tl7d == 0 && r.recoveryIndex == 97 && r.injuryRisk == 0.125 && r.tl7Norm == 0.0
      && r.avgSleep7 == 7.0 && r.avgSoreness7 == 0.0 && r.avgRpe7 == 5.0
  {
    EmptyWeekSums(ss, toDate, toDate(today));
  }

  /** A session whose logged sleep is 0 counts as 7 hours of sleep (`||`
      rather than `??`): wherever it stands in the list, it gives the same
      metrics as one logged with 7 hours. */
  lemma ZeroSleepCountsAsDefault(a: seq<Session>, s: Session, b: seq<Session>, today: string, toDate: DateParser)
    requires s.sleepHours == 0.0
    ensures Aggregate(a + [s] + b, today, toDate) == Aggregate(a + [s.(sleepHours := 7.0)] + b, today, toDate)
    ensures InWindow(toDate(s.date), toDate(today), 7) ==> Aggregate([s], today, toDate).avgSleep7 == 7.0
  {
    var td := toDate(today);
    var s' := s.(sleepHours := 7.0);
    assert Contribution(s, toDate, td) == Contribution(s', toDate, td);
    AccumulateSingle(s, toDate, td);
    AccumulateSingle(s', toDate, td);
    AccumulateAppend(a + [s], b, toDate, td);
    AccumulateAppend(a, [s], toDate, td);
    AccumulateAppend(a + [s'], b, toDate, td);
    AccumulateAppend(a, [s'], toDate, td);
  }

  /** One session on the reference date: 60 minutes at RPE 8, 5 hours of
      sleep and soreness 6. The formulas give a recovery index of 74.225 and
      an injury risk of 0.397. */
  lemma WorkedExample(today: string, toDate: DateParser)
    requires toDate(today).Some?
    ensures var s := Session(today, "Running", 60.0, 8.0, 5.0, 6.0);
      var m := Aggregate([s], today, toDate);
      && m.tl7 == 480.0 && m.tl14 == 480.0 && m.tl7Norm == 0.16
      && m.avgSleep7 == 5.0 && m.avgSoreness7 == 6.0 && m.avgRpe7 == 8.0
      && m.recoveryIndex == 74.225 && m.injuryRisk == 0.397
    ensures var r := AnalyzeOutput(Aggregate([Session(today, "Running", 60.0, 8.0, 5.0, 6.0)], today, toDate), today);
      && r.tl7d == 480 && r.tl14d == 480 && r.tl7Norm == 0.16
      && r.avgSleep7 == 5.0 && r.avgSoreness7 == 6.0 && r.avgRpe7 == 8.0
      && r.recoveryIndex == 74 && r.injuryRisk == 0.397 && r.today == today
  {
    var s := Session(today, "Running", 60.0, 8.0, 5.0, 6.0);
    AccumulateSingle(s, toDate, toDate(today));
  }
}
