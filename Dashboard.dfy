/** The intake counter of Dashboard.tsx: the day's goal derived from the
    profile, the running intake with its one-off "goal reached" feedback, the
    capped progress and the urine-colour update of the profile. */
module DashboardModel {
  import opened Types
  import Hydration

  /** The amount one press of the add-water button adds, in millilitres. */
  const GlassMl: int := 200

  /** A progress figure as the host computes it: a percentage, or the
      not-a-number of 0/0 when both the intake and the goal are zero. */
  datatype Progress = Percent(value: real) | NaN

  /** The percentage of the goal drunk, capped at 100. A zero goal makes any
      positive intake an unbounded quotient, which the cap turns into 100. */
  function ProgressOf(intake: int, goal: int): (r: Progress)
    requires intake >= 0
    ensures r.NaN? <==> intake == 0 && goal == 0
    ensures r.Percent? ==> r.value <= 100.0
    ensures goal > 0 ==> r.Percent? && r.value >= 0.0 && (r.value == 100.0 <==> intake >= goal)
    ensures goal > 0 && intake < goal ==> r.value == (intake as real) * 100.0 / (goal as real)
  {
    if goal == 0 then
      if intake == 0 then NaN else Percent(100.0)
    else
      var p := (intake as real) / (goal as real) * 100.0;
      Percent(if p < 100.0 then p else 100.0)
  }

  /** The success feedback of one addition: the intake was below the goal and
      now is not. */
  function GoalCrossed(before: int, amount: int, goal: int): bool {
    before < goal && before + amount >= goal
  }

  /** The selected colour replaces the last colour, and nothing else of the profile changes. */
  function WithUrineColor(p: UserProfile, c: UrineColor): (q: UserProfile)
    ensures q.lastUrineColor == Some(c)
    ensures q.(lastUrineColor := p.lastUrineColor) == p
  {
    p.(lastUrineColor := Some(c))
  }

  /** Reporting any colour but dehydrated gives the plain rounded goal;
      reporting dehydrated gives exactly 15% more. */
  lemma UrineColorEffect(p: UserProfile, c: UrineColor)
    ensures c != Dehydrated ==> Hydration.CalculateDailyGoal(WithUrineColor(p, c)) == Hydration.RoundedGoal(p)
    ensures c == Dehydrated ==>
      Hydration.CalculateDailyGoal(WithUrineColor(p, c)) * 20 == Hydration.RoundedGoal(p) * 23
  {
    var q := WithUrineColor(p, c);
    assert Hydration.BaseIntake(q) == Hydration.BaseIntake(p);
    if c == Dehydrated {
      Hydration.DehydratedBonusExact(q);
    }
  }

  /** The intake after a sequence of additions. */
  function IntakeAfter(start: int, amounts: seq<int>): int {
    if amounts == [] then start else IntakeAfter(start, amounts[..|amounts| - 1]) + amounts[|amounts| - 1]
  }

  /** How often the success feedback fires over a sequence of additions. */
  function Crossings(start: int, amounts: seq<int>, goal: int): nat {
    if amounts == [] then 0
    else
      var init := amounts[..|amounts| - 1];
      Crossings(start, init, goal) + (if GoalCrossed(IntakeAfter(start, init), amounts[|amounts| - 1], goal) then 1 else 0)
  }

  predicate NonNegative(amounts: seq<int>) {
    forall i :: 0 <= i < |amounts| ==> amounts[i] >= 0
  }

  /** With a fixed goal and additions that never subtract, the intake never
      falls, and the feedback fires at most once: exactly once when the
      intake went from below the goal to at or above it, never otherwise. */
  lemma {:induction false} FiresAtMostOnce(start: int, amounts: seq<int>, goal: int)
    requires NonNegative(amounts)
    ensures IntakeAfter(start, amounts) >= start
    ensures Crossings(start, amounts, goal) <= 1
    ensures Crossings(start, amounts, goal) == 1 <==> start < goal <= IntakeAfter(start, amounts)
  {
    if amounts != [] {
      var init := amounts[..|amounts| - 1];
      assert NonNegative(init) by {
        forall i | 0 <= i < |init| ensures init[i] >= 0 {
          assert init[i] == amounts[i];
        }
      }
      FiresAtMostOnce(start, init, goal);
      assert amounts[|amounts| - 1] >= 0;
    }
  }

  /** Glasses only: n presses from zero give n * 200 ml. */
  lemma {:induction false} GlassesAddUp(n: nat)
    ensures IntakeAfter(0, seq(n, _ => GlassMl)) == n * GlassMl
  {
    if n > 0 {
      var s := seq(n, _ => GlassMl);
      assert s[..n - 1] == seq(n - 1, _ => GlassMl);
      GlassesAddUp(n - 1);
    }
  }

  /** The goal follows the profile while the intake stays, so the feedback can
      fire again the same day: 70 kg, 12 glasses reach 2300 ml, then reporting
      dehydration raises the goal to 2645 ml, and the 14th glass crosses it. */
  lemma FiresAgainAfterGoalRise()
    ensures var p := UserProfile(Some(Student), 70, 175, Some(Medium), None, "08:00", "23:00", Default);
      && Hydration.CalculateDailyGoal(p) == 2300
      && Hydration.CalculateDailyGoal(WithUrineColor(p, Dehydrated)) == 2645
      && GoalCrossed(2200, GlassMl, 2300)
      && GoalCrossed(2600, GlassMl, 2645)
  {
    var p := UserProfile(Some(Student), 70, 175, Some(Medium), None, "08:00", "23:00", Default);
    Hydration.GoalClosedForm(p);
    Hydration.GoalClosedForm(WithUrineColor(p, Dehydrated));
  }

  /** The dashboard: the profile it is shown for and the intake counted since it appeared. */
  class Dashboard {
    var profile: UserProfile
    var currentIntake: int

    /** The intake only grows from zero, so it is never negative. */
    ghost predicate Valid()
      reads this
    {
      currentIntake >= 0
    }

    /** The goal shown on the dashboard, recomputed from the profile. */
    function DailyGoal(): int
      reads this
    {
      Hydration.CalculateDailyGoal(profile)
    }

    /** The progress bar's figure for the current intake and goal. */
    function CurrentProgress(): (r: Progress)
      reads this
      requires Valid()
      ensures DailyGoal() > 0 ==> r.Percent? && 0.0 <= r.value <= 100.0
      ensures DailyGoal() > 0 ==> (r.value == 100.0 <==> currentIntake >= DailyGoal())
    {
      ProgressOf(currentIntake, DailyGoal())
    }

    /** The counter starts at zero. */
    constructor (p: UserProfile)
      ensures Valid() && profile == p && currentIntake == 0
    {
      profile := p;
      currentIntake := 0;
    }

    /** Adds to the intake; `goalReached` is the success feedback. */
    method AddWater(amount: int) returns (goalReached: bool)
      requires Valid() && amount >= 0
      modifies this
      ensures Valid()
      ensures currentIntake == old(currentIntake) + amount && profile == old(profile)
      ensures goalReached == GoalCrossed(old(currentIntake), amount, DailyGoal())
      ensures goalReached <==> old(currentIntake) < DailyGoal() <= currentIntake
    {
      var dailyGoal := Hydration.CalculateDailyGoal(profile);
      var wasGoalMet := currentIntake >= dailyGoal;
      var newIntake := currentIntake + amount;
      var isGoalMetNow := newIntake >= dailyGoal;
      goalReached := !wasGoalMet && isGoalMetNow;
      currentIntake := newIntake;
    }

    /** The add-water button: one glass. */
    method AddGlass() returns (goalReached: bool)
      requires Valid()
      modifies this
      ensures Valid()
      ensures currentIntake == old(currentIntake) + GlassMl && profile == old(profile)
      ensures goalReached <==> old(currentIntake) < DailyGoal() <= currentIntake
    {
      goalReached := AddWater(GlassMl);
    }

    /** The urine-colour picker: the profile takes the colour; the intake stays. */
    method SelectUrineColor(c: UrineColor)
      requires Valid()
      modifies this
      ensures Valid()
      ensures profile == WithUrineColor(old(profile), c) && currentIntake == old(currentIntake)
    {
      profile := WithUrineColor(profile, c);
    }
  }
}
