/** The daily hydration goal (utils/hydration.ts), in exact arithmetic. */
module Hydration {
  import opened Types
  import opened Arith

  /** JavaScript's Math.round: ties go up, i.e. floor(x + 1/2). */
  function JsRound(x: real): (n: int)
    ensures n as real <= x + 0.5 < n as real + 1.0
  {
    (x + 0.5).Floor
  }

  /** The unrounded goal: 33 ml per kg, times 1.2 for athletes, then 0.9 for a low habit. */
  function BaseIntake(p: UserProfile): real {
    var base := p.weight as real * 33.0;
    var base := if p.category == Some(Athlete) then base * 1.2 else base;
    if p.habit == Some(Low) then base * 0.9 else base
  }

  /** The goal rounded to the nearest 100 ml, before the dehydration bonus. */
  function RoundedGoal(p: UserProfile): (g: int)
    ensures g % 100 == 0
  {
    JsRound(BaseIntake(p) / 100.0) * 100
  }

  /** The daily goal in millilitres; total, with no error path. */
  function CalculateDailyGoal(p: UserProfile): (goal: int)
    ensures p.lastUrineColor != Some(Dehydrated) ==> goal == RoundedGoal(p)
    ensures p.lastUrineColor == Some(Dehydrated) ==> goal as real <= RoundedGoal(p) as real * 1.15 + 0.5
  {
    var goal := RoundedGoal(p);
    if p.lastUrineColor == Some(Dehydrated) then JsRound(goal as real * 1.15) else goal
  }

  // ---------------------------------------------------------------------------
  // An integer reference for the formula.  Measured in fiftieths of a
  // millilitre, both factors 1.2 = 60/50 and 0.9 = 45/50 are whole numbers.

  /** The combined category/habit factor, in fiftieths. */
  function Factor50(p: UserProfile): (k: int)
    ensures k in {50, 60, 45, 54}
  {
    var k := if p.category == Some(Athlete) then 60 else 50;
    if p.habit == Some(Low) then k * 9 / 10 else k
  }

  /** Goal rounded to 100 ml, computed with integer division only. */
  function RoundedGoalInt(p: UserProfile): int {
    (p.weight * 33 * Factor50(p) + 2500) / 5000 * 100
  }

  /** The base intake in fiftieths of a millilitre is exactly weight*33*Factor50. */
  lemma BaseIntakeScaled(p: UserProfile)
    ensures BaseIntake(p) * 50.0 == (p.weight * 33 * Factor50(p)) as real
  {
    var w := p.weight as real;
    assert (p.weight * 33 * Factor50(p)) as real == w * 33.0 * (Factor50(p) as real);
  }

  /** The rounding stage agrees with the integer reference, so the pre-rounding
      value is weight*33 with the two factors composing as stated. */
  lemma RoundedGoalClosedForm(p: UserProfile)
    ensures RoundedGoal(p) == RoundedGoalInt(p)
  {
    var n := p.weight * 33 * Factor50(p);
    BaseIntakeScaled(p);
    assert BaseIntake(p) / 100.0 + 0.5 == ((n + 2500) as real) / 5000.0;
    FloorOfQuotient(n + 2500, 5000);
  }

  /** The dehydration bonus needs no rounding: 15% of a multiple of 100 is whole,
      so the goal becomes exactly 115 ml per 100 ml of the rounded goal. */
  lemma DehydratedBonusExact(p: UserProfile)
    requires p.lastUrineColor == Some(Dehydrated)
    ensures CalculateDailyGoal(p) == RoundedGoal(p) / 100 * 115
    ensures CalculateDailyGoal(p) * 20 == RoundedGoal(p) * 23
  {
    var g := RoundedGoal(p);
    var q := g / 100;
    assert g == q * 100;
    assert g as real * 1.15 + 0.5 == ((q * 230 + 1) as real) / 2.0;
    FloorOfQuotient(q * 230 + 1, 2);
    assert (q * 230 + 1) / 2 == q * 115;
  }

  /** Unless the user is dehydrated, the goal is a multiple of 100 and equals
      round(base / 100) * 100 computed with round-half-up. */
  lemma GoalMultipleOf100(p: UserProfile)
    requires p.lastUrineColor != Some(Dehydrated)
    ensures CalculateDailyGoal(p) % 100 == 0
    ensures CalculateDailyGoal(p) == (p.weight * 33 * Factor50(p) + 2500) / 5000 * 100
  {
    RoundedGoalClosedForm(p);
  }

  /** Only these four fields enter the goal: height, the wake and bed times and
      the notification sound have no effect. */
  lemma GoalDependsOnlyOnFormulaFields(p: UserProfile, q: UserProfile)
    requires p.weight == q.weight && p.category == q.category
    requires p.habit == q.habit && p.lastUrineColor == q.lastUrineColor
    ensures CalculateDailyGoal(p) == CalculateDailyGoal(q)
  {
    assert BaseIntake(p) == BaseIntake(q);
  }

  /** The complete integer closed form of the goal. */
  lemma GoalClosedForm(p: UserProfile)
    ensures CalculateDailyGoal(p) ==
      if p.lastUrineColor == Some(Dehydrated) then RoundedGoalInt(p) / 100 * 115 else RoundedGoalInt(p)
  {
    RoundedGoalClosedForm(p);
    if p.lastUrineColor == Some(Dehydrated) {
      DehydratedBonusExact(p);
    }
  }

  /** The integer reference grows with the weight. */
  lemma RoundedGoalIntMonotone(p: UserProfile, w: int)
    requires w >= p.weight
    ensures RoundedGoalInt(p) <= RoundedGoalInt(p.(weight := w))
  {
    var k := Factor50(p);
    assert Factor50(p.(weight := w)) == k;
    var c := 33 * k;
    assert p.weight * 33 * k == p.weight * c && w * 33 * k == w * c;
    MulMonotone(p.weight, w, c);
    DivMonotone(p.weight * c + 2500, w * c + 2500, 5000);
  }

  /** A heavier user never gets a smaller goal, all else equal. */
  lemma GoalMonotoneInWeight(p: UserProfile, w: int)
    requires w >= p.weight
    ensures CalculateDailyGoal(p.(weight := w)) >= CalculateDailyGoal(p)
  {
    var q := p.(weight := w);
    GoalClosedForm(p);
    GoalClosedForm(q);
    RoundedGoalIntMonotone(p, w);
    if p.lastUrineColor == Some(Dehydrated) {
      DivMonotone(RoundedGoalInt(p), RoundedGoalInt(q), 100);
      MulMonotone(RoundedGoalInt(p) / 100, RoundedGoalInt(q) / 100, 115);
    }
  }

  /** A very low weight rounds down to a goal of 0, which is accepted, not an error. */
  lemma LowWeightGivesZero(p: UserProfile)
    requires 0 <= p.weight <= 1
    ensures CalculateDailyGoal(p) == 0
  {
    GoalClosedForm(p);
  }

  /** Worked values: 70 kg gives 2310 -> 2300; as an athlete 2772 -> 2800;
      with a low habit and dehydrated 2079 -> 2100 -> 2415. */
  lemma WorkedExamples()
    ensures CalculateDailyGoal(UserProfile(Some(BusinessPerson), 70, 175, Some(Medium), None, "08:00", "23:00", Default)) == 2300
    ensures CalculateDailyGoal(UserProfile(Some(Athlete), 70, 175, Some(Medium), None, "08:00", "23:00", Default)) == 2800
    ensures CalculateDailyGoal(UserProfile(Some(BusinessPerson), 70, 175, Some(Low), Some(Dehydrated), "08:00", "23:00", Default)) == 2415
  {
    GoalClosedForm(UserProfile(Some(BusinessPerson), 70, 175, Some(Medium), None, "08:00", "23:00", Default));
    GoalClosedForm(UserProfile(Some(Athlete), 70, 175, Some(Medium), None, "08:00", "23:00", Default));
    GoalClosedForm(UserProfile(Some(BusinessPerson), 70, 175, Some(Low), Some(Dehydrated), "08:00", "23:00", Default));
  }
}
