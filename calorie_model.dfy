/** Daily calorie target: the Mifflin-St Jeor basal rate, scaled by an activity
    multiplier, shifted by the goal, floored at 1200 kcal and rounded to an integer.
    The arithmetic is exact over reals; the decimal constants are exact rationals. */
module CalorieModel {

  datatype Gender = Male | Female
  datatype Activity = Low | Medium | High
  datatype Goal = Lose | Maintain | Gain

  /** A user's biometric inputs. `mealsPerDay` is 3, 4 or 5 in practice; the planner
      treats every value other than 3 and 4 like 5. */
  datatype UserProfile = UserProfile(
    age: int,
    gender: Gender,
    heightCm: real,
    weightKg: real,
    activity: Activity,
    goal: Goal,
    mealsPerDay: int)

  /** Lowest target ever recommended, in kcal. */
  const CalorieFloor: real := 1200.0
  /** Shift of the target for the two non-maintaining goals, in kcal. */
  const LoseOffset: real := 400.0
  const GainOffset: real := 300.0

  /** The input ranges the entry form enforces: age 10 to 90 years, height 120 to
      220 cm, weight 30 to 200 kg. The calorie functions do not require them. */
  predicate InFormRanges(p: UserProfile)
  {
    10 <= p.age <= 90 && 120.0 <= p.heightCm <= 220.0 && 30.0 <= p.weightKg <= 200.0
  }

  /** Mifflin-St Jeor basal metabolic rate in kcal per day. Within the form's ranges
      it lies between 439 kcal (a 90-year-old woman, 120 cm, 30 kg) and 3330 kcal
      (a 10-year-old man, 220 cm, 200 kg); outside them it may even be negative. */
  function CalcBmr(p: UserProfile): (r: real)
    ensures InFormRanges(p) ==> 439.0 <= r <= 3330.0
  {
    var common := 10.0 * p.weightKg + 6.25 * p.heightCm - 5.0 * (p.age as real);
    if p.gender == Male then common + 5.0 else common - 161.0
  }

  /** Multiplier from basal rate to total daily energy expenditure. */
  function ActivityFactor(a: Activity): (r: real)
    ensures 1.2 <= r <= 1.725
  {
    match a
    case Low => 1.2
    case Medium => 1.55
    case High => 1.725
  }

  /** Total daily energy expenditure before the goal is applied: for a non-negative
      basal rate, between 1.2 and 1.725 times it. */
  function Tdee(p: UserProfile): (r: real)
    ensures CalcBmr(p) >= 0.0 ==> 1.2 * CalcBmr(p) <= r <= 1.725 * CalcBmr(p)
  {
    CalcBmr(p) * ActivityFactor(p.activity)
  }

  /** The expenditure shifted by the goal: lose lowers it, gain raises it, maintain
      keeps it; the shift is at most 400 kcal down and 300 kcal up. */
  function GoalAdjusted(p: UserProfile): (r: real)
    ensures p.goal == Lose ==> r < Tdee(p)
    ensures p.goal == Maintain ==> r == Tdee(p)
    ensures p.goal == Gain ==> r > Tdee(p)
    ensures Tdee(p) - LoseOffset <= r <= Tdee(p) + GainOffset
  {
    var tdee := Tdee(p);
    match p.goal
    case Lose => tdee - LoseOffset
    case Gain => tdee + GainOffset
    case Maintain => tdee
  }

  /** The target as a real, after the goal offset and the floor, before rounding. */
  function AdjustedTarget(p: UserProfile): (r: real)
    ensures r >= CalorieFloor
    ensures r == CalorieFloor || r == GoalAdjusted(p)
    ensures r >= GoalAdjusted(p)
  {
    var t := GoalAdjusted(p);
    if t >= CalorieFloor then t else CalorieFloor
  }

  /** Round to the nearest integer, halves to the even neighbour (Python's `round`). */
  function RoundHalfEven(x: real): (r: int)
    ensures x - 0.5 <= r as real <= x + 0.5
    ensures (r as real == x - 0.5 || r as real == x + 0.5) ==> r % 2 == 0
  {
    var f := x.Floor;
    var frac := x - f as real;
    if frac < 0.5 then f
    else if frac > 0.5 then f + 1
    else if f % 2 == 0 then f
    else f + 1
  }

  /** The daily calorie target in whole kcal. */
  function TargetCalories(p: UserProfile): (r: int)
    ensures r >= 1200
    ensures AdjustedTarget(p) - 0.5 <= r as real <= AdjustedTarget(p) + 0.5
  {
    RoundHalfEven(AdjustedTarget(p))
  }

  /** Rounding never reverses the order of two reals. */
  lemma RoundMonotone(x: real, y: real)
    requires x <= y
    ensures RoundHalfEven(x) <= RoundHalfEven(y)
  {
  }

  /** The female basal rate is the male one minus 166 kcal, all else being equal. */
  lemma FemaleBmrIsMaleMinus166(p: UserProfile)
    ensures CalcBmr(p.(gender := Female)) == CalcBmr(p.(gender := Male)) - 166.0
  {
  }

  /** With every other field fixed, lose <= maintain <= gain. The order is not
      strict: both lower goals may be lifted to the same floor. */
  lemma GoalOrdering(p: UserProfile)
    ensures TargetCalories(p.(goal := Lose)) <= TargetCalories(p.(goal := Maintain))
    ensures TargetCalories(p.(goal := Maintain)) <= TargetCalories(p.(goal := Gain))
  {
    var lose, keep, gain := p.(goal := Lose), p.(goal := Maintain), p.(goal := Gain);
    assert Tdee(lose) == Tdee(keep) == Tdee(gain);
    RoundMonotone(AdjustedTarget(lose), AdjustedTarget(keep));
    RoundMonotone(AdjustedTarget(keep), AdjustedTarget(gain));
  }

  /** Above the floor the goals are strictly ordered: once losing still stays at
      or above 1200 kcal, lose < maintain < gain. */
  lemma GoalOrderingStrictAboveFloor(p: UserProfile)
    requires Tdee(p) - LoseOffset >= CalorieFloor
    ensures TargetCalories(p.(goal := Lose)) < TargetCalories(p.(goal := Maintain))
    ensures TargetCalories(p.(goal := Maintain)) < TargetCalories(p.(goal := Gain))
  {
    var lose, keep, gain := p.(goal := Lose), p.(goal := Maintain), p.(goal := Gain);
    assert Tdee(lose) == Tdee(keep) == Tdee(gain) == Tdee(p);
    assert AdjustedTarget(lose) == Tdee(p) - LoseOffset;
    assert AdjustedTarget(keep) == Tdee(p);
    assert AdjustedTarget(gain) == Tdee(p) + GainOffset;
  }

  /** A 30-year-old man, 180 cm, 80 kg, medium activity: basal rate 1780 kcal and a
      maintaining target of 2759 kcal; losing weight gives 2359 kcal. */
  lemma ExampleMaintainAndLose()
    ensures CalcBmr(UserProfile(30, Male, 180.0, 80.0, Medium, Maintain, 3)) == 1780.0
    ensures TargetCalories(UserProfile(30, Male, 180.0, 80.0, Medium, Maintain, 3)) == 2759
    ensures TargetCalories(UserProfile(30, Male, 180.0, 80.0, Medium, Lose, 3)) == 2359
  {
    var keep := UserProfile(30, Male, 180.0, 80.0, Medium, Maintain, 3);
    var lose := keep.(goal := Lose);
    assert AdjustedTarget(keep) == 2759.0;
    assert AdjustedTarget(lose) == 2359.0;
    assert (2759.0).Floor == 2759;
    assert (2359.0).Floor == 2359;
  }

  /** A very low basal rate is lifted to exactly the floor. */
  lemma ExampleFloor()
    ensures TargetCalories(UserProfile(90, Female, 120.0, 30.0, Low, Lose, 3)) == 1200
  {
    var p := UserProfile(90, Female, 120.0, 30.0, Low, Lose, 3);
    assert CalcBmr(p) == 439.0;
    assert AdjustedTarget(p) == CalorieFloor;
    assert (1200.0).Floor == 1200;
  }
}
