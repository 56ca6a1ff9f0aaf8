/** Consequences of the generator's contracts: the shape and size of a day, when
    top-ups happen, and when a food name can repeat. */
module PlanProperties {
  import opened PlanGenerator

  /** A generated day opens with breakfast, lunch and dinner, then holds only snacks:
      0, 1 or 2 base snacks for 3, 4 or 5 meals a day, plus at most MaxTopUps top-ups. */
  lemma DayShape(mealsPerDay: int, kcalTarget: int, catalog: Catalog, used: set<string>, day: DayPlan)
    requires DayPlanOk(mealsPerDay, kcalTarget, catalog, used, day)
    ensures day.meals[0].mealType == Breakfast
    ensures day.meals[1].mealType == Lunch
    ensures day.meals[2].mealType == Dinner
    ensures forall i :: 3 <= i < |day.meals| ==> day.meals[i].mealType == Snack
    ensures var base := if mealsPerDay == 3 then 3 else if mealsPerDay == 4 then 4 else 5;
            base <= |day.meals| <= base + MaxTopUps
  {
    var types := MealTypes(mealsPerDay);
    forall i | 3 <= i < |day.meals|
      ensures day.meals[i].mealType == Snack
    {
      if i < |types| {
        assert day.meals[i].mealType == types[i];
      }
    }
  }

  /** The day's recorded total is the calorie sum of its meals, and its target is
      the one it was generated for. */
  lemma DayTotals(mealsPerDay: int, kcalTarget: int, catalog: Catalog, used: set<string>, day: DayPlan)
    requires DayPlanOk(mealsPerDay, kcalTarget, catalog, used, day)
    ensures day.totalKcal == SumKcal(day.meals)
    ensures day.targetKcal == kcalTarget
  {
  }

  /** The top-up loop ends with the shortfall at most TopUpThreshold, or after
      exactly MaxTopUps top-ups. */
  lemma TopUpExit(mealsPerDay: int, kcalTarget: int, catalog: Catalog, used: set<string>, day: DayPlan)
    requires DayPlanOk(mealsPerDay, kcalTarget, catalog, used, day)
    ensures kcalTarget - day.totalKcal <= TopUpThreshold ||
            |day.meals| == |MealTypes(mealsPerDay)| + MaxTopUps
  {
  }

  /** No top-up is added when the base meals already come within TopUpThreshold of
      the target. */
  lemma NoTopUpWhenClose(mealsPerDay: int, kcalTarget: int, catalog: Catalog, used: set<string>, day: DayPlan)
    requires DayPlanOk(mealsPerDay, kcalTarget, catalog, used, day)
    requires kcalTarget - SumKcal(day.meals[..|MealTypes(mealsPerDay)|]) <= TopUpThreshold
    ensures |day.meals| == |MealTypes(mealsPerDay)|
  {
  }

  /** Every earlier meal's name is among the names used before a later meal. */
  lemma {:induction false} NameInPrefix(meals: seq<MealEntry>, i: nat, j: nat)
    requires i < j <= |meals|
    ensures meals[i].name in Names(meals[..j])
    decreases j
  {
    var p := meals[..j];
    assert p[..j - 1] == meals[..j - 1];
    if i < j - 1 {
      NameInPrefix(meals, i, j - 1);
    }
  }

  /** A name that repeats was picked again only because, at that moment, every item
      of its category had already been used. This holds for any run of picks, so
      for one day and, through GenerateWeekPlan's contract, for the whole week. */
  lemma RepeatOnlyWhenExhausted(catalog: Catalog, used: set<string>, meals: seq<MealEntry>, i: nat, j: nat)
    requires PicksOk(catalog, used, meals)
    requires i < j < |meals| && meals[i].name == meals[j].name
    ensures meals[j].mealType in catalog
    ensures Exhausted(catalog[meals[j].mealType], used + Names(meals[..j]))
  {
    NameInPrefix(meals, i, j);
  }

  /** A generated day holds between the base count and the base count plus
      MaxTopUps meals. */
  lemma DayLength(mealsPerDay: int, kcalTarget: int, catalog: Catalog, used: set<string>, day: DayPlan)
    requires DayPlanOk(mealsPerDay, kcalTarget, catalog, used, day)
    ensures |MealTypes(mealsPerDay)| <= |day.meals| <= |MealTypes(mealsPerDay)| + MaxTopUps
  {
  }

  /** If every day holds between `lo` and `hi` meals, the week holds between
      |days| * lo and |days| * hi. */
  lemma {:induction false} WeekMealsBounds(days: seq<DayPlan>, lo: nat, hi: nat)
    requires forall d :: 0 <= d < |days| ==> lo <= |days[d].meals| <= hi
    ensures |days| * lo <= |WeekMeals(days)| <= |days| * hi
    decreases |days|
  {
    if days != [] {
      var n := |days| - 1;
      WeekMealsBounds(days[..n], lo, hi);
      assert |WeekMeals(days)| == |WeekMeals(days[..n])| + |days[n].meals|;
      MulSucc(n, lo);
      MulSucc(n, hi);
    }
  }

  lemma MulSucc(n: nat, k: nat)
    ensures (n + 1) * k == n * k + k
  {
  }

  /** A week's meal count lies between that of only base days and that of only
      fully topped-up days. */
  lemma WeekSize(mealsPerDay: int, kcalTarget: int, catalog: Catalog, days: seq<DayPlan>)
    requires DaysOk(mealsPerDay, kcalTarget, catalog, days)
    ensures |days| * |MealTypes(mealsPerDay)| <= |WeekMeals(days)|
    ensures |WeekMeals(days)| <= |days| * (|MealTypes(mealsPerDay)| + MaxTopUps)
  {
    var lo, hi := |MealTypes(mealsPerDay)|, |MealTypes(mealsPerDay)| + MaxTopUps;
    forall d | 0 <= d < |days|
      ensures lo <= |days[d].meals| <= hi
    {
      DayLength(mealsPerDay, kcalTarget, catalog, WeekNames(days[..d]), days[d]);
    }
    WeekMealsBounds(days, lo, hi);
  }

  /** Every day of a week carries the week's target. */
  lemma WeekTargetsAgree(mealsPerDay: int, kcalTarget: int, catalog: Catalog, days: seq<DayPlan>)
    requires DaysOk(mealsPerDay, kcalTarget, catalog, days)
    ensures forall d :: 0 <= d < |days| ==> days[d].targetKcal == kcalTarget
  {
    forall d | 0 <= d < |days|
      ensures days[d].targetKcal == kcalTarget
    {
      assert DayPlanOk(mealsPerDay, kcalTarget, catalog, WeekNames(days[..d]), days[d]);
    }
  }
}
