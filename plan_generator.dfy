/** The meal-plan generator: one day of meals drawn from a food catalog, then a
    week of seven days sharing one set of already-used food names. */
module PlanGenerator {
  import opened CalorieModel

  datatype MealType = Breakfast | Lunch | Dinner | Snack

  /** A catalog entry: a food name and its calorie value. */
  datatype FoodItem = FoodItem(name: string, kcal: int)

  /** The food catalog: candidate items for each meal category. */
  type Catalog = map<MealType, seq<FoodItem>>

  /** One planned meal, as the generator records it. */
  datatype MealEntry = MealEntry(mealType: MealType, name: string, kcal: int)

  datatype DayPlan = DayPlan(meals: seq<MealEntry>, totalKcal: int, targetKcal: int)

  datatype WeekPlan = WeekPlan(kcalTarget: int, days: seq<DayPlan>)

  /** Top-up snacks are added while the shortfall exceeds this many kcal ... */
  const TopUpThreshold: int := 200
  /** ... but at most this many times a day. */
  const MaxTopUps: nat := 3
  const DaysPerWeek: nat := 7

  // ---------------------------------------------------------------------------
  // Catalog and picking

  predicate Stocked(catalog: Catalog, t: MealType)
  {
    t in catalog && |catalog[t]| > 0
  }

  /** Every meal category has at least one candidate item. */
  predicate CatalogOk(catalog: Catalog)
  {
    forall t: MealType :: Stocked(catalog, t)
  }

  /** True when every item of `items` has its name in `used`. */
  predicate Exhausted(items: seq<FoodItem>, used: set<string>)
  {
    forall x :: x in items ==> x.name in used
  }

  /** The items whose names are not yet used, in catalog order. */
  function Candidates(items: seq<FoodItem>, used: set<string>): (r: seq<FoodItem>)
    ensures forall x :: x in r <==> x in items && x.name !in used
    ensures |r| == 0 <==> Exhausted(items, used)
  {
    if items == [] then []
    else
      var rest := Candidates(items[1..], used);
      assert forall x :: x in items <==> x == items[0] || x in items[1..];
      if items[0].name in used then rest else [items[0]] + rest
  }

  /** What a pick promises: an item of the category, and a fresh name unless
      every name of the category has already been used. */
  predicate PickOk(items: seq<FoodItem>, used: set<string>, item: FoodItem)
  {
    item in items && (item.name in used ==> Exhausted(items, used))
  }

  /** Picks any candidate (the random choice), falling back to the whole list
      when every item has been used. */
  method PickItem(items: seq<FoodItem>, used: set<string>) returns (item: FoodItem)
    requires |items| > 0
    ensures item in items
    ensures !Exhausted(items, used) ==> item.name !in used
  {
    var candidates := Candidates(items, used);
    if |candidates| == 0 {
      candidates := items;
    }
    var k :| 0 <= k < |candidates|;
    item := candidates[k];
  }

  // ---------------------------------------------------------------------------
  // Specification of a day

  /** Meal categories laid down before any top-up, by meals per day. */
  function MealTypes(mealsPerDay: int): (r: seq<MealType>)
    ensures |r| == (if mealsPerDay == 3 then 3 else if mealsPerDay == 4 then 4 else 5)
    ensures r[0] == Breakfast && r[1] == Lunch && r[2] == Dinner
    ensures forall i :: 3 <= i < |r| ==> r[i] == Snack
  {
    if mealsPerDay == 3 then [Breakfast, Lunch, Dinner]
    else if mealsPerDay == 4 then [Breakfast, Lunch, Dinner, Snack]
    else [Breakfast, Lunch, Dinner, Snack, Snack]
  }

  function SumKcal(meals: seq<MealEntry>): int
  {
    if meals == [] then 0 else SumKcal(meals[..|meals| - 1]) + meals[|meals| - 1].kcal
  }

  function Names(meals: seq<MealEntry>): set<string>
  {
    if meals == [] then {} else Names(meals[..|meals| - 1]) + {meals[|meals| - 1].name}
  }

  function ItemOf(e: MealEntry): FoodItem
  {
    FoodItem(e.name, e.kcal)
  }

  /** Every meal was picked from its own category under the fresh-name rule,
      against the names used before it: `used` plus the names of the earlier meals. */
  predicate PicksOk(catalog: Catalog, used: set<string>, meals: seq<MealEntry>)
  {
    forall i :: 0 <= i < |meals| ==>
      meals[i].mealType in catalog &&
      PickOk(catalog[meals[i].mealType], used + Names(meals[..i]), ItemOf(meals[i]))
  }

  /** The meals start with the base categories, in order. */
  predicate BaseOk(types: seq<MealType>, meals: seq<MealEntry>)
  {
    |types| <= |meals| &&
    forall i :: 0 <= i < |types| ==> meals[i].mealType == types[i]
  }

  /** After the first `base` meals come only snacks, each added while the day was
      more than TopUpThreshold short of the target. */
  predicate TopUpsSoFar(kcalTarget: int, base: nat, meals: seq<MealEntry>)
  {
    base <= |meals| &&
    (forall i :: base <= i < |meals| ==> meals[i].mealType == Snack) &&
    (forall k :: base <= k < |meals| ==> kcalTarget - SumKcal(meals[..k]) > TopUpThreshold)
  }

  /** The top-up phase: snacks added as above, at most MaxTopUps of them, and adding
      stopped once the shortfall fell to the threshold or the cap was reached. */
  predicate TopUpOk(kcalTarget: int, base: nat, meals: seq<MealEntry>)
  {
    TopUpsSoFar(kcalTarget, base, meals) &&
    |meals| <= base + MaxTopUps &&
    (kcalTarget - SumKcal(meals) <= TopUpThreshold || |meals| == base + MaxTopUps)
  }

  /** Everything a generated day promises, given the names used before it. */
  predicate DayPlanOk(mealsPerDay: int, kcalTarget: int, catalog: Catalog, used: set<string>, day: DayPlan)
  {
    var types := MealTypes(mealsPerDay);
    BaseOk(types, day.meals) &&
    TopUpOk(kcalTarget, |types|, day.meals) &&
    PicksOk(catalog, used, day.meals) &&
    day.totalKcal == SumKcal(day.meals) &&
    day.targetKcal == kcalTarget
  }

  /** All meals of the week, day after day. */
  function WeekMeals(days: seq<DayPlan>): seq<MealEntry>
  {
    if days == [] then [] else WeekMeals(days[..|days| - 1]) + days[|days| - 1].meals
  }

  /** The names the days have used, which is the shared used set after them. */
  function WeekNames(days: seq<DayPlan>): set<string>
  {
    if days == [] then {} else WeekNames(days[..|days| - 1]) + Names(days[|days| - 1].meals)
  }

  /** Every day is a generated day for the one week target, planned against the
      names used by the days before it. */
  predicate DaysOk(mealsPerDay: int, kcalTarget: int, catalog: Catalog, days: seq<DayPlan>)
  {
    forall d :: 0 <= d < |days| ==>
      DayPlanOk(mealsPerDay, kcalTarget, catalog, WeekNames(days[..d]), days[d])
  }

  // ---------------------------------------------------------------------------
  // Lemmas the generator needs

  lemma SumKcalAppend(meals: seq<MealEntry>, e: MealEntry)
    ensures SumKcal(meals + [e]) == SumKcal(meals) + e.kcal
  {
    assert (meals + [e])[..|meals|] == meals;
  }

  lemma NamesAppend(meals: seq<MealEntry>, e: MealEntry)
    ensures Names(meals + [e]) == Names(meals) + {e.name}
  {
    assert (meals + [e])[..|meals|] == meals;
  }

  /** Appending a meal picked against the current used names keeps PicksOk. */
  lemma PicksOkAppend(catalog: Catalog, used: set<string>, meals: seq<MealEntry>, e: MealEntry)
    requires PicksOk(catalog, used, meals)
    requires e.mealType in catalog
    requires PickOk(catalog[e.mealType], used + Names(meals), ItemOf(e))
    ensures PicksOk(catalog, used, meals + [e])
  {
    var m := meals + [e];
    forall i | 0 <= i < |m|
      ensures m[i].mealType in catalog &&
              PickOk(catalog[m[i].mealType], used + Names(m[..i]), ItemOf(m[i]))
    {
      assert m[..i] == meals[..i] || i == |meals|;
      if i == |meals| {
        assert m[..i] == meals;
      }
    }
  }

  /** The running state of a day under construction agrees with its meals: `total`
      is their calorie sum, `names` is `used` plus their names, and every meal was
      picked by the rule. */
  predicate Recorded(catalog: Catalog, used: set<string>, meals: seq<MealEntry>, total: int, names: set<string>)
  {
    total == SumKcal(meals) && names == used + Names(meals) && PicksOk(catalog, used, meals)
  }

  /** Recording one more meal, picked against the current names, keeps the state in step. */
  lemma RecordPick(catalog: Catalog, used: set<string>, meals: seq<MealEntry>, total: int, names: set<string>, e: MealEntry)
    requires Recorded(catalog, used, meals, total, names)
    requires e.mealType in catalog && PickOk(catalog[e.mealType], names, ItemOf(e))
    ensures Recorded(catalog, used, meals + [e], total + e.kcal, names + {e.name})
  {
    PicksOkAppend(catalog, used, meals, e);
    SumKcalAppend(meals, e);
    NamesAppend(meals, e);
  }

  /** The meals placed so far follow the base categories, in order. */
  predicate BaseSoFar(types: seq<MealType>, meals: seq<MealEntry>)
  {
    |meals| <= |types| &&
    forall j :: 0 <= j < |meals| ==> meals[j].mealType == types[j]
  }

  lemma BaseAppend(types: seq<MealType>, meals: seq<MealEntry>, e: MealEntry)
    requires BaseSoFar(types, meals) && |meals| < |types| && e.mealType == types[|meals|]
    ensures BaseSoFar(types, meals + [e])
  {
  }

  /** A snack added while the shortfall exceeds the threshold extends the top-up
      phase, and leaves the base meals in place. */
  lemma TopUpAppend(kcalTarget: int, types: seq<MealType>, meals: seq<MealEntry>, e: MealEntry)
    requires BaseOk(types, meals) && TopUpsSoFar(kcalTarget, |types|, meals)
    requires e.mealType == Snack && kcalTarget - SumKcal(meals) > TopUpThreshold
    ensures BaseOk(types, meals + [e]) && TopUpsSoFar(kcalTarget, |types|, meals + [e])
  {
    var m := meals + [e];
    forall k | |types| <= k < |m|
      ensures kcalTarget - SumKcal(m[..k]) > TopUpThreshold
    {
      if k == |meals| {
        assert m[..k] == meals;
      } else {
        assert m[..k] == meals[..k];
      }
    }
  }

  lemma {:induction false} NamesConcat(a: seq<MealEntry>, b: seq<MealEntry>)
    ensures Names(a + b) == Names(a) + Names(b)
    decreases |b|
  {
    if b == [] {
      assert a + b == a;
    } else {
      var b' := b[..|b| - 1];
      assert a + b == (a + b') + [b[|b| - 1]];
      NamesAppend(a + b', b[|b| - 1]);
      NamesConcat(a, b');
      NamesAppend(b', b[|b| - 1]);
      assert b == b' + [b[|b| - 1]];
    }
  }

  /** Meals picked against `used`, followed by meals picked against `used` plus the
      first meals' names, were all picked against the names used before them. */
  lemma PicksOkConcat(catalog: Catalog, used: set<string>, a: seq<MealEntry>, b: seq<MealEntry>)
    requires PicksOk(catalog, used, a)
    requires PicksOk(catalog, used + Names(a), b)
    ensures PicksOk(catalog, used, a + b)
  {
    var m := a + b;
    forall i | 0 <= i < |m|
      ensures m[i].mealType in catalog &&
              PickOk(catalog[m[i].mealType], used + Names(m[..i]), ItemOf(m[i]))
    {
      if i < |a| {
        assert m[..i] == a[..i];
      } else {
        var j := i - |a|;
        assert m[..i] == a + b[..j];
        NamesConcat(a, b[..j]);
        assert used + Names(m[..i]) == used + Names(a) + Names(b[..j]);
      }
    }
  }

  /** Adding a day generated against the names of the earlier days keeps DaysOk. */
  lemma DaysOkAppend(mealsPerDay: int, kcalTarget: int, catalog: Catalog, days: seq<DayPlan>, day: DayPlan)
    requires DaysOk(mealsPerDay, kcalTarget, catalog, days)
    requires DayPlanOk(mealsPerDay, kcalTarget, catalog, WeekNames(days), day)
    ensures DaysOk(mealsPerDay, kcalTarget, catalog, days + [day])
  {
    var w := days + [day];
    forall d | 0 <= d < |w|
      ensures DayPlanOk(mealsPerDay, kcalTarget, catalog, WeekNames(w[..d]), w[d])
    {
      if d < |days| {
        assert w[..d] == days[..d];
      } else {
        assert w[..d] == days;
      }
    }
  }

  /** The state of a week under construction: every day so far is a generated day,
      the meals so far obey the pick rule as one sequence, and `names` is the shared
      used set after them. */
  predicate WeekSoFar(mealsPerDay: int, kcalTarget: int, catalog: Catalog, days: seq<DayPlan>, names: set<string>)
  {
    names == WeekNames(days) &&
    names == Names(WeekMeals(days)) &&
    DaysOk(mealsPerDay, kcalTarget, catalog, days) &&
    PicksOk(catalog, {}, WeekMeals(days))
  }

  /** A day generated against the current used set extends the week. */
  lemma WeekStep(mealsPerDay: int, kcalTarget: int, catalog: Catalog, days: seq<DayPlan>, names: set<string>, day: DayPlan)
    requires WeekSoFar(mealsPerDay, kcalTarget, catalog, days, names)
    requires DayPlanOk(mealsPerDay, kcalTarget, catalog, names, day)
    ensures WeekSoFar(mealsPerDay, kcalTarget, catalog, days + [day], names + Names(day.meals))
  {
    var w := days + [day];
    assert w[..|days|] == days;
    assert WeekMeals(w) == WeekMeals(days) + day.meals;
    DaysOkAppend(mealsPerDay, kcalTarget, catalog, days, day);
    PicksOkConcat(catalog, {}, WeekMeals(days), day.meals);
    NamesConcat(WeekMeals(days), day.meals);
  }

  // ---------------------------------------------------------------------------
  // The generator

  /** The set of food names already used; the week shares one and every day adds
      to it in place. */
  class UsedNames {
    var names: set<string>

    constructor ()
      ensures names == {}
    {
      names := {};
    }

    method Add(name: string)
      modifies this
      ensures names == old(names) + {name}
    {
      names := names + {name};
    }
  }

  /** One step of either loop of the day: pick an item of `mealType` against the
      used names, add its name to them, append the meal and add its calories. */
  method AddMeal(catalog: Catalog, mealType: MealType, used: UsedNames, ghost used0: set<string>,
                 meals: seq<MealEntry>, total: int)
    returns (e: MealEntry, meals': seq<MealEntry>, total': int)
    requires Stocked(catalog, mealType)
    requires Recorded(catalog, used0, meals, total, used.names)
    modifies used
    ensures meals' == meals + [e] && e.mealType == mealType
    ensures Recorded(catalog, used0, meals', total', used.names)
  {
    var item := PickItem(catalog[mealType], used.names);
    e := MealEntry(mealType, item.name, item.kcal);
    RecordPick(catalog, used0, meals, total, used.names, e);
    used.Add(item.name);
    meals' := meals + [e];
    total' := total + item.kcal;
  }

  /** Builds one day: the base meals, then top-up snacks while the day falls more
      than TopUpThreshold short of the target, at most MaxTopUps times. Every picked
      name is added to `used`. */
  method GenerateDayPlan(profile: UserProfile, kcalTarget: int, catalog: Catalog, used: UsedNames)
    returns (day: DayPlan)
    requires CatalogOk(catalog)
    modifies used
    ensures DayPlanOk(profile.mealsPerDay, kcalTarget, catalog, old(used.names), day)
    ensures used.names == old(used.names) + Names(day.meals)
  {
    ghost var used0 := used.names;
    var meals: seq<MealEntry> := [];
    var total := 0;

    var types := MealTypes(profile.mealsPerDay);
    for i := 0 to |types|
      invariant |meals| == i && BaseSoFar(types, meals)
      invariant Recorded(catalog, used0, meals, total, used.names)
    {
      assert Stocked(catalog, types[i]);
      var e, meals', total' := AddMeal(catalog, types[i], used, used0, meals, total);
      BaseAppend(types, meals, e);
      meals, total := meals', total';
    }

    var safety := 0;
    while kcalTarget - total > TopUpThreshold && safety < MaxTopUps
      invariant 0 <= safety <= MaxTopUps
      invariant |meals| == |types| + safety
      invariant BaseOk(types, meals) && TopUpsSoFar(kcalTarget, |types|, meals)
      invariant Recorded(catalog, used0, meals, total, used.names)
      decreases MaxTopUps - safety
    {
      assert Stocked(catalog, Snack);
      var e, meals', total' := AddMeal(catalog, Snack, used, used0, meals, total);
      TopUpAppend(kcalTarget, types, meals, e);
      meals, total := meals', total';
      safety := safety + 1;
    }

    day := DayPlan(meals, total, kcalTarget);
  }

  /** Builds the week: the target is computed once, and seven days are generated in
      order, all adding to one used set that starts empty. */
  method GenerateWeekPlan(profile: UserProfile, catalog: Catalog) returns (week: WeekPlan)
    requires CatalogOk(catalog)
    ensures week.kcalTarget == TargetCalories(profile)
    ensures |week.days| == DaysPerWeek
    ensures DaysOk(profile.mealsPerDay, week.kcalTarget, catalog, week.days)
    ensures PicksOk(catalog, {}, WeekMeals(week.days))
  {
    var kcal := TargetCalories(profile);
    var used := new UsedNames();

    var days: seq<DayPlan> := [];
    for n := 0 to DaysPerWeek
      invariant |days| == n
      invariant WeekSoFar(profile.mealsPerDay, kcal, catalog, days, used.names)
    {
      ghost var before := used.names;
      var day := GenerateDayPlan(profile, kcal, catalog, used);
      WeekStep(profile.mealsPerDay, kcal, catalog, days, before, day);
      days := days + [day];
    }

    week := WeekPlan(kcal, days);
  }
}
