# DietBot planner core in Dafny

A Dafny model of the logic of the DietBot diet planner (`diet_logic.py`): the
daily calorie target and the meal-plan generator.

- **Calorie model** (`calorie_model.dfy`, module `CalorieModel`). The Mifflin-St Jeor
  basal rate is `10·weight + 6.25·height − 5·age + 5` for men and `… − 161` for women.
  It is multiplied by an activity factor: 1.2 for low, 1.55 for medium and 1.725 for high.
  The goal then shifts it: lose subtracts 400 kcal, gain adds 300, maintain keeps it.
  The result is floored at 1200 kcal and rounded to an integer with ties to even, as Python's `round` does.
  The arithmetic is exact over reals.
- **Plan generator** (`plan_generator.dfy`, module `PlanGenerator`).
  - The food catalog is a parameter: a map from meal category to its candidate items.
  - `PickItem` picks any item whose name is not yet used, or any item of the category
    once all are used. This models `random.choice`.
  - The caller's `used` set is an object (`UsedNames`) that the day generator changes in place.
  - `GenerateDayPlan` first lays down the base meals: breakfast, lunch and dinner, plus
    0, 1 or 2 snacks for 3, 4 or 5 meals a day. It then adds up to 3 top-up snacks while
    the day is more than 200 kcal short of the target.
  - `GenerateWeekPlan` computes the target once and generates 7 days in order, all sharing one used set.
  - The generator's contracts are stated through specification predicates.
    `DayPlanOk` says what one day promises. `DaysOk` says what a week promises.
    `PicksOk` holds when every meal was picked under the fresh-name rule against the names used before it.
- **Properties** (`plan_properties.dfy`, module `PlanProperties`): lemmas derived from those
  predicates. They cover the shape and size of a day and of a week, the top-up exit condition,
  and when a name may repeat. `DayTotals`, `TopUpExit`, `DayLength` and `WeekTargetsAgree`
  are corollaries: each unpacks one conjunct of `DayPlanOk` or `DaysOk` under its own name.
  The proof of those facts is in the loop invariants of `GenerateDayPlan` and `GenerateWeekPlan`.

Facts about the code that this model follows:

- `meals_per_day` is dispatched as "3", "4", "anything else". Any value other than 3 and 4
  gets the five-category sequence. `MealTypes` keeps that `else` branch.
- The goal ordering is `lose ≤ maintain ≤ gain`, not strict. The 1200 kcal floor can lift
  both `lose` and `maintain` to the same value. `GoalOrderingStrictAboveFloor` proves the
  strict order once the `lose` value stays above the floor.
- For a 30-year-old man, 180 cm, 80 kg, with medium activity, the formula gives a basal rate
  of 1780 kcal. The maintenance target is 2759 kcal and the weight-loss target 2359 kcal
  (`ExampleMaintainAndLose`).

## Model

| member | source | states |
|---|---|---|
| `CalorieModel.CalcBmr` | Student-Projects/group06/DietProjekt/diet_logic.py:26-30 | the Mifflin-St Jeor rate `10·w + 6.25·h − 5·a + 5` (male) or `− 161` (female); within the form's input ranges it lies between 439 and 3330 kcal. Its partner `FemaleBmrIsMaleMinus166` relates the two branches |
| `CalorieModel.ActivityFactor` | Student-Projects/group06/DietProjekt/diet_logic.py:33-34 | every activity multiplier lies between 1.2 (low) and 1.725 (high) |
| `CalorieModel.Tdee` | Student-Projects/group06/DietProjekt/diet_logic.py:38 | for a non-negative basal rate, the expenditure lies between 1.2 and 1.725 times it |
| `CalorieModel.GoalAdjusted` | Student-Projects/group06/DietProjekt/diet_logic.py:40-43 | lose lowers the expenditure, gain raises it and maintain keeps it; the shift is at most 400 kcal down and 300 kcal up |
| `CalorieModel.AdjustedTarget` | Student-Projects/group06/DietProjekt/diet_logic.py:38-45 | the goal-adjusted expenditure after `max(tdee, 1200)`: at least 1200, at least the goal-adjusted value, and equal to one of them |
| `CalorieModel.RoundHalfEven` | Student-Projects/group06/DietProjekt/diet_logic.py:46 | `round` returns an integer within 1/2 of its argument; on an exact tie it returns the even neighbour |
| `CalorieModel.TargetCalories` | Student-Projects/group06/DietProjekt/diet_logic.py:37-46 | the daily target is never below 1200 and lies within 1/2 kcal of the floored, goal-adjusted expenditure |
| `CalorieModel.RoundMonotone` | Student-Projects/group06/DietProjekt/diet_logic.py:46 | rounding preserves the order of its arguments |
| `CalorieModel.FemaleBmrIsMaleMinus166` | Student-Projects/group06/DietProjekt/diet_logic.py:26-30 | with all other fields equal, the female basal rate is the male one minus 166 |
| `CalorieModel.GoalOrdering` | Student-Projects/group06/DietProjekt/diet_logic.py:37-46 | with all other fields fixed, target(lose) ≤ target(maintain) ≤ target(gain) |
| `CalorieModel.GoalOrderingStrictAboveFloor` | Student-Projects/group06/DietProjekt/diet_logic.py:37-46 | when expenditure − 400 ≥ 1200, target(lose) < target(maintain) < target(gain) |
| `CalorieModel.ExampleMaintainAndLose` | Student-Projects/group06/DietProjekt/diet_logic.py:26-46 | the worked profile (30, male, 180 cm, 80 kg, medium) has a basal rate of 1780 and targets of 2759 (maintain) and 2359 (lose) |
| `CalorieModel.ExampleFloor` | Student-Projects/group06/DietProjekt/diet_logic.py:37-46 | a very low basal rate (90, female, 120 cm, 30 kg, low, lose) is clamped to exactly 1200 |
| `PlanGenerator.Candidates` | Student-Projects/group06/DietProjekt/diet_logic.py:51-52 | the candidates are exactly the items whose name is not used; there are none exactly when every name is used |
| `PlanGenerator.PickItem` | Student-Projects/group06/DietProjekt/diet_logic.py:49-54 | the pick is a member of the category's items; if some item's name is unused, the picked name is unused |
| `PlanGenerator.MealTypes` | Student-Projects/group06/DietProjekt/diet_logic.py:61-66 | the base sequence starts breakfast, lunch, dinner, then holds only snacks; its length is 3, 4 or otherwise 5 |
| `PlanGenerator.UsedNames.constructor` | Student-Projects/group06/DietProjekt/diet_logic.py:88 | the week's used set starts empty |
| `PlanGenerator.UsedNames.Add` | Student-Projects/group06/DietProjekt/diet_logic.py:70 | adding a name grows the set by exactly that name |
| `PlanGenerator.AddMeal` | Student-Projects/group06/DietProjekt/diet_logic.py:69-72 | one pick-record-append step: the meal list grows by one entry of the requested category, and the running total, the used set and the pick rule stay in step with the meals |
| `PlanGenerator.GenerateDayPlan` | Student-Projects/group06/DietProjekt/diet_logic.py:57-83 | the day satisfies `DayPlanOk`: the base categories come in order; then come only snacks, each added while the shortfall exceeded 200, at most 3 of them; the loop stopped at shortfall ≤ 200 or after 3; every meal was picked by the rule against the names used before it; `total_kcal` is the sum of the meals and `target_kcal` the argument. The used set becomes the old set plus the day's names |
| `PlanGenerator.GenerateWeekPlan` | Student-Projects/group06/DietProjekt/diet_logic.py:86-94 | the target is `TargetCalories(profile)`; there are exactly 7 days; day d satisfies `DayPlanOk` for that target against the names of days 0..d−1; the week's meals, read as one sequence from an empty used set, obey the pick rule |
| `PlanGenerator.PicksOkConcat` | Student-Projects/group06/DietProjekt/diet_logic.py:88-92 | picks made against a used set, followed by picks made against that set plus the first picks' names, form one valid run of picks (the used set threaded through days) |
| `PlanGenerator.WeekStep` | Student-Projects/group06/DietProjekt/diet_logic.py:91-92 | one more day generated against the current used set extends a valid week, and the used set becomes the week's names |
| `PlanProperties.DayShape` | Student-Projects/group06/DietProjekt/diet_logic.py:61-81 | a day starts breakfast, lunch, dinner; every later meal is a snack; its length lies between the base count (3/4/5) and the base count plus 3 |
| `PlanProperties.DayTotals` | Student-Projects/group06/DietProjekt/diet_logic.py:72-83 | `total_kcal` equals the sum of the meals' kcal and `target_kcal` equals the argument |
| `PlanProperties.TopUpExit` | Student-Projects/group06/DietProjekt/diet_logic.py:75-81 | at loop exit, either target − total ≤ 200 or exactly 3 top-ups were added |
| `PlanProperties.NoTopUpWhenClose` | Student-Projects/group06/DietProjekt/diet_logic.py:75-81 | if the base meals leave a shortfall of at most 200, no top-up is added |
| `PlanProperties.RepeatOnlyWhenExhausted` | Student-Projects/group06/DietProjekt/diet_logic.py:49-81 | when a name repeats, every item of the repeated meal's category had been used when it was picked (within a day, and across the week through `GenerateWeekPlan`) |
| `PlanProperties.DayLength` | Student-Projects/group06/DietProjekt/diet_logic.py:68-81 | a day holds between len(types) and len(types)+3 meals |
| `PlanProperties.WeekSize` | Student-Projects/group06/DietProjekt/diet_logic.py:86-94 | a week's meal count lies between 7·len(types) and 7·(len(types)+3) |
| `PlanProperties.WeekTargetsAgree` | Student-Projects/group06/DietProjekt/diet_logic.py:86-94 | every day's `target_kcal` equals the week's `kcal_target` |

## Left out

- Floating point: the calorie formula is computed over exact reals. The model does not capture the IEEE-754 rounding of `10 * w + 6.25 * h …` and `* 1.55`. So a value that lands within a few ulps of a .5 tie may round differently in the program.
- The distribution of `random.choice`: the model only states that the choice lies in the candidate list. Fairness and uniformity are not modelled.
- The food catalog (`foods.py`) is not part of this model. It is a parameter, and each category's list is required to be non-empty.
- GenerateDayPlan: requires every category, snacks included, to be present and non-empty. With 3 meals a day and no top-up the program never reads the snack list. A missing or empty list would make the program raise `KeyError` or `IndexError`, and the model has no such error path.
- The surrounding form (`app.py`): its input validation and ranges (age 10–90, height 120–220, weight 30–200) and its display. Profile fields are unconstrained here; `InFormRanges` names the form's ranges, and only `CalcBmr`'s bounds use them.
- Persistence (`utils.py`): the timestamped JSON file write and its round trip. This is file I/O and the clock.
- The advisory service (`ai.py`): calls to remote and local language-model endpoints with string fallbacks. This is network I/O.
- Python's dictionaries for meals and days (`{"type", "name", "kcal"}`) are represented as datatypes. Their key names and JSON shape are not modelled.
