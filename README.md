# Daily menu generation, modelled in Dafny

This project models the daily menu engine of the nutrition API. The engine takes a
user's nutrition profile (calorie and macro targets), the user's liked and disliked
foods, their dietary restrictions and the food catalog. From these it builds one day
of four meals: breakfast, lunch, dinner and snack. It stores the day and returns it
in a response shape. If the day was already generated, it returns the stored day
instead.

The model follows the engine's structure, one module per source file:

- `JsMath` (`js_math.dfy`): `Math.round`, rounding to one decimal, `Math.min`/`Math.max`.
- `MenuTypes` (`menu_types.dfy`): foods, macro vectors, meal items, meals, the
  portion table and the meal split (`app/types/menu.ts`).
- `MacroSolver` (`macro_solver.dfy`): the macros of a portion, grams for a
  calorie or protein target, sums of item macros, and deviation and tolerance.
- `PortionAdjuster` (`portion_adjuster.dfy`): each category's portion bounds,
  clamping to a realistic multiple of 5 g, proportional scaling and the
  distribution of leftover calories.
- `FoodSelection` (`food_selector.dfy`): the `FoodSelector` class: dislike and
  restriction filtering, the five buckets, the liked-first ordering, and food
  selection with its used-food set.
- `MealBuilding` (`meal_builder.dfy`): the `MealBuilder` class: one meal from the
  buckets, with initial portions from calorie shares and at most five
  re-scaling passes towards the meal's calorie target.
- `MenuGenerator` (`menu_generator.dfy`): the `MenuGeneratorService` class: target
  extraction, availability checks, the four meals in order, day totals, storing
  the menu, regrouping stored rows into meals, and the whole `generateMenu` flow.
- `NutritionCalculator` (`nutrition_calculator.dfy`): the onboarding calculator
  that produces the profile's targets (Mifflin-St Jeor BMR, TDEE, goal
  adjustment and macro split).

Each stateful source class is a Dafny class, and the fields it updates stay
fields. The selector's set of used food ids is the main one, and the meal builder
and the service reach it through the shared selector. Each method is proved equal
to a specification function of the inputs and the old state: `SelectSpec`,
`BuildMealSpec`, `DayMealsSpec`, `FormatSpec`, `GenerateSpec`. The properties of
the engine are then proved about those functions as lemmas.

The database is not modelled as a service; it enters the model as parameters:
- the menu already stored for the day (an `Option`);
- the user with their profile;
- the catalog;
- the id the new row receives.

What `generateMenu` returns and what it stores are modelled as an `Outcome` value.
Every thrown error becomes an `Err` result.

## Model

| member | source | states |
|---|---|---|
| JsMath.Round | app/services/nutrition_calculator.ts:31-35 | `Math.round` gives the integer n with x - 0.5 < n <= x + 0.5, so halves round up |
| JsMath.Round1 | app/services/menu/MacroSolver.ts:17-21 | rounding to one decimal moves a value by at most 0.05, and the result has one decimal |
| JsMath.OneDecimalSum | app/services/menu/MacroSolver.ts:44-54 | adding two one-decimal values and rounding to one decimal again gives the exact sum |
| MenuTypes.MealWeight | app/types/menu.ts:79-85 | every meal's share of the day is strictly between 0 and 1 |
| MenuTypes.MealWeightsSumToOne | app/types/menu.ts:79-85 | the four meal shares add up to exactly 1, and the meal order is breakfast, lunch, dinner, snack |
| MenuTypes.PortionTableIsComplete | app/types/menu.ts:70-77 | every food category has a portion row; every row has 0 < min <= max, and both bounds are multiples of 5 g |
| MenuTypes.InPortionAsWritten | app/services/menu/PortionAdjuster.ts:48-52 | the two spellings of "nutrient in a portion" agree: `per100g * (grams / 100)` equals `per100g * grams / 100` |
| MacroSolver.CalculateMacros | app/services/menu/MacroSolver.ts:12-22 | the item keeps the food and grams; each macro is the portion's exact amount rounded to one decimal, so it is within 0.05 of it; all macros are non-negative for a non-negative food; 0 g has no macros |
| MacroSolver.GramsForCalories | app/services/menu/MacroSolver.ts:28-31 | a food without positive calories gives 0 g; otherwise that many grams of the food have exactly the target calories, and a non-negative target gives non-negative grams |
| MacroSolver.GramsForProtein | app/services/menu/MacroSolver.ts:36-39 | the same on protein: 0 g for a protein-free food, otherwise exactly the target protein |
| MacroSolver.SumMacros | app/services/menu/MacroSolver.ts:44-54 | the empty list sums to the zero vector, and every total has one decimal |
| MacroSolver.SumMacrosIsExact | app/services/menu/MacroSolver.ts:44-54 | on items whose macros have one decimal, the fold that rounds after every item equals the exact field-wise sum |
| MacroSolver.SumMacrosError | app/services/menu/MacroSolver.ts:44-54 | on any items, each total is within 0.05 per item of the exact sum |
| MacroSolver.ExactTotalAppend | app/services/menu/MacroSolver.ts:44-54 | the exact total of two concatenated lists is the sum of the two totals |
| MacroSolver.ConsistentItemsAreOneDecimal | app/services/menu/MacroSolver.ts:17-21 | an item built by the portion formula holds one-decimal macros |
| MacroSolver.MacroDeviation | app/services/menu/MacroSolver.ts:59-67 | with positive targets, the average relative deviation is never negative and is 0 exactly when actual equals target |
| MacroSolver.IsWithinTolerance | app/services/menu/MacroSolver.ts:72-78 | holds exactly when the deviation is at most the tolerance, so an exact match passes any non-negative tolerance |
| PortionAdjuster.GetConstraints | app/services/menu/PortionAdjuster.ts:12-17 | returns the category's table row (the fallback is never needed); 0 < min <= max, both multiples of 5 g |
| PortionAdjuster.ClampPortion | app/services/menu/PortionAdjuster.ts:22-27 | the result is a multiple of 5 g inside the category's bounds, and within 2.5 g of the grams clamped to those bounds |
| PortionAdjuster.IsRealisticPortion | app/services/menu/PortionAdjuster.ts:32-35 | a realistic portion is positive. ClampPortion always returns a realistic portion, and ClampFixedPoints shows that the realistic multiples of 5 g are exactly the portions clamping leaves unchanged |
| PortionAdjuster.ClampStaysInBounds | app/services/menu/PortionAdjuster.ts:24-26 | rounding an in-bounds value to the nearest 5 g cannot leave bounds that are multiples of 5 |
| PortionAdjuster.ClampFixedPoints | app/services/menu/PortionAdjuster.ts:22-35 | clamping leaves a portion unchanged exactly when it is realistic and a multiple of 5 g |
| PortionAdjuster.ClampIdempotent | app/services/menu/PortionAdjuster.ts:22-27 | clamping twice is clamping once |
| PortionAdjuster.ScaleBaseCalories | app/services/menu/PortionAdjuster.ts:46-60 | scaling every base portion by a factor scales the total calories by that factor |
| PortionAdjuster.ScaledPortionsHitTarget | app/services/menu/PortionAdjuster.ts:55-60 | before clamping, scaled portions carry exactly the target calories |
| PortionAdjuster.AdjustPortionsForCalories | app/services/menu/PortionAdjuster.ts:41-64 | keeps the length and each food; with zero base calories every portion is 100 g; otherwise each portion is the clamp of its base grams times target / base calories |
| PortionAdjuster.ExtraGrams | app/services/menu/PortionAdjuster.ts:76-80 | the grams added to one food carry exactly an equal share of the leftover calories |
| PortionAdjuster.DistributeRemainingCalories | app/services/menu/PortionAdjuster.ts:70-84 | an empty list or no leftover calories leaves the portions unchanged; otherwise each food keeps its place and gets the clamp of its grams plus its share |
| FoodSelection.LikedNames | app/services/menu/FoodSelector.ts:19-21 | the liked-name set is exactly the lower-cased names of the liked preferences |
| FoodSelection.DislikedNames | app/services/menu/FoodSelector.ts:22-24 | the disliked-name set is exactly the lower-cased names of the disliked preferences |
| FoodSelection.MapRestrictionToTag | app/services/menu/FoodSelector.ts:81-92 | every restriction maps to the tag with its own name |
| FoodSelection.MeetsAllIsConjunctive | app/services/menu/FoodSelector.ts:63-76 | a food meets the restrictions exactly when each one is among its lower-cased tags; no restrictions always pass |
| FoodSelection.FilterFoods | app/services/menu/FoodSelector.ts:41-57 | the result is a subsequence of the catalog; a food is in it exactly when it is in the catalog, is not disliked and meets every restriction |
| FoodSelection.BucketOf | app/services/menu/FoodSelector.ts:106-131 | a mixed food is a protein when it has at least 10 g of protein per 100 g and a carb otherwise; every other category goes to its own bucket |
| FoodSelection.InBucketMembers | app/services/menu/FoodSelector.ts:106-131 | a bucket's members are exactly the input foods routed to it |
| FoodSelection.BucketsPartition | app/services/menu/FoodSelector.ts:97-140 | the five buckets together hold the input as a multiset, so each food lands in exactly one bucket |
| FoodSelection.NameLeqTotal | app/services/menu/FoodSelector.ts:152 | any two names are comparable in the name order |
| FoodSelection.NameLeqTransitive | app/services/menu/FoodSelector.ts:152 | the name order is transitive |
| FoodSelection.NameLeqAntisymmetric | app/services/menu/FoodSelector.ts:152 | two names that order both ways are equal |
| FoodSelection.PreferenceLeq | app/services/menu/FoodSelector.ts:146-153 | a liked food comes before a non-liked one and never after it; two foods of the same group are ordered by name. PreferenceLeqTotal and PreferenceLeqTransitive make the comparator a total preorder |
| FoodSelection.PreferenceLeqTotal | app/services/menu/FoodSelector.ts:146-153 | the comparator orders any two foods one way or the other |
| FoodSelection.PreferenceLeqTransitive | app/services/menu/FoodSelector.ts:146-153 | the comparator is transitive, so it is a total preorder and the sort is well defined |
| FoodSelection.PreferenceOrderIsStrict | app/services/menu/FoodSelector.ts:146-153 | a liked food sorts strictly before a food that is not liked |
| FoodSelection.SortByPreference | app/services/menu/FoodSelector.ts:145-154 | the result is sorted by the comparator and is a permutation of the input |
| FoodSelection.SortedMeansLikedFirstThenByName | app/services/menu/FoodSelector.ts:145-154 | in a sorted list every liked food comes before every other food, and names ascend within each group |
| FoodSelection.SortedArrangementIsUnique | app/services/menu/FoodSelector.ts:145-154 | with distinct names, any two sorted permutations of the same foods are equal, so the order does not depend on how the sort is done |
| FoodSelection.CategorizedBuckets | app/services/menu/FoodSelector.ts:97-140 | each bucket is a sorted permutation of the input foods routed to it, and holds exactly those foods |
| FoodSelection.CategorizedFoodsComeFromInput | app/services/menu/FoodSelector.ts:97-140 | every food in a bucket is an input food |
| FoodSelection.FirstUnused | app/services/menu/FoodSelector.ts:160-165 | returns the first index whose food is unused; every earlier food is used |
| FoodSelection.LikedAmong | app/services/menu/FoodSelector.ts:167-169 | a subsequence of the list, so list order is kept, holding exactly the liked foods of the list |
| FoodSelection.FirstLiked | app/services/menu/FoodSelector.ts:166-171 | with a liked food in the list, the liked fallback is the first liked food |
| FoodSelection.SelectSpec | app/services/menu/FoodSelector.ts:159-175 | no pick exactly when the list is empty; otherwise the pick is from the list; the used set only grows |
| FoodSelection.SelectTakesFirstUnused | app/services/menu/FoodSelector.ts:159-165 | with an unused food, the pick is the first unused one, and exactly its id is added |
| FoodSelection.SelectWhenExhausted | app/services/menu/FoodSelector.ts:166-174 | when every food is used, the used set stays the same and the pick is the first liked food, or else the first food |
| FoodSelection.FreshRunTakesPrefix | app/services/menu/FoodSelector.ts:159-165 | from a fresh selector over distinct ids, n selections return the list's first n foods in order and mark exactly their ids |
| FoodSelection.FreshRunHasNoRepeats | app/services/menu/FoodSelector.ts:159-165 | so such a run picks no food twice |
| FoodSelection.FoodSelector.constructor | app/services/menu/FoodSelector.ts:15-27 | the liked and disliked name sets and the lower-cased restrictions from the input, and an empty used-food set |
| FoodSelection.FoodSelector.MeetsRestrictions | app/services/menu/FoodSelector.ts:63-76 | the loop's answer is the conjunctive restriction test |
| FoodSelection.FoodSelector.CategorizeFoods | app/services/menu/FoodSelector.ts:97-140 | the loop and per-bucket sorts produce exactly the specified categorisation |
| FoodSelection.FoodSelector.GetCategorizedFoods | app/services/menu/FoodSelector.ts:32-36 | the buckets are the categorisation of the filtered catalog |
| FoodSelection.FoodSelector.SelectFood | app/services/menu/FoodSelector.ts:159-175 | the pick and the new used set are those of the selection specification on the old used set |
| FoodSelection.FoodSelector.ResetUsedFoods | app/services/menu/FoodSelector.ts:180-182 | the used set becomes empty |
| MealBuilding.ProduceSpec | app/services/menu/MealBuilder.ts:80-91 | no produce exactly when both produce buckets are empty; the pick is a vegetable or fruit; the preferred bucket (fruit for breakfast and snack, vegetables otherwise) is used when it is non-empty |
| MealBuilding.PickSpec | app/services/menu/MealBuilder.ts:26-31 | each slot is empty exactly when its bucket is empty; the fat slot is also empty for a snack, since `shouldIncludeFat` (MealBuilder.ts:97-99) excludes only the snack; each pick is from its own bucket; the used set only grows |
| MealBuilding.PicksMarkChosenFoods | app/services/menu/MealBuilder.ts:26-31 | the meal's selections add exactly the ids of the chosen foods to the used set |
| MealBuilding.SlotItem | app/services/menu/MealBuilder.ts:41-62 | a slot item is its food at the clamped grams for the slot's calories; a food without calories gets the clamp of 0 g |
| MealBuilding.SlotItemIsPortioned | app/services/menu/MealBuilder.ts:41-62 | a slot item has realistic, multiple-of-5 grams and one-decimal macros from the portion formula |
| MealBuilding.InitialItems | app/services/menu/MealBuilder.ts:33-63 | at most four items, all with positive grams |
| MealBuilding.InitialItemsShares | app/services/menu/MealBuilder.ts:35-62 | each filled slot's item follows the filled slots before it and is sized from its own share of the meal's calories: 35 % protein, 40 % carb, 15 % produce, 10 % fat. The share of an empty slot is not passed to the others |
| MealBuilding.InitialItemsFollowPicks | app/services/menu/MealBuilder.ts:41-63 | the initial items' foods are the picks in slot order: protein, carb, produce, fat |
| MealBuilding.RescaleItem | app/services/menu/MealBuilder.ts:119-125 | the food is kept and the item stays portioned; the grams are the clamp of grams times target / current calories; with zero current calories they go to the upper bound (the lower bound for a negative target) |
| MealBuilding.Step | app/services/menu/MealBuilder.ts:118-126 | one pass rescales every item by the ratio from the current totals, keeping foods and portioning |
| MealBuilding.AdjustLoop | app/services/menu/MealBuilder.ts:112-128 | the passes keep the number of items, each food, and the portioning |
| MealBuilding.Adjusted | app/services/menu/MealBuilder.ts:105-131 | adjustment keeps the number of items and each food in its place |
| MealBuilding.AdjustLoopStopsAtFirstSettled | app/services/menu/MealBuilder.ts:112-128 | the result is the k-th rescaling for some k within the pass budget; no earlier rescaling was within the 15 % tolerance of the meal's targets; the k-th one is, unless the budget of five passes ran out |
| MealBuilding.SettledItemsAreKept | app/services/menu/MealBuilder.ts:113-116 | items already within the 15 % tolerance of the meal's targets come back unchanged |
| MealBuilding.AdjustedStaysPortioned | app/services/menu/MealBuilder.ts:119-125 | adjusting realistic, multiple-of-5 items keeps them so |
| MealBuilding.BuildMealSpec | app/services/menu/MealBuilder.ts:22-74 | the meal has the requested type; its totals are the sum of its items; the used set is the one left by the meal's selections |
| MealBuilding.BuiltMealServesPicks | app/services/menu/MealBuilder.ts:22-66 | the meal's foods are exactly the picked foods, in slot order |
| MealBuilding.BuiltMealIsPortioned | app/services/menu/MealBuilder.ts:41-66 | every item of a built meal is realistic, a multiple of 5 g, and carries its portion's macros |
| MealBuilding.PickedFoodsShape | app/services/menu/MealBuilder.ts:26-63 | as many foods as filled slots, in the order protein, carb, produce, fat; a snack has at most three |
| MealBuilding.BuiltMealFoodsComeFromBuckets | app/services/menu/MealBuilder.ts:26-31 | every food served in a meal comes from one of the five buckets |
| MealBuilding.MealBuilder.constructor | app/services/menu/MealBuilder.ts:14-17 | the builder holds the given selector and buckets |
| MealBuilding.MealBuilder.BuildMeal | app/services/menu/MealBuilder.ts:22-74 | the meal and the selector's new used set are those of the meal specification on the old used set |
| MealBuilding.MealBuilder.SelectVeggieOrFruit | app/services/menu/MealBuilder.ts:80-91 | the pick and the new used set are those of the produce specification |
| MealBuilding.MealBuilder.AdjustPortionsToTarget | app/services/menu/MealBuilder.ts:105-131 | the loop returns exactly the specified adjustment |
| MenuGenerator.ExtractDailyTargets | app/services/menu/MenuGeneratorService.ts:111-128 | targets exist exactly when all four profile values are present and non-zero; they are those values, so they are non-zero |
| MenuGenerator.ValidateFoodAvailability | app/services/menu/MenuGeneratorService.ts:133-148 | passes exactly when there are proteins, carbs and some produce; each error is reported exactly when its check is the first to fail |
| MenuGenerator.MealTargets | app/services/menu/MenuGeneratorService.ts:155-165 | a meal's targets are non-zero (or positive) when the day's are |
| MenuGenerator.MealTargetsSumToDaily | app/services/menu/MenuGeneratorService.ts:155-165 | the four meals' targets add up to the day's targets |
| MenuGenerator.DayMealsSpec | app/services/menu/MenuGeneratorService.ts:153-172 | the meal types of the day are exactly the requested types, in order |
| MenuGenerator.DayMealIsBuiltMeal | app/services/menu/MenuGeneratorService.ts:153-172 | the i-th meal is the built meal of the i-th type at its share of the day, with the used set left by the earlier meals |
| MenuGenerator.DayMealTotals | app/services/menu/MenuGeneratorService.ts:157-169 | each meal's totals are the sum of its items |
| MenuGenerator.CalculateDayTotals | app/services/menu/MenuGeneratorService.ts:177-180 | a day without meals totals zero; every total has one decimal |
| MenuGenerator.DayTotalsAreSumOfMealTotals | app/services/menu/MenuGeneratorService.ts:177-180 | when meal totals are their items' sums and item macros have one decimal, the day's totals are the sum of the meal totals |
| MenuGenerator.FlattenOneDecimal | app/services/menu/MenuGeneratorService.ts:177-179 | flattening the meals keeps every item's macros at one decimal |
| MenuGenerator.ExactOfFlatten | app/services/menu/MenuGeneratorService.ts:177-179 | the exact total of all the day's items is the sum of the meal totals |
| MenuGenerator.StoreItems | app/services/menu/MenuGeneratorService.ts:199-208 | one stored row per item, with its food, grams and meal type |
| MenuGenerator.SaveMenu | app/services/menu/MenuGeneratorService.ts:185-218 | the stored menu has the given id, user and date and the given totals, with one row per item of the day |
| MenuGenerator.StoredItemsLength | app/services/menu/MenuGeneratorService.ts:197-210 | the day stores exactly as many rows as it has items |
| MenuGenerator.ItemsOfType | app/services/menu/MenuGeneratorService.ts:236-239 | regrouping one meal type yields at most one item per stored row |
| MenuGenerator.ItemsOfTypeAreConsistent | app/services/menu/MenuGeneratorService.ts:236-239 | regrouped items carry the macros of their portions |
| MenuGenerator.ItemsOfTypeCollects | app/services/menu/MenuGeneratorService.ts:236-239 | every stored row appears, recomputed, in the group of its meal type |
| MenuGenerator.ItemsOfTypeComeFromStore | app/services/menu/MenuGeneratorService.ts:236-239 | every regrouped item is a recomputed stored row of that meal type |
| MenuGenerator.ItemsOfTypeAppend | app/services/menu/MenuGeneratorService.ts:236-239 | regrouping distributes over concatenated rows, so the row order is kept |
| MenuGenerator.StoredItemsComeBack | app/services/menu/MenuGeneratorService.ts:199-239 | storing a meal's consistent items and regrouping gives the items back under their own type and nothing under another type |
| MenuGenerator.NonEmptyMeals | app/services/menu/MenuGeneratorService.ts:247 | a meal is kept exactly when it is in the list and has items |
| MenuGenerator.NonEmptyMealsKeepsFullMeals | app/services/menu/MenuGeneratorService.ts:247 | when no meal is empty, filtering keeps them all |
| MenuGenerator.NonEmptyMealsOrdered | app/services/menu/MenuGeneratorService.ts:247 | filtering keeps meals in ascending meal order |
| MenuGenerator.GroupMeal | app/services/menu/MenuGeneratorService.ts:236-244 | a response meal of a type holds that type's stored rows, recomputed and consistent, and its totals are their sum |
| MenuGenerator.Grouping | app/services/menu/MenuGeneratorService.ts:225-244 | the four groups come in the key order breakfast, lunch, dinner, snack |
| MenuGenerator.FormatSpec | app/services/menu/MenuGeneratorService.ts:223-260 | the response has the menu's id, date and stored totals, and at most four meals |
| MenuGenerator.FormattedMealsAreGroups | app/services/menu/MenuGeneratorService.ts:225-259 | each returned meal has items and is the regrouping of its type with recomputed totals |
| MenuGenerator.FormattedMealsAreOrdered | app/services/menu/MenuGeneratorService.ts:225-247 | returned meals are in strictly ascending meal order, breakfast to snack |
| MenuGenerator.GroupingAscends | app/services/menu/MenuGeneratorService.ts:225-244 | the four regrouped meals are in breakfast, lunch, dinner, snack order |
| MenuGenerator.StoredDayGroupsBack | app/services/menu/MenuGeneratorService.ts:199-239 | regrouping the rows of four stored meals gives each meal type its meal's items back |
| MenuGenerator.GroupingOfStoredDay | app/services/menu/MenuGeneratorService.ts:199-244 | regrouping the rows of four stored meals gives the four meals back |
| MenuGenerator.StoredDayFormatsBack | app/services/menu/MenuGeneratorService.ts:185-260 | a day of four ordered meals of consistent items, saved and formatted, comes back as its non-empty meals with its id, date and totals |
| MenuGenerator.FullDayComesBack | app/services/menu/MenuGeneratorService.ts:66-76 | four full meals saved with their day totals come back unchanged, with totals that are the sum of the meal totals |
| MenuGenerator.GenerateSpec | app/services/menu/MenuGeneratorService.ts:31-77 | an existing menu is returned formatted and nothing is saved; a failure saves nothing; a saved menu has the new id and is what is returned |
| MenuGenerator.FailurePrecedence | app/services/menu/MenuGeneratorService.ts:39-64 | a missing profile fails first, then missing targets, then the three availability checks in order; once every check passes no error comes back. RunThatPassesStoresItsDay proves that such a run saves the day |
| MenuGenerator.GenerationIsIdempotent | app/services/menu/MenuGeneratorService.ts:31-37 | generating again for a day just generated returns the same response and saves nothing, provided the reloaded menu's food rows are unchanged, as the stored items assume |
| MenuGenerator.MealOfFullBucketsIsFull | app/services/menu/MealBuilder.ts:26-63 | with proteins, carbs and produce available a meal has at least three items |
| MenuGenerator.DayMealIsFull | app/services/menu/MenuGeneratorService.ts:153-172 | with those buckets non-empty every meal of the day is full: portioned, consistent, at least three items, totals their sum |
| MenuGenerator.FullDay | app/services/menu/MenuGeneratorService.ts:153-172 | with those buckets non-empty the day is four full meals in breakfast-to-snack order |
| MenuGenerator.SuccessfulDay | app/services/menu/MenuGeneratorService.ts:48-68 | a run whose checks pass builds four full meals in order |
| MenuGenerator.DayFoodsComeFromBuckets | app/services/menu/MenuGeneratorService.ts:153-172 | every food served on the day comes from one of the buckets |
| MenuGenerator.ServedFoodsAreAllowed | app/services/menu/MenuGeneratorService.ts:54-68 | every food served is in the catalog, is not disliked and meets every dietary restriction |
| MenuGenerator.RunThatPassesStoresItsDay | app/services/menu/MenuGeneratorService.ts:54-76 | a run whose checks pass saves its four meals with their day totals and returns them unchanged |
| MenuGenerator.SuccessfulRunServesFourMeals | app/services/menu/MenuGeneratorService.ts:31-77 | a fresh run that succeeds had a profile with targets, saved the day, and returns four built meals in order with totals equal to the sum of the meal totals |
| MenuGenerator.MenuGeneratorService.constructor | app/services/menu/MenuGeneratorService.ts:23-25 | the service remembers its user id |
| MenuGenerator.MenuGeneratorService.BuildAllMeals | app/services/menu/MenuGeneratorService.ts:153-172 | the meals and the selector's new used set are those of the day specification for the four meal types |
| MenuGenerator.MenuGeneratorService.FormatMenuForResponse | app/services/menu/MenuGeneratorService.ts:223-260 | the loop-based regrouping returns exactly the specified response |
| MenuGenerator.MenuGeneratorService.GenerateMenu | app/services/menu/MenuGeneratorService.ts:31-77 | the response and the saved menu are those of the generation specification |
| NutritionCalculator.ActivityMultiplier | app/services/nutrition_calculator.ts:6-12 | every activity factor is between 1 and 2 |
| NutritionCalculator.MultipliersIncrease | app/services/nutrition_calculator.ts:6-12 | the factor of a level is smaller than another's exactly when the level is less active |
| NutritionCalculator.CalculateBMR | app/services/nutrition_calculator.ts:31-35 | the rate is the Mifflin-St Jeor value (+5 for men, -161 otherwise, an unknown gender included) rounded to the nearest kcal |
| NutritionCalculator.MaleBMRExceedsOtherBy166 | app/services/nutrition_calculator.ts:31-35 | for the same body the male rate is exactly 166 kcal higher |
| NutritionCalculator.CalculateTDEE | app/services/nutrition_calculator.ts:41-44 | the expenditure is a multiple of 100 kcal |
| NutritionCalculator.TDEENearProduct | app/services/nutrition_calculator.ts:41-44 | the expenditure is within 50 kcal of the rate times the activity factor |
| NutritionCalculator.TDEEMonotoneInActivity | app/services/nutrition_calculator.ts:41-44 | for a non-negative rate, a more active level never gives a lower expenditure |
| NutritionCalculator.CalculateDailyCalories | app/services/nutrition_calculator.ts:49-52 | the calories are the expenditure plus the goal's adjustment, rounded to the nearest kcal |
| NutritionCalculator.DailyCaloriesOfWholeTDEE | app/services/nutrition_calculator.ts:17-21 | on a whole expenditure, cutting removes exactly 400 kcal, maintaining keeps it, and bulking adds exactly 400 kcal |
| NutritionCalculator.CalculateMacros | app/services/nutrition_calculator.ts:60-70 | protein, fat and carbs are within half a gram of calories / 16, / 36 and / 8 |
| NutritionCalculator.MacrosCoverCalories | app/services/nutrition_calculator.ts:60-70 | the intakes at 4, 9 and 4 kcal per gram give back the calories within 8.5 kcal |
| NutritionCalculator.CalculateAll | app/services/nutrition_calculator.ts:75-87 | the metrics are the BMR, TDEE, goal calories and macros computed in sequence; the TDEE is a multiple of 100 within 50 kcal of rate times factor; the calories move it by exactly the goal's adjustment; the macros give back those calories within 8.5 kcal |

## Left out

- Database access is not modelled: `getExistingMenu`, `loadUserWithProfile`, the `Food.all()` query and the inserts in `saveMenu`. Their results are parameters: the stored menu for the day, the user with profile and preferences, the catalog, and the id given to the new menu row.
- `loadUserWithProfile` uses `firstOrFail`, so an unknown user throws in the source. The model always receives a user. It also preloads `nutritionProfile` and `foodPreferences`, but `app/models/user.ts` declares neither relation. The model's `User` parameter assumes both exist: an optional profile and a list of preferences.
- The menu's items are assumed to come back from the database in the order they were inserted. The source reloads them with `load` and does not sort them.
- Reloaded menu rows are assumed to carry their foods as they were when the menu was saved. The `menu_items` table keeps only `food_id`, and `getExistingMenu` preloads each food as it is at that time. If a food the menu uses changes in the catalog, the source recomputes that item's macros and its meal's totals from the new row, while the stored day totals stay as saved. `StoredItem` holds the food by value, so GenerationIsIdempotent and the save-and-format round trips do not capture that change.
- The day key is an opaque string compared for equality. Time zones are not modelled, nor the `toISODate() || ''` fallback. `generateMenu` defaults its date to `DateTime.now()`; the model takes the date as a parameter, which the controller always passes.
- Two requests for the same user and day at once are not modelled. The menus table declares `(user_id, date)` unique, so the database rejects a second row for the same user and day. A concurrent second `saveMenu` would fail at the insert, and the model does not capture that error.
- Thrown errors are `Err` values carrying a `MenuError`. The messages are kept as strings, but no lemma says they differ.
- Numbers are exact reals rather than IEEE doubles. Float rounding artefacts are out of scope: on doubles, `Math.round(x * 10) / 10` is not always exact, and sums can drift.
- Only ASCII letters are lower-cased by `toLowerCase`.
- `localeCompare` is modelled as code-point order on names. The only facts used are that it is a total order.
- `Array.prototype.sort` is modelled as an insertion sort. `SortedArrangementIsUnique` shows that any sorted permutation gives the same result when names are distinct.
- MapRestrictionToTag: a restriction such as `constructor` or `toString` would find an inherited object property in the lookup in JavaScript. The model treats the table as a plain map, so the result is always the restriction itself.
- FoodSelection.FoodSelector.constructor: the dietary restrictions are a list. A database null in `dietary_restrictions` is not modelled. The default `[]` covers only an absent value, so the source would throw on `null.map`.
- FoodSelection.MeetsAllIsConjunctive: a food's tags are a list. A food whose `tags` is null is not modelled. The source would throw on `null.map` whenever a restriction is set.
- IsWithinTolerance: the default tolerance of 0.1 is not modelled. Its only caller, `adjustPortionsToTarget`, passes 0.15 explicitly.
- MacroDeviation: requires all four targets non-zero. In the source, a zero target divides by zero and gives `Infinity` or `NaN`. Every target that reaches this function passed the non-zero guard of `extractDailyTargets`.
- IsWithinTolerance: requires non-zero targets, for the same reason.
- MealBuilding.MealBuilder.BuildMeal: requires non-zero targets. A meal's targets are the day's, which `extractDailyTargets` guarantees non-zero, times a positive share.
- MealBuilding.MealBuilder.AdjustPortionsToTarget: requires non-zero targets and positive grams. Every item it is given comes from `clampPortion`, whose lower bounds are positive.
- RescaleItem: with zero current calories, JavaScript computes an infinite ratio, and `Math.min`/`Math.max` then clamp the grams to a bound. The model returns that bound directly. A zero target with zero current calories would give `NaN` in JavaScript and the lower bound in the model; it cannot arise because targets are non-zero.
- DistributeRemainingCalories: requires foods with non-zero calories when there are leftover calories. JavaScript would divide by zero there.
- GenerateSpec: the user is modelled with only the fields the engine reads. These are the profile's four targets and dietary restrictions, and the food preferences. Other ORM columns and relations are left out.
- Food fields the engine never reads are carried but not used: fibre, default serving and density factor.
- NutritionCalculator: body measurements are reals. A missing gender is `None`, which takes the non-male branch like any other value. Activity levels and goals outside the declared enumerations cannot be expressed.
- `ExtractDailyTargets`: the code tests each target for truthiness, so a target of 0 is rejected like a missing one.
- `SortByPreference`: the comparator orders liked foods by name, and the other foods by name too.
- `adjustPortionsToTarget` reports nothing about convergence. `AdjustLoopStopsAtFirstSettled` states when the loop stops.
- `index.ts` only re-exports the classes, so it has no model of its own.
