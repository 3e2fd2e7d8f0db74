/** The generation service: return the day's menu if there is one; otherwise check the
    profile, extract the daily targets, select and categorize the foods, check that
    every slot can be filled, build the four meals in order, total them, store the
    menu and answer with its formatted form. The database is replaced by parameters
    (the existing menu, the user, the catalog, the id the new menu gets) and by the
    stored menu returned as a value. */
module MenuGenerator {
  import opened JsMath
  import opened MenuTypes
  import opened MacroSolver
  import opened FoodSelection
  import opened MealBuilding

  // ---------------------------------------------------------------- inputs and errors

  /** The profile fields the service reads; `None` is a missing (null) column. */
  datatype NutritionProfile = NutritionProfile(
    dailyCaloriesConsumption: Option<real>,
    proteinIntake: Option<real>,
    carbsIntake: Option<real>,
    fatIntake: Option<real>,
    dietaryRestrictions: seq<string>)

  /** The user with the two relations the service preloads. */
  datatype User = User(nutritionProfile: Option<NutritionProfile>, foodPreferences: seq<Preference>)

  /** The five ways a generation run can fail. */
  datatype MenuError = ProfileNotFound | TargetsUnavailable | NoProteinFoods | NoCarbFoods | NoProduceFoods

  /** The message each failure is reported with. */
  function Message(e: MenuError): string
  {
    match e
    case ProfileNotFound => "User nutrition profile not found. Complete onboarding first."
    case TargetsUnavailable => "Unable to retrieve user daily target. Try again later."
    case NoProteinFoods => "No protein foods available matching your preferences"
    case NoCarbFoods => "No carb foods available matching your preferences"
    case NoProduceFoods => "No vegetables or fruits available matching your preferences"
  }

  datatype Result<T> = Ok(value: T) | Err(error: MenuError)

  // ---------------------------------------------------------------- targets

  /** JavaScript truthiness of a nullable number: present and non-zero. */
  predicate Truthy(x: Option<real>)
  {
    x.Some? && x.value != 0.0
  }

  /** `extractDailyTargets`: nothing when any of the four fields is missing or zero,
      otherwise the four fields unchanged. Extracted targets are all non-zero. */
  function ExtractDailyTargets(profile: NutritionProfile): (r: Option<MacroTargets>)
    ensures r.Some? <==>
      Truthy(profile.dailyCaloriesConsumption) && Truthy(profile.proteinIntake) &&
      Truthy(profile.carbsIntake) && Truthy(profile.fatIntake)
    ensures r.Some? ==>
      && Some(r.value.calories) == profile.dailyCaloriesConsumption
      && Some(r.value.protein) == profile.proteinIntake
      && Some(r.value.carbs) == profile.carbsIntake
      && Some(r.value.fat) == profile.fatIntake
    ensures r.Some? ==> NonZeroTargets(r.value)
  {
    if !Truthy(profile.dailyCaloriesConsumption) || !Truthy(profile.proteinIntake) ||
       !Truthy(profile.carbsIntake) || !Truthy(profile.fatIntake)
    then None
    else Some(MacroTargets(
      profile.dailyCaloriesConsumption.value,
      profile.proteinIntake.value,
      profile.carbsIntake.value,
      profile.fatIntake.value))
  }

  /** `validateFoodAvailability`: the first failing check, in the order proteins,
      carbs, then vegetables and fruits together; nothing when all pass. */
  function ValidateFoodAvailability(c: CategorizedFoods): (r: Option<MenuError>)
    ensures r.None? <==> c.proteins != [] && c.carbs != [] && (c.vegetables != [] || c.fruits != [])
    ensures r == Some(NoProteinFoods) <==> c.proteins == []
    ensures r == Some(NoCarbFoods) <==> c.proteins != [] && c.carbs == []
    ensures r == Some(NoProduceFoods) <==> c.proteins != [] && c.carbs != [] && c.vegetables == [] && c.fruits == []
    ensures r.Some? ==> r.value in {NoProteinFoods, NoCarbFoods, NoProduceFoods}
  {
    if |c.proteins| == 0 then Some(NoProteinFoods)
    else if |c.carbs| == 0 then Some(NoCarbFoods)
    else if |c.vegetables| == 0 && |c.fruits| == 0 then Some(NoProduceFoods)
    else None
  }

  /** A meal's targets: every daily value times the meal's weight. Non-zero daily
      targets give non-zero meal targets. */
  function MealTargets(daily: MacroTargets, mealType: MealType): (t: MacroTargets)
    ensures NonZeroTargets(daily) ==> NonZeroTargets(t)
    ensures PositiveTargets(daily) ==> PositiveTargets(t)
  {
    var w := MealWeight(mealType);
    NonZeroProduct(daily.calories, w);
    NonZeroProduct(daily.protein, w);
    NonZeroProduct(daily.carbs, w);
    NonZeroProduct(daily.fat, w);
    MacroTargets(daily.calories * w, daily.protein * w, daily.carbs * w, daily.fat * w)
  }

  lemma NonZeroProduct(x: real, w: real)
    requires w > 0.0
    ensures x != 0.0 ==> x * w != 0.0
    ensures x > 0.0 ==> x * w > 0.0
  {
  }

  /** The four meal targets add up to the daily targets. */
  lemma MealTargetsSumToDaily(daily: MacroTargets)
    ensures AddMacros(AddMacros(AddMacros(MealTargets(daily, Breakfast), MealTargets(daily, Lunch)),
      MealTargets(daily, Dinner)), MealTargets(daily, Snack)) == daily
  {
    MealWeightsSumToOne();
    var b, l, d, s := MealWeight(Breakfast), MealWeight(Lunch), MealWeight(Dinner), MealWeight(Snack);
    assert daily.calories * b + daily.calories * l + daily.calories * d + daily.calories * s == daily.calories * (b + l + d + s);
    assert daily.protein * b + daily.protein * l + daily.protein * d + daily.protein * s == daily.protein * (b + l + d + s);
    assert daily.carbs * b + daily.carbs * l + daily.carbs * d + daily.carbs * s == daily.carbs * (b + l + d + s);
    assert daily.fat * b + daily.fat * l + daily.fat * d + daily.fat * s == daily.fat * (b + l + d + s);
  }

  // ---------------------------------------------------------------- the day's meals

  /** The meals built so far and the selector's used set after them. */
  datatype Day = Day(meals: seq<Meal>, used: set<int>)

  /** The meal types of a list of meals, in order. */
  function TypesOf(meals: seq<Meal>): (r: seq<MealType>)
    ensures |r| == |meals| && forall i :: 0 <= i < |meals| ==> r[i] == meals[i].mealType
  {
    if meals == [] then [] else TypesOf(meals[..|meals| - 1]) + [meals[|meals| - 1].mealType]
  }

  lemma TypesOfSnoc(meals: seq<Meal>, m: Meal)
    ensures TypesOf(meals + [m]) == TypesOf(meals) + [m.mealType]
  {
    assert (meals + [m])[..|meals|] == meals;
  }

  lemma InitAndLast(types: seq<MealType>)
    requires types != []
    ensures types[..|types| - 1] + [types[|types| - 1]] == types
  {
  }

  /** Breakfast, lunch, dinner and snack, in that order. */
  predicate InMealOrder(meals: seq<Meal>)
  {
    && |meals| == 4
    && meals[0].mealType == Breakfast && meals[1].mealType == Lunch
    && meals[2].mealType == Dinner && meals[3].mealType == Snack
  }

  lemma TypesInMealOrder(meals: seq<Meal>)
    requires TypesOf(meals) == AllMealTypes
    ensures InMealOrder(meals)
  {
    assert |meals| == |AllMealTypes|;
  }

  /** One step of `buildAllMeals`: the meal of a type, built from its share of the
      daily targets. */
  function NextMeal(liked: set<string>, used: set<int>, c: CategorizedFoods, daily: MacroTargets, mealType: MealType): (b: Built)
    requires NonZeroTargets(daily)
    ensures b.meal.mealType == mealType
    ensures b.meal.totals == SumMacros(b.meal.items)
  {
    BuildMealSpec(liked, used, c, mealType, MealTargets(daily, mealType))
  }

  /** `buildAllMeals` as a value: one meal per listed type, in order, each from its
      share of the daily targets, every meal seeing the foods the earlier ones used. */
  function DayMealsSpec(liked: set<string>, used: set<int>, c: CategorizedFoods, daily: MacroTargets, types: seq<MealType>): (d: Day)
    requires NonZeroTargets(daily)
    ensures TypesOf(d.meals) == types
  {
    if types == [] then Day([], used)
    else
      var prev := DayMealsSpec(liked, used, c, daily, types[..|types| - 1]);
      var b := NextMeal(liked, prev.used, c, daily, types[|types| - 1]);
      TypesOfSnoc(prev.meals, b.meal);
      InitAndLast(types);
      Day(prev.meals + [b.meal], b.used)
  }

  lemma PrefixOfPrefix(types: seq<MealType>, i: nat)
    requires i < |types|
    ensures types[..i + 1][..i] == types[..i] && types[..i + 1][i] == types[i]
  {
  }

  /** Building one more type extends the day by that type's meal. */
  lemma DayMealsStep(liked: set<string>, used: set<int>, c: CategorizedFoods, daily: MacroTargets, types: seq<MealType>, i: nat)
    requires NonZeroTargets(daily) && i < |types|
    ensures var prev := DayMealsSpec(liked, used, c, daily, types[..i]);
      var b := NextMeal(liked, prev.used, c, daily, types[i]);
      DayMealsSpec(liked, used, c, daily, types[..i + 1]) == Day(prev.meals + [b.meal], b.used)
  {
    PrefixOfPrefix(types, i);
  }

  /** Before the first type nothing is built and nothing more is used. */
  lemma DayOfNoMeals(liked: set<string>, used: set<int>, c: CategorizedFoods, daily: MacroTargets, types: seq<MealType>)
    requires NonZeroTargets(daily)
    ensures DayMealsSpec(liked, used, c, daily, types[..0]) == Day([], used)
  {
    assert types[..0] == [];
  }

  lemma WholePrefix(types: seq<MealType>)
    ensures types[..|types|] == types
  {
  }

  /** The step `buildAllMeals` takes: a day built so far, extended by the meal built
      next from the used set it left, is the day of one more type. */
  lemma DayGrowsByBuiltMeal(liked: set<string>, used: set<int>, c: CategorizedFoods, daily: MacroTargets, types: seq<MealType>, i: nat,
                            meals: seq<Meal>, before: set<int>, meal: Meal, after: set<int>)
    requires NonZeroTargets(daily) && i < |types|
    requires Day(meals, before) == DayMealsSpec(liked, used, c, daily, types[..i])
    requires Built(meal, after) == BuildMealSpec(liked, before, c, types[i], MealTargets(daily, types[i]))
    ensures Day(meals + [meal], after) == DayMealsSpec(liked, used, c, daily, types[..i + 1])
  {
    DayMealsStep(liked, used, c, daily, types, i);
  }

  /** The meal of a given position is the one `buildMeal` makes from the used set the
      earlier meals left. */
  lemma {:induction false} DayMealIsBuiltMeal(liked: set<string>, used: set<int>, c: CategorizedFoods, daily: MacroTargets, types: seq<MealType>, i: nat)
    requires NonZeroTargets(daily) && i < |types|
    ensures DayMealsSpec(liked, used, c, daily, types).meals[i] ==
      NextMeal(liked, DayMealsSpec(liked, used, c, daily, types[..i]).used, c, daily, types[i]).meal
    decreases |types|
  {
    var init := types[..|types| - 1];
    var prev := DayMealsSpec(liked, used, c, daily, init);
    if i < |types| - 1 {
      DayMealIsBuiltMeal(liked, used, c, daily, init, i);
      InitPrefix(types, i);
      assert DayMealsSpec(liked, used, c, daily, types).meals[i] == prev.meals[i];
    } else {
      InitPrefix(types, i);
    }
  }

  lemma InitPrefix(types: seq<MealType>, i: nat)
    requires i < |types|
    ensures i < |types| - 1 ==> types[..|types| - 1][..i] == types[..i] && types[..|types| - 1][i] == types[i]
    ensures i == |types| - 1 ==> types[..|types| - 1] == types[..i]
  {
  }

  /** Every meal of a day carries the `sumMacros` of its items as its totals. */
  lemma DayMealTotals(liked: set<string>, used: set<int>, c: CategorizedFoods, daily: MacroTargets, types: seq<MealType>, i: nat)
    requires NonZeroTargets(daily) && i < |types|
    ensures var m := DayMealsSpec(liked, used, c, daily, types).meals[i]; m.totals == SumMacros(m.items)
  {
    DayMealIsBuiltMeal(liked, used, c, daily, types, i);
  }

  /** The items of all meals, meal after meal (`flatMap`). */
  function Flatten(meals: seq<Meal>): (items: seq<MealItem>)
  {
    if meals == [] then [] else Flatten(meals[..|meals| - 1]) + meals[|meals| - 1].items
  }

  /** `calculateDayTotals`: `sumMacros` over every item of the day. */
  function CalculateDayTotals(meals: seq<Meal>): (t: MacroTargets)
    ensures meals == [] ==> t == ZeroMacros
    ensures OneDecimalMacros(t)
  {
    SumMacros(Flatten(meals))
  }

  /** The meals' own totals added up, a reference for the day totals. */
  function SumOfMealTotals(meals: seq<Meal>): MacroTargets
  {
    if meals == [] then ZeroMacros else AddMacros(SumOfMealTotals(meals[..|meals| - 1]), meals[|meals| - 1].totals)
  }

  predicate MealItemsOneDecimal(meals: seq<Meal>)
  {
    forall i, k :: 0 <= i < |meals| && 0 <= k < |meals[i].items| ==> OneDecimalItem(meals[i].items[k])
  }

  /** When every meal's totals are the sum of its items and every item carries one
      decimal, the day totals are the sum of the meal totals. */
  lemma {:induction false} DayTotalsAreSumOfMealTotals(meals: seq<Meal>)
    requires forall i :: 0 <= i < |meals| ==> meals[i].totals == SumMacros(meals[i].items)
    requires MealItemsOneDecimal(meals)
    ensures CalculateDayTotals(meals) == SumOfMealTotals(meals)
  {
    FlattenOneDecimal(meals);
    SumMacrosIsExact(Flatten(meals));
    ExactOfFlatten(meals);
  }

  lemma {:induction false} FlattenOneDecimal(meals: seq<Meal>)
    requires MealItemsOneDecimal(meals)
    ensures forall k :: 0 <= k < |Flatten(meals)| ==> OneDecimalItem(Flatten(meals)[k])
  {
    if meals != [] {
      var init := meals[..|meals| - 1];
      assert MealItemsOneDecimal(init) by {
        forall i, k | 0 <= i < |init| && 0 <= k < |init[i].items| ensures OneDecimalItem(init[i].items[k]) {
          assert init[i] == meals[i];
        }
      }
      FlattenOneDecimal(init);
      var a, b := Flatten(init), meals[|meals| - 1].items;
      forall k | 0 <= k < |a + b| ensures OneDecimalItem((a + b)[k]) {
        if k >= |a| {
          assert (a + b)[k] == meals[|meals| - 1].items[k - |a|];
        }
      }
    }
  }

  lemma {:induction false} ExactOfFlatten(meals: seq<Meal>)
    requires forall i :: 0 <= i < |meals| ==> meals[i].totals == SumMacros(meals[i].items)
    requires MealItemsOneDecimal(meals)
    ensures ExactTotal(Flatten(meals)) == SumOfMealTotals(meals)
  {
    if meals != [] {
      var init, last := meals[..|meals| - 1], meals[|meals| - 1];
      assert MealItemsOneDecimal(init) by {
        forall i, k | 0 <= i < |init| && 0 <= k < |init[i].items| ensures OneDecimalItem(init[i].items[k]) {
          assert init[i] == meals[i];
        }
      }
      assert forall i :: 0 <= i < |init| ==> init[i] == meals[i];
      ExactOfFlatten(init);
      ExactTotalAppend(Flatten(init), last.items);
      assert forall k :: 0 <= k < |last.items| ==> OneDecimalItem(last.items[k]) by {
        assert last == meals[|meals| - 1];
      }
      SumMacrosIsExact(last.items);
    }
  }

  // ---------------------------------------------------------------- storage

  /** A stored menu item with its food loaded. The row keeps the food as it was when
      the menu was saved; the database keeps only the food's id and reloads the food
      row as it is at that time. */
  datatype StoredItem = StoredItem(food: Food, grams: real, mealType: MealType)

  /** A stored menu with its items loaded. */
  datatype StoredMenu = StoredMenu(
    id: int, userId: int, date: DayKey,
    totalCalories: real, proteinTotal: real, carbsTotal: real, fatTotal: real,
    menuItems: seq<StoredItem>)

  /** The rows stored for a meal's items, in order. */
  function StoreItems(items: seq<MealItem>, mealType: MealType): (r: seq<StoredItem>)
    ensures |r| == |items|
    ensures forall k :: 0 <= k < |r| ==> r[k] == StoredItem(items[k].food, items[k].grams, mealType)
  {
    if items == [] then [] else StoreItems(items[..|items| - 1], mealType) + [StoredItem(items[|items| - 1].food, items[|items| - 1].grams, mealType)]
  }

  /** The rows stored for the day: meal after meal, item after item. */
  function StoredItems(meals: seq<Meal>): seq<StoredItem>
  {
    if meals == [] then [] else StoredItems(meals[..|meals| - 1]) + StoreItems(meals[|meals| - 1].items, meals[|meals| - 1].mealType)
  }

  /** `saveMenu` as a value: the menu row with the day totals, and one item row per
      meal item; reloading returns the rows in the order they were written. */
  function SaveMenu(id: int, userId: int, date: DayKey, meals: seq<Meal>, totals: MacroTargets): (m: StoredMenu)
    ensures m.id == id && m.userId == userId && m.date == date
    ensures MacroTargets(m.totalCalories, m.proteinTotal, m.carbsTotal, m.fatTotal) == totals
    ensures |m.menuItems| == |Flatten(meals)|
  {
    StoredItemsLength(meals);
    StoredMenu(id, userId, date, totals.calories, totals.protein, totals.carbs, totals.fat, StoredItems(meals))
  }

  lemma {:induction false} StoredItemsLength(meals: seq<Meal>)
    ensures |StoredItems(meals)| == |Flatten(meals)|
  {
    if meals != [] {
      StoredItemsLength(meals[..|meals| - 1]);
    }
  }

  // ---------------------------------------------------------------- formatting

  /** The stored items of one meal type, recomputed with `calculateMacros`, in order. */
  function ItemsOfType(stored: seq<StoredItem>, mealType: MealType): (r: seq<MealItem>)
    ensures |r| <= |stored|
  {
    if stored == [] then []
    else
      var last := stored[|stored| - 1];
      ItemsOfType(stored[..|stored| - 1], mealType) +
        (if last.mealType == mealType then [CalculateMacros(last.food, last.grams)] else [])
  }

  /** The recomputed items are consistent: their macros are those of their grams. */
  lemma {:induction false} ItemsOfTypeAreConsistent(stored: seq<StoredItem>, mealType: MealType)
    ensures forall k :: 0 <= k < |ItemsOfType(stored, mealType)| ==> ConsistentItem(ItemsOfType(stored, mealType)[k])
  {
    if stored != [] {
      var init, last := stored[..|stored| - 1], stored[|stored| - 1];
      ItemsOfTypeAreConsistent(init, mealType);
      var a := ItemsOfType(init, mealType);
      var b: seq<MealItem> := if last.mealType == mealType then [CalculateMacros(last.food, last.grams)] else [];
      forall k | 0 <= k < |a + b| ensures ConsistentItem((a + b)[k]) {
        if k >= |a| {
          assert (a + b)[k] == b[k - |a|];
        }
      }
    }
  }

  /** Every stored item shows up, recomputed, in the meal of its own type. */
  lemma {:induction false} ItemsOfTypeCollects(stored: seq<StoredItem>, k: nat)
    requires k < |stored|
    ensures CalculateMacros(stored[k].food, stored[k].grams) in ItemsOfType(stored, stored[k].mealType)
  {
    var init := stored[..|stored| - 1];
    if k < |stored| - 1 {
      ItemsOfTypeCollects(init, k);
      assert init[k] == stored[k];
    }
  }

  /** And nothing else does: every item of a meal comes from a stored item of its type. */
  lemma {:induction false} ItemsOfTypeComeFromStore(stored: seq<StoredItem>, mealType: MealType, item: MealItem)
    requires item in ItemsOfType(stored, mealType)
    ensures exists k :: (0 <= k < |stored| && stored[k].mealType == mealType &&
      item == CalculateMacros(stored[k].food, stored[k].grams))
  {
    var init, last := stored[..|stored| - 1], stored[|stored| - 1];
    if item in ItemsOfType(init, mealType) {
      ItemsOfTypeComeFromStore(init, mealType, item);
      var k :| 0 <= k < |init| && init[k].mealType == mealType && item == CalculateMacros(init[k].food, init[k].grams);
      assert stored[k] == init[k];
    } else {
      assert stored[|stored| - 1] == last;
    }
  }

  lemma {:induction false} ItemsOfTypeAppend(a: seq<StoredItem>, b: seq<StoredItem>, mealType: MealType)
    ensures ItemsOfType(a + b, mealType) == ItemsOfType(a, mealType) + ItemsOfType(b, mealType)
  {
    if b == [] {
      assert a + b == a;
    } else {
      assert (a + b)[..|a + b| - 1] == a + b[..|b| - 1];
      ItemsOfTypeAppend(a, b[..|b| - 1], mealType);
    }
  }

  /** Storing consistent items and recomputing them gives them back. */
  lemma {:induction false} StoredItemsComeBack(items: seq<MealItem>, stored: MealType, mealType: MealType)
    requires forall k :: 0 <= k < |items| ==> ConsistentItem(items[k])
    ensures ItemsOfType(StoreItems(items, stored), mealType) == if stored == mealType then items else []
  {
    if items != [] {
      var init, last := items[..|items| - 1], items[|items| - 1];
      StoredItemsComeBack(init, stored, mealType);
      var s := StoreItems(items, stored);
      assert s[..|s| - 1] == StoreItems(init, stored);
      assert CalculateMacros(last.food, last.grams) == last;
      if stored == mealType {
        assert init + [last] == items;
      }
    }
  }

  /** One response meal: the recomputed items of a type and their `sumMacros`. */
  function GroupMeal(stored: seq<StoredItem>, mealType: MealType): (m: Meal)
    ensures m.mealType == mealType
    ensures m.items == ItemsOfType(stored, mealType)
    ensures m.totals == SumMacros(m.items)
    ensures forall k :: 0 <= k < |m.items| ==> ConsistentItem(m.items[k])
  {
    var items := ItemsOfType(stored, mealType);
    ItemsOfTypeAreConsistent(stored, mealType);
    Meal(mealType, items, SumMacros(items))
  }

  /** The meals with at least one item, in order. */
  function NonEmptyMeals(meals: seq<Meal>): (r: seq<Meal>)
    ensures |r| <= |meals|
    ensures forall m :: m in r <==> m in meals && |m.items| > 0
  {
    if meals == [] then []
    else (if |meals[0].items| > 0 then [meals[0]] else []) + NonEmptyMeals(meals[1..])
  }

  /** Meals that all have items are kept as they are. */
  lemma {:induction false} NonEmptyMealsKeepsFullMeals(meals: seq<Meal>)
    requires forall i :: 0 <= i < |meals| ==> |meals[i].items| > 0
    ensures NonEmptyMeals(meals) == meals
  {
    if meals != [] {
      NonEmptyMealsKeepsFullMeals(meals[1..]);
      assert [meals[0]] + meals[1..] == meals;
    }
  }

  /** `formatMenuForResponse` as a value: the four meals in the order breakfast,
      lunch, dinner, snack, each with the recomputed items of its type and their
      totals, empty meals dropped; the menu's stored totals as the day totals. */
  function FormatSpec(menu: StoredMenu): (g: GeneratedMenu)
    ensures g.id == menu.id && g.date == menu.date
    ensures g.totals == MacroTargets(menu.totalCalories, menu.proteinTotal, menu.carbsTotal, menu.fatTotal)
    ensures |g.meals| <= 4
  {
    GeneratedMenu(menu.id, menu.date, NonEmptyMeals(Grouping(menu.menuItems)),
      MacroTargets(menu.totalCalories, menu.proteinTotal, menu.carbsTotal, menu.fatTotal))
  }

  /** The four groups, in the record's key order. */
  function Grouping(stored: seq<StoredItem>): (r: seq<Meal>)
    ensures |r| == 4
    ensures TypesOf(r) == AllMealTypes
  {
    [GroupMeal(stored, Breakfast), GroupMeal(stored, Lunch), GroupMeal(stored, Dinner), GroupMeal(stored, Snack)]
  }

  /** Each response meal has items and is the group of its type's stored rows. */
  lemma FormattedMealsAreGroups(menu: StoredMenu)
    ensures forall m :: m in FormatSpec(menu).meals ==> |m.items| > 0 && m == GroupMeal(menu.menuItems, m.mealType)
  {
  }

  /** Position of a meal type in the response. */
  function MealIndex(t: MealType): nat
  {
    match t
    case Breakfast => 0
    case Lunch => 1
    case Dinner => 2
    case Snack => 3
  }

  /** The response meals come in the order breakfast, lunch, dinner, snack, no type
      twice. */
  lemma FormattedMealsAreOrdered(menu: StoredMenu)
    ensures var meals := FormatSpec(menu).meals;
      forall i, j :: 0 <= i < j < |meals| ==> MealIndex(meals[i].mealType) < MealIndex(meals[j].mealType)
  {
    GroupingAscends(menu.menuItems);
    NonEmptyMealsOrdered(Grouping(menu.menuItems));
  }

  lemma GroupingAscends(stored: seq<StoredItem>)
    ensures TypesAscending(Grouping(stored))
  {
    var grouped := Grouping(stored);
    assert forall i :: 0 <= i < 4 ==> MealIndex(grouped[i].mealType) == i;
  }

  predicate TypesAscending(meals: seq<Meal>)
  {
    forall i, j :: 0 <= i < j < |meals| ==> MealIndex(meals[i].mealType) < MealIndex(meals[j].mealType)
  }

  lemma {:induction false} NonEmptyMealsOrdered(meals: seq<Meal>)
    requires TypesAscending(meals)
    ensures TypesAscending(NonEmptyMeals(meals))
  {
    if meals != [] {
      var rest := NonEmptyMeals(meals[1..]);
      assert TypesAscending(meals[1..]) by {
        forall i, j | 0 <= i < j < |meals[1..]| ensures MealIndex(meals[1..][i].mealType) < MealIndex(meals[1..][j].mealType) {
          assert meals[1..][i] == meals[i + 1] && meals[1..][j] == meals[j + 1];
        }
      }
      NonEmptyMealsOrdered(meals[1..]);
      if |meals[0].items| > 0 {
        forall j | 0 <= j < |rest| ensures MealIndex(meals[0].mealType) < MealIndex(rest[j].mealType) {
          assert rest[j] in meals[1..];
          var k :| 0 <= k < |meals[1..]| && meals[1..][k] == rest[j];
          assert meals[1..][k] == meals[k + 1];
        }
        AscendingCons(meals[0], rest);
      }
    }
  }

  lemma AscendingCons(h: Meal, rest: seq<Meal>)
    requires TypesAscending(rest)
    requires forall j :: 0 <= j < |rest| ==> MealIndex(h.mealType) < MealIndex(rest[j].mealType)
    ensures TypesAscending([h] + rest)
  {
    var r := [h] + rest;
    forall i, j | 0 <= i < j < |r| ensures MealIndex(r[i].mealType) < MealIndex(r[j].mealType) {
      if i > 0 {
        assert r[i] == rest[i - 1];
      }
      assert r[j] == rest[j - 1];
    }
  }

  /** Storing a freshly built day and formatting it gives back the built meals with
      items, in order, and the totals that were stored. */
  lemma StoredDayFormatsBack(id: int, userId: int, date: DayKey, meals: seq<Meal>, totals: MacroTargets)
    requires InMealOrder(meals)
    requires forall i :: 0 <= i < 4 ==> meals[i].totals == SumMacros(meals[i].items)
    requires forall i, k :: 0 <= i < 4 && 0 <= k < |meals[i].items| ==> ConsistentItem(meals[i].items[k])
    ensures FormatSpec(SaveMenu(id, userId, date, meals, totals)) == GeneratedMenu(id, date, NonEmptyMeals(meals), totals)
  {
    GroupingOfStoredDay(meals);
  }

  lemma GroupingOfStoredDay(meals: seq<Meal>)
    requires InMealOrder(meals)
    requires forall i :: 0 <= i < 4 ==> meals[i].totals == SumMacros(meals[i].items)
    requires forall i, k :: 0 <= i < 4 && 0 <= k < |meals[i].items| ==> ConsistentItem(meals[i].items[k])
    ensures Grouping(StoredItems(meals)) == meals
  {
    var stored := StoredItems(meals);
    StoredDayGroupsBack(meals, Breakfast);
    StoredDayGroupsBack(meals, Lunch);
    StoredDayGroupsBack(meals, Dinner);
    StoredDayGroupsBack(meals, Snack);
    assert GroupMeal(stored, Breakfast) == meals[0];
    assert GroupMeal(stored, Lunch) == meals[1];
    assert GroupMeal(stored, Dinner) == meals[2];
    assert GroupMeal(stored, Snack) == meals[3];
    FourMeals(meals);
  }

  lemma FourMeals(meals: seq<Meal>)
    requires |meals| == 4
    ensures [meals[0], meals[1], meals[2], meals[3]] == meals
  {
  }

  /** Grouping the stored rows of a four-meal day by type gives each meal its items. */
  lemma StoredDayGroupsBack(meals: seq<Meal>, t: MealType)
    requires InMealOrder(meals)
    requires forall j, k :: 0 <= j < 4 && 0 <= k < |meals[j].items| ==> ConsistentItem(meals[j].items[k])
    ensures ItemsOfType(StoredItems(meals), t) == meals[MealIndex(t)].items
  {
    var s0, s1, s2, s3 := StoreItems(meals[0].items, Breakfast), StoreItems(meals[1].items, Lunch),
      StoreItems(meals[2].items, Dinner), StoreItems(meals[3].items, Snack);
    StoredItemsOfFour(meals);
    StoredItemsComeBack(meals[0].items, Breakfast, t);
    StoredItemsComeBack(meals[1].items, Lunch, t);
    StoredItemsComeBack(meals[2].items, Dinner, t);
    StoredItemsComeBack(meals[3].items, Snack, t);
    GroupOfFour(s0, s1, s2, s3, meals[0].items, meals[1].items, meals[2].items, meals[3].items, t);
  }

  lemma GroupOfFour(s0: seq<StoredItem>, s1: seq<StoredItem>, s2: seq<StoredItem>, s3: seq<StoredItem>,
                    a: seq<MealItem>, b: seq<MealItem>, c: seq<MealItem>, d: seq<MealItem>, t: MealType)
    requires ItemsOfType(s0, t) == (if t == Breakfast then a else [])
    requires ItemsOfType(s1, t) == (if t == Lunch then b else [])
    requires ItemsOfType(s2, t) == (if t == Dinner then c else [])
    requires ItemsOfType(s3, t) == (if t == Snack then d else [])
    ensures t == Breakfast ==> ItemsOfType(s0 + s1 + s2 + s3, t) == a
    ensures t == Lunch ==> ItemsOfType(s0 + s1 + s2 + s3, t) == b
    ensures t == Dinner ==> ItemsOfType(s0 + s1 + s2 + s3, t) == c
    ensures t == Snack ==> ItemsOfType(s0 + s1 + s2 + s3, t) == d
  {
    ItemsOfTypeOfFour(s0, s1, s2, s3, t);
    OneOfFour(a, b, c, d, t);
  }

  /** The one run of the four that has the type. */
  lemma OneOfFour(a: seq<MealItem>, b: seq<MealItem>, c: seq<MealItem>, d: seq<MealItem>, t: MealType)
    ensures var r := (if t == Breakfast then a else []) + (if t == Lunch then b else []) +
      (if t == Dinner then c else []) + (if t == Snack then d else []);
      && (t == Breakfast ==> r == a) && (t == Lunch ==> r == b)
      && (t == Dinner ==> r == c) && (t == Snack ==> r == d)
  {
    match t
    case Breakfast => assert a + [] + [] + [] == a;
    case Lunch => assert [] + b + [] + [] == b;
    case Dinner => assert [] + [] + c + [] == c;
    case Snack => assert [] + [] + [] + d == d;
  }

  lemma StoredItemsPrefix(meals: seq<Meal>, k: nat)
    requires k < |meals|
    ensures StoredItems(meals[..k + 1]) == StoredItems(meals[..k]) + StoreItems(meals[k].items, meals[k].mealType)
  {
    assert meals[..k + 1][..k] == meals[..k];
  }

  lemma StoredItemsOfFour(meals: seq<Meal>)
    requires |meals| == 4
    ensures StoredItems(meals) == StoreItems(meals[0].items, meals[0].mealType) + StoreItems(meals[1].items, meals[1].mealType) +
      StoreItems(meals[2].items, meals[2].mealType) + StoreItems(meals[3].items, meals[3].mealType)
  {
    var r0, r1, r2, r3 := StoreItems(meals[0].items, meals[0].mealType), StoreItems(meals[1].items, meals[1].mealType),
      StoreItems(meals[2].items, meals[2].mealType), StoreItems(meals[3].items, meals[3].mealType);
    assert StoredItems(meals) == StoredItems(meals[..3]) + r3;
    StoredItemsPrefix(meals, 2);
    StoredItemsPrefix(meals, 1);
    StoredItemsPrefix(meals, 0);
    assert StoredItems(meals[..0]) == [];
    ChainOfFour(StoredItems(meals[..0]), StoredItems(meals[..1]), StoredItems(meals[..2]), StoredItems(meals[..3]),
      StoredItems(meals), r0, r1, r2, r3);
  }

  lemma ChainOfFour(a0: seq<StoredItem>, a1: seq<StoredItem>, a2: seq<StoredItem>, a3: seq<StoredItem>, a4: seq<StoredItem>,
                    r0: seq<StoredItem>, r1: seq<StoredItem>, r2: seq<StoredItem>, r3: seq<StoredItem>)
    requires a0 == [] && a1 == a0 + r0 && a2 == a1 + r1 && a3 == a2 + r2 && a4 == a3 + r3
    ensures a4 == r0 + r1 + r2 + r3
  {
    assert a1 == r0;
  }

  /** Collecting one type from four runs of rows collects it from each run. */
  lemma ItemsOfTypeOfFour(s0: seq<StoredItem>, s1: seq<StoredItem>, s2: seq<StoredItem>, s3: seq<StoredItem>, t: MealType)
    ensures ItemsOfType(s0 + s1 + s2 + s3, t) ==
      ItemsOfType(s0, t) + ItemsOfType(s1, t) + ItemsOfType(s2, t) + ItemsOfType(s3, t)
  {
    ItemsOfTypeAppend(s0 + s1 + s2, s3, t);
    ItemsOfTypeAppend(s0 + s1, s2, t);
    ItemsOfTypeAppend(s0, s1, t);
  }

  // ---------------------------------------------------------------- generation

  /** What a generation run answers, and the menu it stores if it stores one. */
  datatype Outcome = Outcome(response: Result<GeneratedMenu>, saved: Option<StoredMenu>)

  /** The categorized foods a run works with. */
  function RunFoods(user: User, profile: NutritionProfile, catalog: seq<Food>): CategorizedFoods
  {
    var liked := LikedNames(user.foodPreferences);
    Categorized(liked, FilterFoods(DislikedNames(user.foodPreferences), LowerAll(profile.dietaryRestrictions), catalog))
  }

  /** `generateMenu` as a value. */
  function GenerateSpec(userId: int, date: DayKey, existing: Option<StoredMenu>, user: User, catalog: seq<Food>, newMenuId: int): (o: Outcome)
    ensures existing.Some? ==> o == Outcome(Ok(FormatSpec(existing.value)), None)
    ensures o.response.Err? ==> o.saved.None?
    ensures o.saved.Some? ==> o.response == Ok(FormatSpec(o.saved.value)) && o.saved.value.id == newMenuId
  {
    if existing.Some? then Outcome(Ok(FormatSpec(existing.value)), None)
    else if user.nutritionProfile.None? then Outcome(Err(ProfileNotFound), None)
    else
      var profile := user.nutritionProfile.value;
      var daily := ExtractDailyTargets(profile);
      if daily.None? then Outcome(Err(TargetsUnavailable), None)
      else
        var c := RunFoods(user, profile, catalog);
        var check := ValidateFoodAvailability(c);
        if check.Some? then Outcome(Err(check.value), None)
        else
          var meals := RunMeals(user, catalog);
          var totals := CalculateDayTotals(meals);
          var menu := SaveMenu(newMenuId, userId, date, meals, totals);
          Outcome(Ok(FormatSpec(menu)), Some(menu))
  }

  /** The failures come in a fixed order: missing profile, then unusable targets, then
      the food checks; none of them stores anything. */
  lemma FailurePrecedence(userId: int, date: DayKey, user: User, catalog: seq<Food>, newMenuId: int)
    ensures var o := GenerateSpec(userId, date, None, user, catalog, newMenuId);
      && (user.nutritionProfile.None? ==> o == Outcome(Err(ProfileNotFound), None))
      && (user.nutritionProfile.Some? && ExtractDailyTargets(user.nutritionProfile.value).None? ==>
            o == Outcome(Err(TargetsUnavailable), None))
      && (user.nutritionProfile.Some? && ExtractDailyTargets(user.nutritionProfile.value).Some? ==>
            var check := ValidateFoodAvailability(RunFoods(user, user.nutritionProfile.value, catalog));
            (check.Some? <==> o.response.Err?) && (check.Some? ==> o == Outcome(Err(check.value), None)))
  {
  }

  /** Asking again for a day that was just generated returns the same answer and
      stores nothing more, whatever the profile is by then. The stored menu is passed
      back in as saved, so its rows carry their foods unchanged. */
  lemma GenerationIsIdempotent(userId: int, date: DayKey, user: User, catalog: seq<Food>, newMenuId: int,
                               user2: User, catalog2: seq<Food>, newMenuId2: int)
    requires GenerateSpec(userId, date, None, user, catalog, newMenuId).saved.Some?
    ensures var first := GenerateSpec(userId, date, None, user, catalog, newMenuId);
      var second := GenerateSpec(userId, date, first.saved, user2, catalog2, newMenuId2);
      second.response == first.response && second.saved.None?
  {
  }

  /** A built meal as a successful run serves it: at least a protein, a carb and a
      vegetable or fruit, every item portioned, the totals those of the items. */
  predicate FullMeal(m: Meal)
  {
    && |m.items| >= 3
    && m.totals == SumMacros(m.items)
    && forall k :: 0 <= k < |m.items| ==> Portioned(m.items[k])
  }

  /** With a protein, a carb and some produce to choose from, a meal has at least
      three items. */
  lemma MealOfFullBucketsIsFull(liked: set<string>, used: set<int>, c: CategorizedFoods, mealType: MealType, targets: MacroTargets)
    requires NonZeroTargets(targets)
    requires c.proteins != [] && c.carbs != [] && (c.vegetables != [] || c.fruits != [])
    ensures |BuildMealSpec(liked, used, c, mealType, targets).meal.items| >= 3
  {
    BuiltMealServesPicks(liked, used, c, mealType, targets);
    PickedFoodsShape(liked, used, c, mealType);
  }

  /** Every meal of a day built from full buckets is full. */
  lemma DayMealIsFull(liked: set<string>, used: set<int>, c: CategorizedFoods, daily: MacroTargets, types: seq<MealType>, i: nat)
    requires NonZeroTargets(daily) && i < |types|
    requires c.proteins != [] && c.carbs != [] && (c.vegetables != [] || c.fruits != [])
    ensures FullMeal(DayMealsSpec(liked, used, c, daily, types).meals[i])
  {
    var before := DayMealsSpec(liked, used, c, daily, types[..i]).used;
    var targets := MealTargets(daily, types[i]);
    DayMealIsBuiltMeal(liked, used, c, daily, types, i);
    MealOfFullBucketsIsFull(liked, before, c, types[i], targets);
    BuiltMealIsPortioned(liked, before, c, types[i], targets);
  }

  /** The day a run builds from full buckets: four full meals, breakfast to snack. */
  lemma FullDay(liked: set<string>, c: CategorizedFoods, daily: MacroTargets)
    requires NonZeroTargets(daily)
    requires c.proteins != [] && c.carbs != [] && (c.vegetables != [] || c.fruits != [])
    ensures var meals := DayMealsSpec(liked, {}, c, daily, AllMealTypes).meals;
      InMealOrder(meals) && forall i :: 0 <= i < 4 ==> FullMeal(meals[i])
  {
    var meals := DayMealsSpec(liked, {}, c, daily, AllMealTypes).meals;
    TypesInMealOrder(meals);
    forall i | 0 <= i < 4 ensures FullMeal(meals[i]) {
      DayMealIsFull(liked, {}, c, daily, AllMealTypes, i);
    }
  }

  /** The meals of the day a run builds once every check has passed. */
  function RunMeals(user: User, catalog: seq<Food>): seq<Meal>
    requires user.nutritionProfile.Some? && ExtractDailyTargets(user.nutritionProfile.value).Some?
  {
    var profile := user.nutritionProfile.value;
    DayMealsSpec(LikedNames(user.foodPreferences), {}, RunFoods(user, profile, catalog), ExtractDailyTargets(profile).value, AllMealTypes)
      .meals
  }

  /** A run whose checks pass builds four full meals, breakfast to snack. */
  lemma SuccessfulDay(user: User, catalog: seq<Food>)
    requires user.nutritionProfile.Some?
    requires ExtractDailyTargets(user.nutritionProfile.value).Some?
    requires ValidateFoodAvailability(RunFoods(user, user.nutritionProfile.value, catalog)).None?
    ensures var meals := RunMeals(user, catalog);
      InMealOrder(meals) && forall i :: 0 <= i < 4 ==> FullMeal(meals[i])
  {
    var profile := user.nutritionProfile.value;
    FullDay(LikedNames(user.foodPreferences), RunFoods(user, profile, catalog), ExtractDailyTargets(profile).value);
  }

  /** Every food of every meal of a built day comes out of one of the buckets. */
  lemma DayFoodsComeFromBuckets(liked: set<string>, used: set<int>, c: CategorizedFoods, daily: MacroTargets,
                                types: seq<MealType>, i: nat, k: nat)
    requires NonZeroTargets(daily) && i < |types|
    requires k < |DayMealsSpec(liked, used, c, daily, types).meals[i].items|
    ensures InSomeBucket(c, DayMealsSpec(liked, used, c, daily, types).meals[i].items[k].food)
  {
    var before := DayMealsSpec(liked, used, c, daily, types[..i]).used;
    DayMealIsBuiltMeal(liked, used, c, daily, types, i);
    BuiltMealFoodsComeFromBuckets(liked, before, c, types[i], MealTargets(daily, types[i]));
  }

  /** A run serves only catalog foods that the user has not disliked and that carry
      every dietary restriction of the profile as a tag. */
  lemma ServedFoodsAreAllowed(user: User, catalog: seq<Food>)
    requires user.nutritionProfile.Some? && ExtractDailyTargets(user.nutritionProfile.value).Some?
    ensures var meals := RunMeals(user, catalog);
      var restrictions := LowerAll(user.nutritionProfile.value.dietaryRestrictions);
      forall i, k :: 0 <= i < |meals| && 0 <= k < |meals[i].items| ==>
        meals[i].items[k].food in catalog &&
        Keeps(DislikedNames(user.foodPreferences), restrictions, meals[i].items[k].food)
  {
    var profile := user.nutritionProfile.value;
    var liked := LikedNames(user.foodPreferences);
    var restrictions := LowerAll(profile.dietaryRestrictions);
    var filtered := FilterFoods(DislikedNames(user.foodPreferences), restrictions, catalog);
    var meals := RunMeals(user, catalog);
    forall i, k | 0 <= i < |meals| && 0 <= k < |meals[i].items|
      ensures meals[i].items[k].food in catalog
      ensures Keeps(DislikedNames(user.foodPreferences), restrictions, meals[i].items[k].food)
    {
      DayFoodsComeFromBuckets(liked, {}, RunFoods(user, profile, catalog), ExtractDailyTargets(profile).value, AllMealTypes, i, k);
      CategorizedFoodsComeFromInput(liked, filtered, meals[i].items[k].food);
    }
  }

  /** Four full meals, stored and formatted, come back as they are, with day totals
      that are the sum of the meal totals. */
  lemma FullDayComesBack(id: int, userId: int, date: DayKey, meals: seq<Meal>)
    requires InMealOrder(meals) && forall i :: 0 <= i < 4 ==> FullMeal(meals[i])
    ensures FormatSpec(SaveMenu(id, userId, date, meals, CalculateDayTotals(meals))) ==
      GeneratedMenu(id, date, meals, SumOfMealTotals(meals))
  {
    NonEmptyMealsKeepsFullMeals(meals);
    forall i, k | 0 <= i < 4 && 0 <= k < |meals[i].items| ensures ConsistentItem(meals[i].items[k]) {
      assert FullMeal(meals[i]);
    }
    StoredDayFormatsBack(id, userId, date, meals, CalculateDayTotals(meals));
    assert MealItemsOneDecimal(meals);
    DayTotalsAreSumOfMealTotals(meals);
  }

  /** A run that passes every check stores its built day with the day totals and
      answers with that stored menu, formatted. */
  lemma RunThatPassesStoresItsDay(userId: int, date: DayKey, user: User, catalog: seq<Food>, newMenuId: int)
    requires user.nutritionProfile.Some? && ExtractDailyTargets(user.nutritionProfile.value).Some?
    requires ValidateFoodAvailability(RunFoods(user, user.nutritionProfile.value, catalog)).None?
    ensures var meals := RunMeals(user, catalog);
      var menu := SaveMenu(newMenuId, userId, date, meals, CalculateDayTotals(meals));
      GenerateSpec(userId, date, None, user, catalog, newMenuId) == Outcome(Ok(FormatSpec(menu)), Some(menu))
  {
  }

  /** A successful run answers with exactly its four meals, breakfast to snack, and
      with day totals that are the sum of the meal totals; and it stores the menu. */
  lemma SuccessfulRunServesFourMeals(userId: int, date: DayKey, user: User, catalog: seq<Food>, newMenuId: int)
    requires GenerateSpec(userId, date, None, user, catalog, newMenuId).response.Ok?
    ensures user.nutritionProfile.Some? && ExtractDailyTargets(user.nutritionProfile.value).Some?
    ensures var o := GenerateSpec(userId, date, None, user, catalog, newMenuId);
      var meals := RunMeals(user, catalog);
      && o.saved.Some?
      && o.response.value == GeneratedMenu(newMenuId, date, meals, SumOfMealTotals(meals))
      && InMealOrder(o.response.value.meals)
  {
    FailurePrecedence(userId, date, user, catalog, newMenuId);
    RunThatPassesStoresItsDay(userId, date, user, catalog, newMenuId);
    SuccessfulDay(user, catalog);
    FullDayComesBack(newMenuId, userId, date, RunMeals(user, catalog));
  }

  // ---------------------------------------------------------------- the service

  lemma ItemsOfTypeStep(stored: seq<StoredItem>, i: nat, t: MealType)
    requires i < |stored|
    ensures ItemsOfType(stored[..i + 1], t) == ItemsOfType(stored[..i], t) +
      (if stored[i].mealType == t then [CalculateMacros(stored[i].food, stored[i].grams)] else [])
  {
    assert stored[..i + 1][..i] == stored[..i];
  }

  /** The record of meals by type while `formatMenuForResponse` runs: every type has
      the recomputed items of its stored rows so far, and the first `totalled` types
      (in key order) also have their totals. */
  predicate Grouped(m: map<MealType, Meal>, stored: seq<StoredItem>, totalled: nat)
  {
    forall t: MealType :: (t in m && m[t] ==
      Meal(t, ItemsOfType(stored, t), if MealIndex(t) < totalled then SumMacros(ItemsOfType(stored, t)) else ZeroMacros))
  }

  lemma GroupedAtStart(stored: seq<StoredItem>)
    ensures Grouped(map[
        Breakfast := Meal(Breakfast, [], ZeroMacros),
        Lunch := Meal(Lunch, [], ZeroMacros),
        Dinner := Meal(Dinner, [], ZeroMacros),
        Snack := Meal(Snack, [], ZeroMacros)], stored[..0], 0)
  {
    assert stored[..0] == [];
    var m := map[
        Breakfast := Meal(Breakfast, [], ZeroMacros),
        Lunch := Meal(Lunch, [], ZeroMacros),
        Dinner := Meal(Dinner, [], ZeroMacros),
        Snack := Meal(Snack, [], ZeroMacros)];
    forall t: MealType ensures t in m && m[t] == Meal(t, [], ZeroMacros) {
      match t
      case Breakfast =>
      case Lunch =>
      case Dinner =>
      case Snack =>
    }
  }

  lemma GroupedAppend(m: map<MealType, Meal>, stored: seq<StoredItem>, i: nat)
    requires i < |stored| && Grouped(m, stored[..i], 0)
    ensures var item := stored[i];
      var meal := m[item.mealType];
      Grouped(m[item.mealType := meal.(items := meal.items + [CalculateMacros(item.food, item.grams)])], stored[..i + 1], 0)
  {
    forall t: MealType ensures ItemsOfType(stored[..i + 1], t) ==
      ItemsOfType(stored[..i], t) + (if stored[i].mealType == t then [CalculateMacros(stored[i].food, stored[i].grams)] else []) {
      ItemsOfTypeStep(stored, i, t);
    }
  }

  lemma WholeStore(stored: seq<StoredItem>)
    ensures stored[..|stored|] == stored
  {
  }

  lemma GroupedTotal(m: map<MealType, Meal>, stored: seq<StoredItem>, j: nat)
    requires j < 4 && Grouped(m, stored, j)
    ensures var t := [Breakfast, Lunch, Dinner, Snack][j];
      Grouped(m[t := m[t].(totals := SumMacros(m[t].items))], stored, j + 1)
  {
    var t := [Breakfast, Lunch, Dinner, Snack][j];
    assert MealIndex(t) == j;
  }

  lemma GroupedAtEnd(m: map<MealType, Meal>, stored: seq<StoredItem>)
    requires Grouped(m, stored, 4)
    ensures Breakfast in m && Lunch in m && Dinner in m && Snack in m
    ensures [m[Breakfast], m[Lunch], m[Dinner], m[Snack]] == Grouping(stored)
  {
    assert m[Breakfast] == GroupMeal(stored, Breakfast);
    assert m[Lunch] == GroupMeal(stored, Lunch);
    assert m[Dinner] == GroupMeal(stored, Dinner);
    assert m[Snack] == GroupMeal(stored, Snack);
  }

  /** The generation service of one user. */
  class MenuGeneratorService {
    const userId: int

    constructor(userId: int)
      ensures this.userId == userId
    {
      this.userId := userId;
    }

    /** `buildAllMeals`: breakfast, lunch, dinner and snack, in turn, each built from
        the daily targets times the meal's weight, through the run's one builder. */
    method BuildAllMeals(mealBuilder: MealBuilder, dailyTargets: MacroTargets) returns (meals: seq<Meal>)
      requires NonZeroTargets(dailyTargets)
      modifies mealBuilder.foodSelector`usedFoodIds
      ensures Day(meals, mealBuilder.foodSelector.usedFoodIds) ==
        DayMealsSpec(mealBuilder.foodSelector.likedFoods, old(mealBuilder.foodSelector.usedFoodIds),
          mealBuilder.categorizedFoods, dailyTargets, AllMealTypes)
    {
      var liked, c := mealBuilder.foodSelector.likedFoods, mealBuilder.categorizedFoods;
      meals := [];
      var mealTypes: seq<MealType> := [Breakfast, Lunch, Dinner, Snack];
      DayOfNoMeals(liked, old(mealBuilder.foodSelector.usedFoodIds), c, dailyTargets, mealTypes);
      for i := 0 to |mealTypes|
        invariant Day(meals, mealBuilder.foodSelector.usedFoodIds) ==
          DayMealsSpec(liked, old(mealBuilder.foodSelector.usedFoodIds), c, dailyTargets, mealTypes[..i])
      {
        var mealType := mealTypes[i];
        var mealTargets := MealTargets(dailyTargets, mealType);
        ghost var before := mealBuilder.foodSelector.usedFoodIds;
        var meal := mealBuilder.BuildMeal(mealType, mealTargets);
        DayGrowsByBuiltMeal(liked, old(mealBuilder.foodSelector.usedFoodIds), c, dailyTargets, mealTypes, i,
          meals, before, meal, mealBuilder.foodSelector.usedFoodIds);
        meals := meals + [meal];
      }
      WholePrefix(mealTypes);
    }

    /** `formatMenuForResponse`: every stored item, recomputed, is appended to the meal
        of its type; then every meal gets the `sumMacros` of its items; then the meals
        with items are listed breakfast to snack, with the stored day totals. */
    method FormatMenuForResponse(menu: StoredMenu) returns (g: GeneratedMenu)
      ensures g == FormatSpec(menu)
    {
      var stored := menu.menuItems;
      var mealsByType: map<MealType, Meal> := map[
        Breakfast := Meal(Breakfast, [], ZeroMacros),
        Lunch := Meal(Lunch, [], ZeroMacros),
        Dinner := Meal(Dinner, [], ZeroMacros),
        Snack := Meal(Snack, [], ZeroMacros)];
      GroupedAtStart(stored);
      for i := 0 to |stored|
        invariant Grouped(mealsByType, stored[..i], 0)
      {
        var item := stored[i];
        var mealItem := CalculateMacros(item.food, item.grams);
        GroupedAppend(mealsByType, stored, i);
        var meal := mealsByType[item.mealType];
        mealsByType := mealsByType[item.mealType := meal.(items := meal.items + [mealItem])];
      }
      WholeStore(stored);
      var keys: seq<MealType> := [Breakfast, Lunch, Dinner, Snack];
      for j := 0 to |keys|
        invariant Grouped(mealsByType, stored, j)
      {
        var mealType := keys[j];
        GroupedTotal(mealsByType, stored, j);
        var meal := mealsByType[mealType];
        mealsByType := mealsByType[mealType := meal.(totals := SumMacros(meal.items))];
      }
      GroupedAtEnd(mealsByType, stored);
      var values := [mealsByType[Breakfast], mealsByType[Lunch], mealsByType[Dinner], mealsByType[Snack]];
      g := GeneratedMenu(menu.id, menu.date, NonEmptyMeals(values),
        MacroTargets(menu.totalCalories, menu.proteinTotal, menu.carbsTotal, menu.fatTotal));
    }

    /** `generateMenu`, with the database reads and writes made explicit: the day's
        existing menu, the user with profile and preferences, the catalog and the id
        the stored menu receives are inputs; the stored menu is part of the outcome. */
    method GenerateMenu(date: DayKey, existing: Option<StoredMenu>, user: User, catalog: seq<Food>, newMenuId: int)
      returns (o: Outcome)
      ensures o == GenerateSpec(userId, date, existing, user, catalog, newMenuId)
    {
      if existing.Some? {
        var g := FormatMenuForResponse(existing.value);
        return Outcome(Ok(g), None);
      }
      if user.nutritionProfile.None? {
        return Outcome(Err(ProfileNotFound), None);
      }
      var profile := user.nutritionProfile.value;
      var dailyTargets := ExtractDailyTargets(profile);
      if dailyTargets.None? {
        return Outcome(Err(TargetsUnavailable), None);
      }
      var foodSelector := new FoodSelector(user.foodPreferences, profile.dietaryRestrictions);
      var categorizedFoods := foodSelector.GetCategorizedFoods(catalog);
      var check := ValidateFoodAvailability(categorizedFoods);
      if check.Some? {
        return Outcome(Err(check.value), None);
      }
      var mealBuilder := new MealBuilder(foodSelector, categorizedFoods);
      var meals := BuildAllMeals(mealBuilder, dailyTargets.value);
      var totals := CalculateDayTotals(meals);
      var menu := SaveMenu(newMenuId, userId, date, meals, totals);
      var g := FormatMenuForResponse(menu);
      return Outcome(Ok(g), Some(menu));
    }
  }
}
