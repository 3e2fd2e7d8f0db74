/** The shapes the menu engine works on, and its two constant tables. */
module MenuTypes {
  import opened JsMath

  datatype Option<T> = None | Some(value: T)

  datatype FoodCategory = Protein | Carb | Fat | Vegetable | Fruit | Mixed

  datatype MealType = Breakfast | Lunch | Dinner | Snack

  /** The four meal types in the order the engine builds and lists them. */
  const AllMealTypes: seq<MealType> := [Breakfast, Lunch, Dinner, Snack]

  /** A catalog entry; read-only to the engine. Names are unique in the catalog. */
  datatype Food = Food(
    id: int,
    name: string,
    category: FoodCategory,
    caloriesPer100g: real,
    proteinPer100g: real,
    carbsPer100g: real,
    fatPer100g: real,
    fiberPer100g: Option<real>,
    tags: seq<string>,
    defaultServingGrams: int,
    densityFactor: Option<real>)

  /** A calorie/protein/carbs/fat vector, used both as a target and as a measured total. */
  datatype MacroTargets = MacroTargets(calories: real, protein: real, carbs: real, fat: real)

  const ZeroMacros: MacroTargets := MacroTargets(0.0, 0.0, 0.0, 0.0)

  /** Every field non-zero: the condition under which relative deviations are defined. */
  predicate NonZeroTargets(t: MacroTargets)
  {
    t.calories != 0.0 && t.protein != 0.0 && t.carbs != 0.0 && t.fat != 0.0
  }

  predicate PositiveTargets(t: MacroTargets)
  {
    t.calories > 0.0 && t.protein > 0.0 && t.carbs > 0.0 && t.fat > 0.0
  }

  /** A food at a portion, with the macros of that portion. */
  datatype MealItem = MealItem(food: Food, grams: real, calories: real, protein: real, carbs: real, fat: real)

  /** The exact amount of a nutrient in `grams` of a food that has `per100g` of it
      per 100 g (`per100g * (grams / 100)`). */
  function InPortion(per100g: real, grams: real): real
  {
    per100g * (grams / 100.0)
  }

  lemma InPortionAsWritten(per100g: real, grams: real)
    ensures InPortion(per100g, grams) == (per100g * grams) / 100.0
  {
  }

  /** The item invariant: each derived field is the food's per-100 g value scaled to
      the portion and rounded to one decimal. */
  predicate ConsistentItem(item: MealItem)
  {
    && item.calories == Round1(InPortion(item.food.caloriesPer100g, item.grams))
    && item.protein == Round1(InPortion(item.food.proteinPer100g, item.grams))
    && item.carbs == Round1(InPortion(item.food.carbsPer100g, item.grams))
    && item.fat == Round1(InPortion(item.food.fatPer100g, item.grams))
  }

  datatype Meal = Meal(mealType: MealType, items: seq<MealItem>, totals: MacroTargets)

  /** A calendar day, compared only for equality. */
  datatype DayKey = DayKey(isoDate: string)

  datatype GeneratedMenu = GeneratedMenu(id: int, date: DayKey, meals: seq<Meal>, totals: MacroTargets)

  /** The five selection buckets, each already filtered and ordered. */
  datatype CategorizedFoods = CategorizedFoods(
    proteins: seq<Food>,
    carbs: seq<Food>,
    fats: seq<Food>,
    vegetables: seq<Food>,
    fruits: seq<Food>)

  datatype PortionConstraints = PortionConstraints(minGrams: real, maxGrams: real)

  /** Realistic portion bounds per food category, in grams. */
  const DefaultPortionConstraints: map<FoodCategory, PortionConstraints> := map[
    Protein := PortionConstraints(80.0, 300.0),
    Carb := PortionConstraints(50.0, 250.0),
    Fat := PortionConstraints(10.0, 50.0),
    Vegetable := PortionConstraints(80.0, 300.0),
    Fruit := PortionConstraints(80.0, 200.0),
    Mixed := PortionConstraints(100.0, 400.0)
  ]

  datatype MealDistribution = MealDistribution(breakfast: real, lunch: real, dinner: real, snack: real)

  /** Share of the day's targets given to each meal. */
  const MealCalorieDistribution: MealDistribution := MealDistribution(0.25, 0.35, 0.3, 0.1)

  /** The record lookup `MEAL_CALORIE_DISTRIBUTION[mealType]`. */
  function MealWeight(t: MealType): (w: real)
    ensures 0.0 < w < 1.0
  {
    match t
    case Breakfast => MealCalorieDistribution.breakfast
    case Lunch => MealCalorieDistribution.lunch
    case Dinner => MealCalorieDistribution.dinner
    case Snack => MealCalorieDistribution.snack
  }

  /** The table's documented invariant: the four meal weights sum to 1. */
  lemma MealWeightsSumToOne()
    ensures MealWeight(Breakfast) + MealWeight(Lunch) + MealWeight(Dinner) + MealWeight(Snack) == 1.0
    ensures AllMealTypes == [Breakfast, Lunch, Dinner, Snack]
  {
  }

  /** Every category has a row, and every row is a sensible multiple-of-5 range. */
  lemma PortionTableIsComplete(c: FoodCategory)
    ensures c in DefaultPortionConstraints
    ensures 0.0 < DefaultPortionConstraints[c].minGrams <= DefaultPortionConstraints[c].maxGrams
    ensures MultipleOf5(DefaultPortionConstraints[c].minGrams)
    ensures MultipleOf5(DefaultPortionConstraints[c].maxGrams)
  {
    var b := DefaultPortionConstraints[c];
    match c
    case Protein => assert b.minGrams / 5.0 == 16.0 && b.maxGrams / 5.0 == 60.0;
    case Carb => assert b.minGrams / 5.0 == 10.0 && b.maxGrams / 5.0 == 50.0;
    case Fat => assert b.minGrams / 5.0 == 2.0 && b.maxGrams / 5.0 == 10.0;
    case Vegetable => assert b.minGrams / 5.0 == 16.0 && b.maxGrams / 5.0 == 60.0;
    case Fruit => assert b.minGrams / 5.0 == 16.0 && b.maxGrams / 5.0 == 40.0;
    case Mixed => assert b.minGrams / 5.0 == 20.0 && b.maxGrams / 5.0 == 80.0;
  }
}
