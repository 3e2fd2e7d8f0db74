/** Macro arithmetic: portion macros, grams for a target, running totals and the
    weighted deviation between a measured and a target vector. */
module MacroSolver {
  import opened JsMath
  import opened MenuTypes

  /** `calculateMacros`: the item for `grams` of `food`. Each field is within 0.05 of
      the exact scaled value, never negative for a non-negative food and portion,
      and zero for an empty portion. */
  function CalculateMacros(food: Food, grams: real): (item: MealItem)
    ensures item.food == food && item.grams == grams
    ensures ConsistentItem(item)
    ensures Near(item.calories, InPortion(food.caloriesPer100g, grams))
    ensures Near(item.protein, InPortion(food.proteinPer100g, grams))
    ensures Near(item.carbs, InPortion(food.carbsPer100g, grams))
    ensures Near(item.fat, InPortion(food.fatPer100g, grams))
    ensures NonNegativeFood(food) && grams >= 0.0 ==>
      item.calories >= 0.0 && item.protein >= 0.0 && item.carbs >= 0.0 && item.fat >= 0.0
    ensures grams == 0.0 ==>
      item.calories == 0.0 && item.protein == 0.0 && item.carbs == 0.0 && item.fat == 0.0
  {
    Round1NonNegative(InPortion(food.caloriesPer100g, grams));
    Round1NonNegative(InPortion(food.proteinPer100g, grams));
    Round1NonNegative(InPortion(food.carbsPer100g, grams));
    Round1NonNegative(InPortion(food.fatPer100g, grams));
    assert Round1(0.0) == 0.0;
    MealItem(food, grams,
      Round1(InPortion(food.caloriesPer100g, grams)),
      Round1(InPortion(food.proteinPer100g, grams)),
      Round1(InPortion(food.carbsPer100g, grams)),
      Round1(InPortion(food.fatPer100g, grams)))
  }

  /** Within rounding distance (half a tenth) of an exact value. */
  predicate Near(x: real, exact: real)
  {
    exact - 0.05 <= x <= exact + 0.05
  }

  predicate NonNegativeFood(food: Food)
  {
    food.caloriesPer100g >= 0.0 && food.proteinPer100g >= 0.0 &&
    food.carbsPer100g >= 0.0 && food.fatPer100g >= 0.0
  }

  /** `gramsForCalories`: the portion whose exact calories are the target; 0 for a
      food with no positive calorie value. */
  function GramsForCalories(food: Food, targetCalories: real): (grams: real)
    ensures food.caloriesPer100g <= 0.0 ==> grams == 0.0
    ensures food.caloriesPer100g > 0.0 ==> InPortion(food.caloriesPer100g, grams) == targetCalories
    ensures food.caloriesPer100g > 0.0 && targetCalories >= 0.0 ==> grams >= 0.0
  {
    if food.caloriesPer100g <= 0.0 then 0.0 else (targetCalories / food.caloriesPer100g) * 100.0
  }

  /** `gramsForProtein`: the same inversion on the protein axis. */
  function GramsForProtein(food: Food, targetProtein: real): (grams: real)
    ensures food.proteinPer100g <= 0.0 ==> grams == 0.0
    ensures food.proteinPer100g > 0.0 ==> InPortion(food.proteinPer100g, grams) == targetProtein
    ensures food.proteinPer100g > 0.0 && targetProtein >= 0.0 ==> grams >= 0.0
  {
    if food.proteinPer100g <= 0.0 then 0.0 else (targetProtein / food.proteinPer100g) * 100.0
  }

  /** One step of the `reduce` in `sumMacros`: add an item and re-round each total. */
  function AddItem(acc: MacroTargets, item: MealItem): MacroTargets
  {
    MacroTargets(
      Round1(acc.calories + item.calories),
      Round1(acc.protein + item.protein),
      Round1(acc.carbs + item.carbs),
      Round1(acc.fat + item.fat))
  }

  /** `sumMacros`: a left-to-right fold from zero that re-rounds after every addition.
      Every total keeps one decimal. */
  function SumMacros(items: seq<MealItem>): (t: MacroTargets)
    ensures items == [] ==> t == ZeroMacros
    ensures OneDecimalMacros(t)
  {
    if items == [] then ZeroMacros
    else AddItem(SumMacros(items[..|items| - 1]), items[|items| - 1])
  }

  predicate OneDecimalMacros(t: MacroTargets)
  {
    IsOneDecimal(t.calories) && IsOneDecimal(t.protein) && IsOneDecimal(t.carbs) && IsOneDecimal(t.fat)
  }

  predicate OneDecimalItem(item: MealItem)
  {
    IsOneDecimal(item.calories) && IsOneDecimal(item.protein) && IsOneDecimal(item.carbs) && IsOneDecimal(item.fat)
  }

  /** The exact field-wise sum, a reference for `SumMacros`. */
  function ExactTotal(items: seq<MealItem>): MacroTargets
  {
    if items == [] then ZeroMacros
    else
      var t := ExactTotal(items[..|items| - 1]);
      var x := items[|items| - 1];
      MacroTargets(t.calories + x.calories, t.protein + x.protein, t.carbs + x.carbs, t.fat + x.fat)
  }

  function AddMacros(a: MacroTargets, b: MacroTargets): MacroTargets
  {
    MacroTargets(a.calories + b.calories, a.protein + b.protein, a.carbs + b.carbs, a.fat + b.fat)
  }

  /** The incremental re-rounding loses nothing on items that already carry one
      decimal (every `CalculateMacros` output does): the fold is the exact sum. */
  lemma {:induction false} SumMacrosIsExact(items: seq<MealItem>)
    requires forall i :: 0 <= i < |items| ==> OneDecimalItem(items[i])
    ensures SumMacros(items) == ExactTotal(items)
  {
    if items != [] {
      var init := items[..|items| - 1];
      var x := items[|items| - 1];
      assert forall i :: 0 <= i < |init| ==> init[i] == items[i];
      SumMacrosIsExact(init);
      AddItemIsExact(SumMacros(init), x);
    }
  }

  /** Adding a one-decimal item to one-decimal totals needs no rounding. */
  lemma AddItemIsExact(t: MacroTargets, x: MealItem)
    requires OneDecimalMacros(t) && OneDecimalItem(x)
    ensures AddItem(t, x) == MacroTargets(t.calories + x.calories, t.protein + x.protein, t.carbs + x.carbs, t.fat + x.fat)
  {
    OneDecimalSum(t.calories, x.calories);
    OneDecimalSum(t.protein, x.protein);
    OneDecimalSum(t.carbs, x.carbs);
    OneDecimalSum(t.fat, x.fat);
  }

  /** On any items, each re-rounded total stays within 0.05 per item of the exact sum. */
  lemma {:induction false} SumMacrosError(items: seq<MealItem>)
    ensures var s, e, n := SumMacros(items), ExactTotal(items), |items| as real;
      && e.calories - 0.05 * n <= s.calories <= e.calories + 0.05 * n
      && e.protein - 0.05 * n <= s.protein <= e.protein + 0.05 * n
      && e.carbs - 0.05 * n <= s.carbs <= e.carbs + 0.05 * n
      && e.fat - 0.05 * n <= s.fat <= e.fat + 0.05 * n
  {
    if items != [] {
      SumMacrosError(items[..|items| - 1]);
    }
  }

  /** Exact totals split over concatenation. */
  lemma {:induction false} ExactTotalAppend(a: seq<MealItem>, b: seq<MealItem>)
    ensures ExactTotal(a + b) == AddMacros(ExactTotal(a), ExactTotal(b))
  {
    if b != [] {
      assert (a + b)[..|a + b| - 1] == a + b[..|b| - 1];
      ExactTotalAppend(a, b[..|b| - 1]);
    } else {
      assert a + b == a;
    }
  }

  /** Items that are consistent carry one decimal in every field. */
  lemma ConsistentItemsAreOneDecimal(items: seq<MealItem>)
    requires forall i :: 0 <= i < |items| ==> ConsistentItem(items[i])
    ensures forall i :: 0 <= i < |items| ==> OneDecimalItem(items[i])
  {
  }

  /** `macroDeviation`: the weighted relative error 0.4 / 0.3 / 0.15 / 0.15 over
      calories, protein, carbs and fat. With positive targets it is never negative,
      and it is zero exactly when the actual vector equals the target. */
  function MacroDeviation(actual: MacroTargets, target: MacroTargets): (d: real)
    requires NonZeroTargets(target)
    ensures PositiveTargets(target) ==> d >= 0.0
    ensures PositiveTargets(target) ==> (d == 0.0 <==> actual == target)
  {
    var calDiff := Abs(actual.calories - target.calories) / target.calories;
    var protDiff := Abs(actual.protein - target.protein) / target.protein;
    var carbDiff := Abs(actual.carbs - target.carbs) / target.carbs;
    var fatDiff := Abs(actual.fat - target.fat) / target.fat;
    DiffNonNegative(actual.calories, target.calories);
    DiffNonNegative(actual.protein, target.protein);
    DiffNonNegative(actual.carbs, target.carbs);
    DiffNonNegative(actual.fat, target.fat);
    calDiff * 0.4 + protDiff * 0.3 + carbDiff * 0.15 + fatDiff * 0.15
  }

  function Abs(x: real): (r: real)
    ensures r >= 0.0 && (r == 0.0 <==> x == 0.0)
  {
    if x < 0.0 then -x else x
  }

  lemma DiffNonNegative(a: real, t: real)
    requires t != 0.0
    ensures t > 0.0 ==> Abs(a - t) / t >= 0.0
    ensures Abs(a - t) / t == 0.0 <==> a == t
  {
  }

  /** `isWithinTolerance`: the deviation is at most the tolerance. A vector that
      meets its positive target exactly passes any non-negative tolerance. */
  function IsWithinTolerance(actual: MacroTargets, target: MacroTargets, tolerance: real): (ok: bool)
    requires NonZeroTargets(target)
    ensures ok <==> MacroDeviation(actual, target) <= tolerance
    ensures PositiveTargets(target) && actual == target && tolerance >= 0.0 ==> ok
  {
    MacroDeviation(actual, target) <= tolerance
  }
}
