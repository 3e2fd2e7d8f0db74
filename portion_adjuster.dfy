/** Realistic portion sizes: per-category bounds, clamping to multiples of 5 g, and
    proportional rescaling toward a calorie target. */
module PortionAdjuster {
  import opened JsMath
  import opened MenuTypes

  /** The bounds used when a category has no row in the table. */
  const FallbackConstraints: PortionConstraints := PortionConstraints(50.0, 400.0)

  /** `getConstraints`: the table row for the food's category, or the 50-400 g
      fallback. Every category has a row, so the fallback is never taken. */
  function GetConstraints(food: Food): (c: PortionConstraints)
    ensures food.category in DefaultPortionConstraints && c == DefaultPortionConstraints[food.category]
    ensures 0.0 < c.minGrams <= c.maxGrams
    ensures MultipleOf5(c.minGrams) && MultipleOf5(c.maxGrams)
  {
    PortionTableIsComplete(food.category);
    if food.category in DefaultPortionConstraints then DefaultPortionConstraints[food.category]
    else FallbackConstraints
  }

  /** `isRealisticPortion`: the portion lies within the food's category bounds. */
  predicate IsRealisticPortion(food: Food, grams: real)
    ensures IsRealisticPortion(food, grams) ==> grams > 0.0
  {
    var c := GetConstraints(food);
    grams >= c.minGrams && grams <= c.maxGrams
  }

  /** `clampPortion`: clamp into the category bounds, then round to the nearest 5 g.
      The result is a realistic multiple of 5 within 2.5 g of the clamped value. */
  function ClampPortion(food: Food, grams: real): (r: real)
    ensures MultipleOf5(r)
    ensures IsRealisticPortion(food, r)
    ensures var c := GetConstraints(food);
      Max(c.minGrams, Min(c.maxGrams, grams)) - 2.5 < r <= Max(c.minGrams, Min(c.maxGrams, grams)) + 2.5
  {
    var c := GetConstraints(food);
    var clamped := Max(c.minGrams, Min(c.maxGrams, grams));
    ClampStaysInBounds(c, clamped);
    Round(clamped / 5.0) as real * 5.0
  }

  /** Rounding to the nearest 5 g cannot leave a range whose ends are multiples of 5. */
  lemma ClampStaysInBounds(c: PortionConstraints, x: real)
    requires MultipleOf5(c.minGrams) && MultipleOf5(c.maxGrams)
    requires c.minGrams <= x <= c.maxGrams
    ensures c.minGrams <= Round(x / 5.0) as real * 5.0 <= c.maxGrams
    ensures MultipleOf5(Round(x / 5.0) as real * 5.0)
  {
    var lo, hi := (c.minGrams / 5.0).Floor, (c.maxGrams / 5.0).Floor;
    RoundMonotone(lo as real, x / 5.0);
    RoundMonotone(x / 5.0, hi as real);
    RoundOfInteger(lo);
    RoundOfInteger(hi);
    var n := Round(x / 5.0);
    assert (n as real * 5.0) / 5.0 == n as real;
  }

  /** The fixed points of `ClampPortion` are exactly the realistic multiples of 5. */
  lemma ClampFixedPoints(food: Food, grams: real)
    ensures ClampPortion(food, grams) == grams <==> IsRealisticPortion(food, grams) && MultipleOf5(grams)
  {
    if IsRealisticPortion(food, grams) && MultipleOf5(grams) {
      var n := (grams / 5.0).Floor;
      RoundOfInteger(n);
    }
  }

  /** Clamping is a projection: a second clamp changes nothing. */
  lemma ClampIdempotent(food: Food, grams: real)
    ensures ClampPortion(food, ClampPortion(food, grams)) == ClampPortion(food, grams)
  {
    ClampFixedPoints(food, ClampPortion(food, grams));
  }

  /** A food with a starting portion. */
  datatype BasePortion = BasePortion(food: Food, baseGrams: real)

  /** A food with its chosen portion. */
  datatype FoodPortion = FoodPortion(food: Food, grams: real)

  /** Exact calories of the base portions, summed left to right. */
  function BaseCalories(foods: seq<BasePortion>): real
  {
    if foods == [] then 0.0
    else BaseCalories(foods[..|foods| - 1]) + PortionCalories(foods[|foods| - 1])
  }

  function PortionCalories(p: BasePortion): real
  {
    InPortion(p.food.caloriesPer100g, p.baseGrams)
  }

  /** A portion multiplied by a scale factor. */
  function Scaled(grams: real, factor: real): real
  {
    grams * factor
  }

  /** Every base portion multiplied by the same factor. */
  function ScaleBase(foods: seq<BasePortion>, factor: real): (r: seq<BasePortion>)
    ensures |r| == |foods|
    ensures forall i :: 0 <= i < |r| ==> r[i] == BasePortion(foods[i].food, Scaled(foods[i].baseGrams, factor))
  {
    seq(|foods|, i requires 0 <= i < |foods| => BasePortion(foods[i].food, Scaled(foods[i].baseGrams, factor)))
  }

  /** Calories are linear in the portions: scaling every portion scales the total. */
  lemma {:induction false} ScaleBaseCalories(foods: seq<BasePortion>, factor: real)
    ensures BaseCalories(ScaleBase(foods, factor)) == factor * BaseCalories(foods)
  {
    if foods != [] {
      var init := foods[..|foods| - 1];
      var scaled := ScaleBase(foods, factor);
      assert forall i :: 0 <= i < |init| ==> scaled[..|foods| - 1][i] == ScaleBase(init, factor)[i];
      assert scaled[..|foods| - 1] == ScaleBase(init, factor);
      ScaleBaseCalories(init, factor);
      var last := foods[|foods| - 1];
      assert PortionCalories(BasePortion(last.food, Scaled(last.baseGrams, factor))) == factor * PortionCalories(last);
    }
  }

  /** So the single scale factor target/current makes the unclamped portions hit
      the calorie target exactly; the clamp is the only source of error. */
  lemma ScaledPortionsHitTarget(foods: seq<BasePortion>, targetCalories: real)
    requires BaseCalories(foods) != 0.0
    ensures BaseCalories(ScaleBase(foods, targetCalories / BaseCalories(foods))) == targetCalories
  {
    ScaleBaseCalories(foods, targetCalories / BaseCalories(foods));
  }

  /** `adjustPortionsForCalories`: one proportional correction pass. Empty input gives
      empty output; zero current calories gives every food 100 g, unclamped; otherwise
      each food keeps its place and gets its base portion times target/current, clamped. */
  method AdjustPortionsForCalories(foods: seq<BasePortion>, targetCalories: real) returns (r: seq<FoodPortion>)
    ensures |r| == |foods|
    ensures forall i :: 0 <= i < |r| ==> r[i].food == foods[i].food
    ensures BaseCalories(foods) == 0.0 ==> forall i :: 0 <= i < |r| ==> r[i].grams == 100.0
    ensures BaseCalories(foods) != 0.0 ==> forall i :: 0 <= i < |r| ==>
      r[i].grams == ClampPortion(foods[i].food, Scaled(foods[i].baseGrams, targetCalories / BaseCalories(foods)))
  {
    if |foods| == 0 {
      return [];
    }
    var currentCalories := 0.0;
    for i := 0 to |foods|
      invariant currentCalories == BaseCalories(foods[..i])
    {
      assert foods[..i + 1][..i] == foods[..i];
      InPortionAsWritten(foods[i].food.caloriesPer100g, foods[i].baseGrams);
      currentCalories := currentCalories + (foods[i].food.caloriesPer100g * foods[i].baseGrams) / 100.0;
    }
    assert foods[..|foods|] == foods;
    if currentCalories == 0.0 {
      return seq(|foods|, i requires 0 <= i < |foods| => FoodPortion(foods[i].food, 100.0));
    }
    var scaleFactor := targetCalories / currentCalories;
    r := seq(|foods|, i requires 0 <= i < |foods| =>
      FoodPortion(foods[i].food, ClampPortion(foods[i].food, Scaled(foods[i].baseGrams, scaleFactor))));
  }

  /** The grams `distributeRemainingCalories` adds to one food: an equal share of the
      remaining calories, converted at the food's calorie density. */
  function ExtraGrams(food: Food, remainingCalories: real, count: nat): (g: real)
    requires count > 0 && food.caloriesPer100g != 0.0
    ensures InPortion(food.caloriesPer100g, g) == remainingCalories / count as real
  {
    ((remainingCalories / count as real) / food.caloriesPer100g) * 100.0
  }

  /** `distributeRemainingCalories`: with nothing to add (no foods, or no positive
      remainder) the list is returned as is; otherwise each food keeps its place and
      receives an equal calorie share, re-clamped to a realistic multiple of 5. */
  function DistributeRemainingCalories(foods: seq<FoodPortion>, remainingCalories: real): (r: seq<FoodPortion>)
    requires remainingCalories > 0.0 ==> forall i :: 0 <= i < |foods| ==> foods[i].food.caloriesPer100g != 0.0
    ensures |foods| == 0 || remainingCalories <= 0.0 ==> r == foods
    ensures |r| == |foods|
    ensures remainingCalories > 0.0 ==> forall i :: 0 <= i < |r| ==>
      && r[i].food == foods[i].food
      && r[i].grams == ClampPortion(foods[i].food, foods[i].grams + ExtraGrams(foods[i].food, remainingCalories, |foods|))
      && IsRealisticPortion(r[i].food, r[i].grams)
      && MultipleOf5(r[i].grams)
  {
    if |foods| == 0 || remainingCalories <= 0.0 then foods
    else
      seq(|foods|, i requires 0 <= i < |foods| =>
        FoodPortion(foods[i].food, ClampPortion(foods[i].food, foods[i].grams + ExtraGrams(foods[i].food, remainingCalories, |foods|))))
  }
}
