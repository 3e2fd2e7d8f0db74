/** Building one meal: a protein, a carb, a vegetable or fruit and (except for a
    snack) a fat, portioned from shares of the meal's calories and then rescaled
    until the totals are within tolerance or five passes have been made. */
module MealBuilding {
  import opened JsMath
  import opened MenuTypes
  import opened MacroSolver
  import opened PortionAdjuster
  import opened FoodSelection

  /** Shares of the meal's calories given to each slot. */
  const ProteinShare: real := 0.35
  const CarbShare: real := 0.40
  const ProduceShare: real := 0.15
  const FatShare: real := 0.10

  /** The bound on correction passes, and the deviation accepted between a meal's
      totals and its targets. */
  const MaxIterations: nat := 5
  const MealTolerance: real := 0.15

  /** `shouldIncludeFat`: every meal but the snack gets a fat source. */
  predicate ShouldIncludeFat(mealType: MealType)
  {
    mealType != Snack
  }

  /** Breakfast and the snack look for a fruit first, the other meals for a vegetable. */
  predicate PrefersFruit(mealType: MealType)
  {
    mealType == Breakfast || mealType == Snack
  }

  /** `selectVeggieOrFruit` as a value: select from the preferred list, and only if
      that gives nothing, from the other one. */
  function ProduceSpec(liked: set<string>, used: set<int>, c: CategorizedFoods, mealType: MealType): (s: Selection)
    ensures s.pick.None? <==> c.vegetables == [] && c.fruits == []
    ensures s.pick.Some? ==> s.pick.value in c.vegetables + c.fruits
    ensures s.pick.Some? && PrefersFruit(mealType) && c.fruits != [] ==> s.pick.value in c.fruits
    ensures s.pick.Some? && !PrefersFruit(mealType) && c.vegetables != [] ==> s.pick.value in c.vegetables
    ensures used <= s.used
  {
    var first := if PrefersFruit(mealType) then c.fruits else c.vegetables;
    var second := if PrefersFruit(mealType) then c.vegetables else c.fruits;
    var s1 := SelectSpec(liked, used, first);
    if s1.pick.Some? then s1 else SelectSpec(liked, s1.used, second)
  }

  /** The foods chosen for one meal's four slots, and the used set afterwards. */
  datatype Picks = Picks(protein: Option<Food>, carb: Option<Food>, produce: Option<Food>, fat: Option<Food>, used: set<int>)

  /** The four selections of `buildMeal`, in the order the selector is asked. */
  function PickSpec(liked: set<string>, used: set<int>, c: CategorizedFoods, mealType: MealType): (p: Picks)
    ensures p.protein.None? <==> c.proteins == []
    ensures p.carb.None? <==> c.carbs == []
    ensures p.produce.None? <==> c.vegetables == [] && c.fruits == []
    ensures p.fat.None? <==> mealType == Snack || c.fats == []
    ensures p.protein.Some? ==> p.protein.value in c.proteins
    ensures p.carb.Some? ==> p.carb.value in c.carbs
    ensures p.produce.Some? ==> p.produce.value in c.vegetables + c.fruits
    ensures p.fat.Some? ==> p.fat.value in c.fats
    ensures used <= p.used
  {
    var protein := SelectSpec(liked, used, c.proteins);
    var carb := SelectSpec(liked, protein.used, c.carbs);
    var produce := ProduceSpec(liked, carb.used, c, mealType);
    var fat := if ShouldIncludeFat(mealType) then SelectSpec(liked, produce.used, c.fats) else Selection(None, produce.used);
    Picks(protein.pick, carb.pick, produce.pick, fat.pick, fat.used)
  }

  /** An item is portioned: its macros are those of its grams, and its grams are a
      realistic multiple of 5 for the food. */
  predicate Portioned(item: MealItem)
  {
    ConsistentItem(item) && IsRealisticPortion(item.food, item.grams) && MultipleOf5(item.grams)
  }

  /** The initial item for a slot: the grams that carry the slot's calories, clamped. */
  function SlotItem(food: Food, calories: real): (item: MealItem)
    ensures item.food == food
    ensures food.caloriesPer100g > 0.0 ==>
      var c := GetConstraints(food);
      var exact := (calories / food.caloriesPer100g) * 100.0;
      Max(c.minGrams, Min(c.maxGrams, exact)) - 2.5 < item.grams <= Max(c.minGrams, Min(c.maxGrams, exact)) + 2.5
    ensures food.caloriesPer100g <= 0.0 ==> item.grams == ClampPortion(food, 0.0)
  {
    CalculateMacros(food, ClampPortion(food, GramsForCalories(food, calories)))
  }

  function OptionalItem(food: Option<Food>, calories: real): (r: seq<MealItem>)
    ensures |r| == if food.Some? then 1 else 0
  {
    if food.Some? then [SlotItem(food.value, calories)] else []
  }

  /** The items before adjustment: one per chosen food, in slot order, each sized from
      its slot's share of the meal's calories. */
  function InitialItems(p: Picks, targets: MacroTargets): (items: seq<MealItem>)
    ensures |items| <= 4
    ensures PositiveGrams(items)
  {
    InitialItemsArePortioned(p, targets);
    PortionedHavePositiveGrams(OptionalItem(p.protein, targets.calories * ProteinShare) +
    OptionalItem(p.carb, targets.calories * CarbShare) +
    OptionalItem(p.produce, targets.calories * ProduceShare) +
    OptionalItem(p.fat, targets.calories * FatShare));
    OptionalItem(p.protein, targets.calories * ProteinShare) +
    OptionalItem(p.carb, targets.calories * CarbShare) +
    OptionalItem(p.produce, targets.calories * ProduceShare) +
    OptionalItem(p.fat, targets.calories * FatShare)
  }

  /** Each filled slot's item sits right after the filled slots before it and is sized
      from that slot's own share of the meal's calories (35 % protein, 40 % carb,
      15 % produce, 10 % fat); an empty slot's share is not handed to the others. */
  lemma InitialItemsShares(p: Picks, targets: MacroTargets)
    ensures var items := InitialItems(p, targets);
      var i1 := Slot(p.protein.Some?);
      var i2 := i1 + Slot(p.carb.Some?);
      var i3 := i2 + Slot(p.produce.Some?);
      && |items| == i3 + Slot(p.fat.Some?)
      && (p.protein.Some? ==> items[0] == SlotItem(p.protein.value, targets.calories * 0.35))
      && (p.carb.Some? ==> items[i1] == SlotItem(p.carb.value, targets.calories * 0.40))
      && (p.produce.Some? ==> items[i2] == SlotItem(p.produce.value, targets.calories * 0.15))
      && (p.fat.Some? ==> items[i3] == SlotItem(p.fat.value, targets.calories * 0.10))
  {
    var a := OptionalItem(p.protein, targets.calories * ProteinShare);
    var b := OptionalItem(p.carb, targets.calories * CarbShare);
    var v := OptionalItem(p.produce, targets.calories * ProduceShare);
    var f := OptionalItem(p.fat, targets.calories * FatShare);
    InitialItemsAreFourPieces(p, targets);
    OptionalItemHead(p.protein, targets.calories * ProteinShare);
    OptionalItemHead(p.carb, targets.calories * CarbShare);
    OptionalItemHead(p.produce, targets.calories * ProduceShare);
    OptionalItemHead(p.fat, targets.calories * FatShare);
    FourPieces(a, b, v, f);
  }

  lemma InitialItemsAreFourPieces(p: Picks, targets: MacroTargets)
    ensures InitialItems(p, targets) ==
      OptionalItem(p.protein, targets.calories * ProteinShare) +
      OptionalItem(p.carb, targets.calories * CarbShare) +
      OptionalItem(p.produce, targets.calories * ProduceShare) +
      OptionalItem(p.fat, targets.calories * FatShare)
  {
  }

  lemma OptionalItemHead(food: Option<Food>, calories: real)
    ensures |OptionalItem(food, calories)| == Slot(food.Some?)
    ensures food.Some? ==> OptionalItem(food, calories)[0] == SlotItem(food.value, calories)
  {
  }

  /** Where each piece of a four-way concatenation of short lists starts. */
  lemma FourPieces(a: seq<MealItem>, b: seq<MealItem>, v: seq<MealItem>, f: seq<MealItem>)
    ensures |a + b + v + f| == |a| + |b| + |v| + |f|
    ensures |a| > 0 ==> (a + b + v + f)[0] == a[0]
    ensures |b| > 0 ==> (a + b + v + f)[|a|] == b[0]
    ensures |v| > 0 ==> (a + b + v + f)[|a| + |b|] == v[0]
    ensures |f| > 0 ==> (a + b + v + f)[|a| + |b| + |v|] == f[0]
  {
  }

  /** A slot item is portioned: its grams are a realistic multiple of 5 and its
      macros are those of its grams. */
  lemma SlotItemIsPortioned(food: Food, calories: real)
    ensures Portioned(SlotItem(food, calories))
  {
  }

  lemma InitialItemsArePortioned(p: Picks, targets: MacroTargets)
    ensures var items := OptionalItem(p.protein, targets.calories * ProteinShare) +
      OptionalItem(p.carb, targets.calories * CarbShare) +
      OptionalItem(p.produce, targets.calories * ProduceShare) +
      OptionalItem(p.fat, targets.calories * FatShare);
      forall i :: 0 <= i < |items| ==> Portioned(items[i])
  {
    var a, b, v, f := OptionalItem(p.protein, targets.calories * ProteinShare),
      OptionalItem(p.carb, targets.calories * CarbShare),
      OptionalItem(p.produce, targets.calories * ProduceShare),
      OptionalItem(p.fat, targets.calories * FatShare);
    OptionalItemIsPortioned(p.protein, targets.calories * ProteinShare);
    OptionalItemIsPortioned(p.carb, targets.calories * CarbShare);
    OptionalItemIsPortioned(p.produce, targets.calories * ProduceShare);
    OptionalItemIsPortioned(p.fat, targets.calories * FatShare);
    AllPortionedConcat(a, b);
    AllPortionedConcat(a + b, v);
    AllPortionedConcat(a + b + v, f);
  }

  predicate AllPortioned(items: seq<MealItem>)
  {
    forall i :: 0 <= i < |items| ==> Portioned(items[i])
  }

  lemma OptionalItemIsPortioned(food: Option<Food>, calories: real)
    ensures AllPortioned(OptionalItem(food, calories))
  {
    if food.Some? {
      SlotItemIsPortioned(food.value, calories);
    }
  }

  lemma AllPortionedConcat(a: seq<MealItem>, b: seq<MealItem>)
    requires AllPortioned(a) && AllPortioned(b)
    ensures AllPortioned(a + b)
  {
    forall i | 0 <= i < |a + b| ensures Portioned((a + b)[i]) {
      if i < |a| {
        assert (a + b)[i] == a[i];
      } else {
        assert (a + b)[i] == b[i - |a|];
      }
    }
  }

  /** One item after a correction pass: its grams times target/current calories,
      clamped. When the current total is zero the ratio is infinite; since every
      portion is positive the scaled grams are then infinite as well and clamp to
      the top of the range (or the bottom for a negative target). */
  function RescaleItem(item: MealItem, targetCalories: real, currentCalories: real): (r: MealItem)
    requires item.grams > 0.0
    ensures r.food == item.food && Portioned(r)
    ensures currentCalories != 0.0 ==> r.grams == ClampPortion(item.food, Scaled(item.grams, targetCalories / currentCalories))
    ensures currentCalories == 0.0 && targetCalories > 0.0 ==> r.grams == GetConstraints(item.food).maxGrams
    ensures currentCalories == 0.0 && targetCalories < 0.0 ==> r.grams == GetConstraints(item.food).minGrams
  {
    var c := GetConstraints(item.food);
    var grams :=
      if currentCalories != 0.0 then Scaled(item.grams, targetCalories / currentCalories)
      else if targetCalories > 0.0 then c.maxGrams
      else c.minGrams;
    ClampFixedPoints(item.food, c.maxGrams);
    ClampFixedPoints(item.food, c.minGrams);
    CalculateMacros(item.food, ClampPortion(item.food, grams))
  }

  predicate PositiveGrams(items: seq<MealItem>)
  {
    forall i :: 0 <= i < |items| ==> items[i].grams > 0.0
  }

  lemma PortionedHavePositiveGrams(items: seq<MealItem>)
    requires forall i :: 0 <= i < |items| ==> Portioned(items[i])
    ensures PositiveGrams(items)
  {
    forall i | 0 <= i < |items| ensures items[i].grams > 0.0 {
      var c := GetConstraints(items[i].food);
    }
  }

  /** One correction pass over the whole meal. */
  function Step(items: seq<MealItem>, targets: MacroTargets): (r: seq<MealItem>)
    requires PositiveGrams(items)
    ensures |r| == |items|
    ensures forall i :: 0 <= i < |r| ==> r[i] == RescaleItem(items[i], targets.calories, SumMacros(items).calories)
    ensures forall i :: 0 <= i < |r| ==> r[i].food == items[i].food && Portioned(r[i])
    ensures PositiveGrams(r)
  {
    var current := SumMacros(items).calories;
    var r := seq(|items|, i requires 0 <= i < |items| => RescaleItem(items[i], targets.calories, current));
    PortionedHavePositiveGrams(r);
    r
  }

  /** The meal's totals are within the meal tolerance of its targets. */
  predicate Settled(items: seq<MealItem>, targets: MacroTargets)
    requires NonZeroTargets(targets)
  {
    IsWithinTolerance(SumMacros(items), targets, MealTolerance)
  }

  /** The correction loop with `passes` passes left: stop once settled, otherwise
      rescale and go on. Length, order and foods are kept, and every item is
      portioned once a pass has been made. */
  function AdjustLoop(items: seq<MealItem>, targets: MacroTargets, passes: nat): (r: seq<MealItem>)
    requires NonZeroTargets(targets) && PositiveGrams(items)
    ensures |r| == |items|
    ensures forall i :: 0 <= i < |r| ==> r[i].food == items[i].food
    ensures (forall i :: 0 <= i < |items| ==> Portioned(items[i])) ==> forall i :: 0 <= i < |r| ==> Portioned(r[i])
    decreases passes
  {
    if passes == 0 || Settled(items, targets) then items
    else AdjustLoop(Step(items, targets), targets, passes - 1)
  }

  /** `adjustPortionsToTarget` as a value. */
  function Adjusted(items: seq<MealItem>, targets: MacroTargets): (r: seq<MealItem>)
    requires NonZeroTargets(targets) && PositiveGrams(items)
    ensures |r| == |items|
    ensures forall i :: 0 <= i < |r| ==> r[i].food == items[i].food
  {
    if |items| == 0 then items else AdjustLoop(items, targets, MaxIterations)
  }

  /** `k` unconditional correction passes. */
  function Iterate(items: seq<MealItem>, targets: MacroTargets, k: nat): (r: seq<MealItem>)
    requires PositiveGrams(items)
    ensures PositiveGrams(r)
    decreases k
  {
    if k == 0 then items else Iterate(Step(items, targets), targets, k - 1)
  }

  /** The loop stops at the first settled pass: its result is the k-th iterate for a
      k no larger than the pass budget, no earlier iterate is settled, and unless the
      budget ran out, the k-th one is. */
  lemma {:induction false} AdjustLoopStopsAtFirstSettled(items: seq<MealItem>, targets: MacroTargets, passes: nat)
    requires NonZeroTargets(targets) && PositiveGrams(items)
    ensures exists k :: 0 <= k <= passes && StopsAt(items, targets, passes, k)
    decreases passes
  {
    if passes == 0 || Settled(items, targets) {
      assert StopsAt(items, targets, passes, 0);
    } else {
      var next := Step(items, targets);
      AdjustLoopStopsAtFirstSettled(next, targets, passes - 1);
      var k :| 0 <= k <= passes - 1 && StopsAt(next, targets, passes - 1, k);
      forall j | 0 <= j < k + 1 ensures !Settled(Iterate(items, targets, j), targets) {
        if j > 0 {
          assert Iterate(items, targets, j) == Iterate(next, targets, j - 1);
        }
      }
      assert Iterate(items, targets, k + 1) == Iterate(next, targets, k);
      assert StopsAt(items, targets, passes, k + 1);
    }
  }

  /** The loop with `passes` passes ends after exactly k of them. */
  predicate StopsAt(items: seq<MealItem>, targets: MacroTargets, passes: nat, k: nat)
    requires NonZeroTargets(targets) && PositiveGrams(items)
  {
    && AdjustLoop(items, targets, passes) == Iterate(items, targets, k)
    && (k < passes ==> Settled(Iterate(items, targets, k), targets))
    && (forall j :: 0 <= j < k ==> !Settled(Iterate(items, targets, j), targets))
  }

  /** Items that are already settled come back unchanged. */
  lemma SettledItemsAreKept(items: seq<MealItem>, targets: MacroTargets)
    requires NonZeroTargets(targets) && PositiveGrams(items)
    requires Settled(items, targets)
    ensures Adjusted(items, targets) == items
  {
  }

  /** The result of one `buildMeal`, with the selector's used set afterwards. */
  datatype Built = Built(meal: Meal, used: set<int>)

  /** `buildMeal` as a value: pick, portion, adjust, total. */
  function BuildMealSpec(liked: set<string>, used: set<int>, c: CategorizedFoods, mealType: MealType, targets: MacroTargets): (b: Built)
    requires NonZeroTargets(targets)
    ensures b.meal.mealType == mealType
    ensures b.meal.totals == SumMacros(b.meal.items)
    ensures b.used == PickSpec(liked, used, c, mealType).used
  {
    var p := PickSpec(liked, used, c, mealType);
    var items := Adjusted(InitialItems(p, targets), targets);
    Built(Meal(mealType, items, SumMacros(items)), p.used)
  }

  /** 1 if the bucket gives a food, 0 if not. */
  function Slot(present: bool): nat
  {
    if present then 1 else 0
  }

  function OptionFoods(o: Option<Food>): (r: seq<Food>)
    ensures |r| == Slot(o.Some?)
  {
    if o.Some? then [o.value] else []
  }

  /** The chosen foods in slot order: protein, carb, vegetable or fruit, fat. */
  function PickedFoods(p: Picks): seq<Food>
  {
    OptionFoods(p.protein) + OptionFoods(p.carb) + OptionFoods(p.produce) + OptionFoods(p.fat)
  }

  /** The foods of a list of items, in order. */
  function Foods(items: seq<MealItem>): (r: seq<Food>)
    ensures |r| == |items| && forall i :: 0 <= i < |items| ==> r[i] == items[i].food
  {
    seq(|items|, i requires 0 <= i < |items| => items[i].food)
  }

  lemma FoodsConcat(a: seq<MealItem>, b: seq<MealItem>)
    ensures Foods(a + b) == Foods(a) + Foods(b)
  {
    assert forall i :: 0 <= i < |a + b| ==> Foods(a + b)[i] == (Foods(a) + Foods(b))[i];
  }

  /** The initial items are one per chosen food, in slot order. */
  lemma InitialItemsFollowPicks(p: Picks, targets: MacroTargets)
    ensures Foods(InitialItems(p, targets)) == PickedFoods(p)
  {
    var a, b, v, f := OptionalItem(p.protein, targets.calories * ProteinShare),
      OptionalItem(p.carb, targets.calories * CarbShare),
      OptionalItem(p.produce, targets.calories * ProduceShare),
      OptionalItem(p.fat, targets.calories * FatShare);
    OptionalItemFood(p.protein, targets.calories * ProteinShare);
    OptionalItemFood(p.carb, targets.calories * CarbShare);
    OptionalItemFood(p.produce, targets.calories * ProduceShare);
    OptionalItemFood(p.fat, targets.calories * FatShare);
    FoodsConcat(a, b);
    FoodsConcat(a + b, v);
    FoodsConcat(a + b + v, f);
  }

  lemma OptionalItemFood(food: Option<Food>, calories: real)
    ensures Foods(OptionalItem(food, calories)) == OptionFoods(food)
  {
  }

  /** Adjustment keeps every item portioned. */
  lemma AdjustedStaysPortioned(items: seq<MealItem>, targets: MacroTargets)
    requires NonZeroTargets(targets) && PositiveGrams(items)
    requires forall i :: 0 <= i < |items| ==> Portioned(items[i])
    ensures forall i :: 0 <= i < |Adjusted(items, targets)| ==> Portioned(Adjusted(items, targets)[i])
  {
  }

  /** The meal consists of the chosen foods in slot order. */
  lemma BuiltMealServesPicks(liked: set<string>, used: set<int>, c: CategorizedFoods, mealType: MealType, targets: MacroTargets)
    requires NonZeroTargets(targets)
    ensures Foods(BuildMealSpec(liked, used, c, mealType, targets).meal.items) == PickedFoods(PickSpec(liked, used, c, mealType))
  {
    var p := PickSpec(liked, used, c, mealType);
    var initial := InitialItems(p, targets);
    InitialItemsFollowPicks(p, targets);
    BuiltItems(liked, used, c, mealType, targets);
    SameFoods(Adjusted(initial, targets), initial);
  }

  lemma BuiltItems(liked: set<string>, used: set<int>, c: CategorizedFoods, mealType: MealType, targets: MacroTargets)
    requires NonZeroTargets(targets)
    ensures BuildMealSpec(liked, used, c, mealType, targets).meal.items ==
      Adjusted(InitialItems(PickSpec(liked, used, c, mealType), targets), targets)
  {
  }

  lemma SameFoods(a: seq<MealItem>, b: seq<MealItem>)
    requires |a| == |b| && forall i :: 0 <= i < |a| ==> a[i].food == b[i].food
    ensures Foods(a) == Foods(b)
  {
  }

  /** Every item of the meal is a realistic multiple-of-5 portion whose macros are
      those of its grams. */
  lemma BuiltMealIsPortioned(liked: set<string>, used: set<int>, c: CategorizedFoods, mealType: MealType, targets: MacroTargets)
    requires NonZeroTargets(targets)
    ensures var items := BuildMealSpec(liked, used, c, mealType, targets).meal.items;
      forall i :: 0 <= i < |items| ==> Portioned(items[i])
  {
    var p := PickSpec(liked, used, c, mealType);
    var initial := InitialItems(p, targets);
    InitialItemsArePortionedAfterAll(p, targets);
    AdjustedStaysPortioned(initial, targets);
    assert BuildMealSpec(liked, used, c, mealType, targets).meal.items == Adjusted(initial, targets);
  }

  lemma InitialItemsArePortionedAfterAll(p: Picks, targets: MacroTargets)
    ensures forall i :: 0 <= i < |InitialItems(p, targets)| ==> Portioned(InitialItems(p, targets)[i])
  {
    InitialItemsArePortioned(p, targets);
  }

  /** The chosen foods: one per slot whose bucket is non-empty, each from its bucket,
      and never a fat for the snack. */
  lemma PickedFoodsShape(liked: set<string>, used: set<int>, c: CategorizedFoods, mealType: MealType)
    ensures var f := PickedFoods(PickSpec(liked, used, c, mealType));
      && |f| == Slot(c.proteins != []) + Slot(c.carbs != []) +
           Slot(c.vegetables != [] || c.fruits != []) + Slot(mealType != Snack && c.fats != [])
      && (c.proteins != [] ==> f[0] in c.proteins)
      && (c.proteins != [] && c.carbs != [] ==> f[1] in c.carbs)
      && (c.proteins != [] && c.carbs != [] && (c.vegetables != [] || c.fruits != []) ==>
            f[2] in c.vegetables + c.fruits)
      && (|f| == 4 ==> mealType != Snack && f[3] in c.fats)
      && (mealType == Snack ==> |f| <= 3)
  {
    var p := PickSpec(liked, used, c, mealType);
    var a, b, v, t := OptionFoods(p.protein), OptionFoods(p.carb), OptionFoods(p.produce), OptionFoods(p.fat);
    var f := PickedFoods(p);
    assert f == a + b + v + t;
    if |f| == 4 {
      assert f[3] == t[0];
    }
  }

  /** Every chosen food comes out of one of the buckets. */
  lemma PickedFoodsFromBuckets(liked: set<string>, used: set<int>, c: CategorizedFoods, mealType: MealType)
    ensures forall f :: f in PickedFoods(PickSpec(liked, used, c, mealType)) ==> InSomeBucket(c, f)
  {
    var p := PickSpec(liked, used, c, mealType);
    assert PickedFoods(p) == OptionFoods(p.protein) + OptionFoods(p.carb) + OptionFoods(p.produce) + OptionFoods(p.fat);
  }

  /** So every food a built meal serves comes out of one of the buckets. */
  lemma BuiltMealFoodsComeFromBuckets(liked: set<string>, used: set<int>, c: CategorizedFoods, mealType: MealType, targets: MacroTargets)
    requires NonZeroTargets(targets)
    ensures var items := BuildMealSpec(liked, used, c, mealType, targets).meal.items;
      forall k :: 0 <= k < |items| ==> InSomeBucket(c, items[k].food)
  {
    var items := BuildMealSpec(liked, used, c, mealType, targets).meal.items;
    BuiltMealServesPicks(liked, used, c, mealType, targets);
    PickedFoodsFromBuckets(liked, used, c, mealType);
    forall k | 0 <= k < |items| ensures InSomeBucket(c, items[k].food) {
      assert items[k].food == Foods(items)[k];
    }
  }

  /** The ids a selection marks. */
  function IdsOf(foods: seq<Food>): set<int>
  {
    set f | f in foods :: f.id
  }

  /** A selection marks the id of the food it returns and nothing else (a repeated
      food was already marked). */
  lemma SelectionMarksPick(liked: set<string>, used: set<int>, foods: seq<Food>)
    ensures var s := SelectSpec(liked, used, foods); s.used == used + OptionIds(s.pick)
  {
    var s := SelectSpec(liked, used, foods);
    var k := FirstUnused(foods, used);
    if k == |foods| && s.pick.Some? {
      var j :| 0 <= j < |foods| && foods[j] == s.pick.value;
      assert s.pick.value.id in used;
    }
  }

  lemma ProduceMarksPick(liked: set<string>, used: set<int>, c: CategorizedFoods, mealType: MealType)
    ensures var s := ProduceSpec(liked, used, c, mealType); s.used == used + OptionIds(s.pick)
  {
    var first := if PrefersFruit(mealType) then c.fruits else c.vegetables;
    var second := if PrefersFruit(mealType) then c.vegetables else c.fruits;
    var s1 := SelectSpec(liked, used, first);
    SelectionMarksPick(liked, used, first);
    SelectionMarksPick(liked, s1.used, second);
  }

  /** Choosing a meal's foods marks exactly the ids of the foods chosen. */
  lemma PicksMarkChosenFoods(liked: set<string>, used: set<int>, c: CategorizedFoods, mealType: MealType)
    ensures PickSpec(liked, used, c, mealType).used == used + IdsOf(PickedFoods(PickSpec(liked, used, c, mealType)))
  {
    var p := PickSpec(liked, used, c, mealType);
    PicksMarkSlots(liked, used, c, mealType);
    PickedIds(p);
  }

  /** The used set after the four selections is the old one plus each slot's id. */
  lemma PicksMarkSlots(liked: set<string>, used: set<int>, c: CategorizedFoods, mealType: MealType)
    ensures var p := PickSpec(liked, used, c, mealType);
      p.used == used + (OptionIds(p.protein) + OptionIds(p.carb) + OptionIds(p.produce) + OptionIds(p.fat))
  {
    var protein := SelectSpec(liked, used, c.proteins);
    SelectionMarksPick(liked, used, c.proteins);
    var carb := SelectSpec(liked, protein.used, c.carbs);
    SelectionMarksPick(liked, protein.used, c.carbs);
    var produce := ProduceSpec(liked, carb.used, c, mealType);
    ProduceMarksPick(liked, carb.used, c, mealType);
    var fat := if ShouldIncludeFat(mealType) then SelectSpec(liked, produce.used, c.fats) else Selection(None, produce.used);
    if ShouldIncludeFat(mealType) {
      SelectionMarksPick(liked, produce.used, c.fats);
    }
    assert PickSpec(liked, used, c, mealType) == Picks(protein.pick, carb.pick, produce.pick, fat.pick, fat.used);
    UnionOfFour(used, protein.used, carb.used, produce.used, fat.used,
      OptionIds(protein.pick), OptionIds(carb.pick), OptionIds(produce.pick), OptionIds(fat.pick));
  }

  lemma UnionOfFour(u0: set<int>, u1: set<int>, u2: set<int>, u3: set<int>, u4: set<int>,
                    a: set<int>, b: set<int>, c: set<int>, d: set<int>)
    requires u1 == u0 + a && u2 == u1 + b && u3 == u2 + c && u4 == u3 + d
    ensures u4 == u0 + (a + b + c + d)
  {
  }

  lemma PickedIds(p: Picks)
    ensures IdsOf(PickedFoods(p)) == OptionIds(p.protein) + OptionIds(p.carb) + OptionIds(p.produce) + OptionIds(p.fat)
  {
    var a, b, v, t := OptionFoods(p.protein), OptionFoods(p.carb), OptionFoods(p.produce), OptionFoods(p.fat);
    IdsOfConcat(a, b);
    IdsOfConcat(a + b, v);
    IdsOfConcat(a + b + v, t);
    assert IdsOf(a) == OptionIds(p.protein) && IdsOf(b) == OptionIds(p.carb);
    assert IdsOf(v) == OptionIds(p.produce) && IdsOf(t) == OptionIds(p.fat);
  }

  function OptionIds(o: Option<Food>): set<int>
  {
    if o.Some? then {o.value.id} else {}
  }

  lemma IdsOfConcat(a: seq<Food>, b: seq<Food>)
    ensures IdsOf(a + b) == IdsOf(a) + IdsOf(b)
  {
    forall id | id in IdsOf(a + b) ensures id in IdsOf(a) + IdsOf(b) {
      var f :| f in a + b && f.id == id;
    }
  }

  /** The meal builder of one generation run: it shares the run's selector, so food
      choices across meals see each other. */
  class MealBuilder {
    const foodSelector: FoodSelector
    const categorizedFoods: CategorizedFoods

    constructor(selector: FoodSelector, categorized: CategorizedFoods)
      ensures foodSelector == selector && categorizedFoods == categorized
    {
      foodSelector := selector;
      categorizedFoods := categorized;
    }

    /** `buildMeal`: select the foods, size each slot from its calorie share, adjust,
        and total the adjusted items. */
    method BuildMeal(mealType: MealType, targets: MacroTargets) returns (meal: Meal)
      requires NonZeroTargets(targets)
      modifies foodSelector`usedFoodIds
      ensures Built(meal, foodSelector.usedFoodIds) ==
        BuildMealSpec(foodSelector.likedFoods, old(foodSelector.usedFoodIds), categorizedFoods, mealType, targets)
    {
      var proteinFood := foodSelector.SelectFood(categorizedFoods.proteins);
      var carbFood := foodSelector.SelectFood(categorizedFoods.carbs);
      var veggieOrFruit := SelectVeggieOrFruit(mealType);
      var fatFood: Option<Food> := None;
      if ShouldIncludeFat(mealType) {
        fatFood := foodSelector.SelectFood(categorizedFoods.fats);
      }
      // The four slot items, each sized from the slot's share of the calories.
      var items := InitialItems(Picks(proteinFood, carbFood, veggieOrFruit, fatFood, foodSelector.usedFoodIds), targets);
      var adjustedItems := AdjustPortionsToTarget(items, targets);
      var totals := SumMacros(adjustedItems);
      meal := Meal(mealType, adjustedItems, totals);
    }

    /** `selectVeggieOrFruit`: the preferred list first, the other one only when the
        first gives nothing. */
    method SelectVeggieOrFruit(mealType: MealType) returns (r: Option<Food>)
      modifies foodSelector`usedFoodIds
      ensures Selection(r, foodSelector.usedFoodIds) ==
        ProduceSpec(foodSelector.likedFoods, old(foodSelector.usedFoodIds), categorizedFoods, mealType)
    {
      if mealType == Breakfast || mealType == Snack {
        r := foodSelector.SelectFood(categorizedFoods.fruits);
        if r.None? {
          r := foodSelector.SelectFood(categorizedFoods.vegetables);
        }
      } else {
        r := foodSelector.SelectFood(categorizedFoods.vegetables);
        if r.None? {
          r := foodSelector.SelectFood(categorizedFoods.fruits);
        }
      }
    }

    /** `adjustPortionsToTarget`: up to five proportional passes, stopping as soon as
        the totals are within 0.15 of the targets. */
    method AdjustPortionsToTarget(items: seq<MealItem>, targets: MacroTargets) returns (r: seq<MealItem>)
      requires NonZeroTargets(targets) && PositiveGrams(items)
      ensures r == Adjusted(items, targets)
    {
      if |items| == 0 {
        return items;
      }
      var currentTotals := SumMacros(items);
      var adjustedItems := items;
      var i := 0;
      while i < MaxIterations
        invariant 0 <= i <= MaxIterations
        invariant PositiveGrams(adjustedItems)
        invariant currentTotals == SumMacros(adjustedItems)
        invariant AdjustLoop(adjustedItems, targets, MaxIterations - i) == AdjustLoop(items, targets, MaxIterations)
      {
        if IsWithinTolerance(currentTotals, targets, MealTolerance) {
          break;
        }
        var prev := adjustedItems;
        adjustedItems := seq(|prev|, k requires 0 <= k < |prev| =>
          RescaleItem(prev[k], targets.calories, currentTotals.calories));
        assert adjustedItems == Step(prev, targets);
        currentTotals := SumMacros(adjustedItems);
        i := i + 1;
      }
      r := adjustedItems;
    }
  }
}
