/** The daily nutrition targets a profile is given at onboarding: basal metabolic rate
    by the Mifflin-St Jeor equation, total daily energy expenditure at the nearest
    100 kcal, a goal adjustment, and a 25 / 50 / 25 split of the calories into
    protein, carbs and fat. */
module NutritionCalculator {
  import opened JsMath
  import opened MenuTypes

  datatype Gender = Male | Female

  datatype ActivityLevel = Sedentary | Light | ModeratelyActive | Active | VeryActive

  datatype Goal = Cut | Maintain | Bulk

  /** The physical activity level factor of each activity level. */
  function ActivityMultiplier(level: ActivityLevel): (m: real)
    ensures 1.0 < m < 2.0
  {
    match level
    case Sedentary => 1.2
    case Light => 1.375
    case ModeratelyActive => 1.55
    case Active => 1.725
    case VeryActive => 1.9
  }

  /** Position of a level on the scale from sedentary to very active. */
  function ActivityRank(level: ActivityLevel): nat
  {
    match level
    case Sedentary => 0
    case Light => 1
    case ModeratelyActive => 2
    case Active => 3
    case VeryActive => 4
  }

  /** The calorie change a goal asks for, in kcal per day. */
  function GoalAdjustment(goal: Goal): int
  {
    match goal
    case Cut => -400
    case Maintain => 0
    case Bulk => 400
  }

  /** The Mifflin-St Jeor equation, before rounding: +5 for men, -161 otherwise
      (an unknown gender included). */
  function MifflinStJeor(gender: Option<Gender>, age: real, weight: real, height: real): real
  {
    10.0 * weight + 6.25 * height - 5.0 * age + (if gender == Some(Male) then 5.0 else -161.0)
  }

  /** `calculateBMR`: the equation's value rounded to the nearest kcal. */
  function CalculateBMR(gender: Option<Gender>, age: real, weight: real, height: real): (bmr: int)
    ensures MifflinStJeor(gender, age, weight, height) - 0.5 < bmr as real <= MifflinStJeor(gender, age, weight, height) + 0.5
  {
    var baseBMR := 10.0 * weight + 6.25 * height - 5.0 * age;
    var adjustment := if gender == Some(Male) then 5.0 else -161.0;
    Round(baseBMR + adjustment)
  }

  /** For the same body, the male rate is exactly 166 kcal above every other. */
  lemma MaleBMRExceedsOtherBy166(gender: Option<Gender>, age: real, weight: real, height: real)
    requires gender != Some(Male)
    ensures CalculateBMR(Some(Male), age, weight, height) == CalculateBMR(gender, age, weight, height) + 166
  {
    var baseBMR := 10.0 * weight + 6.25 * height - 5.0 * age;
    assert baseBMR + 5.0 == (baseBMR - 161.0) + 166 as real;
    RoundShift(baseBMR - 161.0, 166);
  }

  /** `calculateTDEE`: the rate times the activity factor, to the nearest 100 kcal. */
  function CalculateTDEE(bmr: real, level: ActivityLevel): (tdee: int)
    ensures tdee % 100 == 0
  {
    var multiplier := ActivityMultiplier(level);
    Round((bmr * multiplier) / 100.0) * 100
  }

  /** The expenditure is within 50 kcal of the rate times the activity factor. */
  lemma TDEENearProduct(bmr: real, level: ActivityLevel)
    ensures bmr * ActivityMultiplier(level) - 50.0 < CalculateTDEE(bmr, level) as real <= bmr * ActivityMultiplier(level) + 50.0
  {
    var p := bmr * ActivityMultiplier(level);
    NearestHundred(p);
  }

  lemma NearestHundred(p: real)
    ensures p - 50.0 < (Round(p / 100.0) * 100) as real <= p + 50.0
  {
  }

  /** The activity factors strictly increase from sedentary to very active. */
  lemma MultipliersIncrease(a: ActivityLevel, b: ActivityLevel)
    ensures ActivityRank(a) < ActivityRank(b) <==> ActivityMultiplier(a) < ActivityMultiplier(b)
  {
  }

  /** So, for a non-negative rate, a more active level never lowers the expenditure. */
  lemma TDEEMonotoneInActivity(bmr: real, a: ActivityLevel, b: ActivityLevel)
    requires bmr >= 0.0 && ActivityRank(a) <= ActivityRank(b)
    ensures CalculateTDEE(bmr, a) <= CalculateTDEE(bmr, b)
  {
    MultiplierMonotone(a, b);
    FactorMonotone(bmr, ActivityMultiplier(a), ActivityMultiplier(b));
    TDEEUnfolds(bmr, a);
    TDEEUnfolds(bmr, b);
  }

  lemma MultiplierMonotone(a: ActivityLevel, b: ActivityLevel)
    requires ActivityRank(a) <= ActivityRank(b)
    ensures ActivityMultiplier(a) <= ActivityMultiplier(b)
  {
    MultipliersIncrease(a, b);
  }

  /** Rounding the scaled rate to the nearest 100 is monotone in the factor. */
  lemma FactorMonotone(bmr: real, ma: real, mb: real)
    requires bmr >= 0.0 && ma <= mb
    ensures Round((bmr * ma) / 100.0) * 100 <= Round((bmr * mb) / 100.0) * 100
  {
    ScaleMonotone(bmr, ma, mb);
    HundredsMonotone(bmr * ma, bmr * mb);
  }

  lemma TDEEUnfolds(bmr: real, level: ActivityLevel)
    ensures CalculateTDEE(bmr, level) == Round((bmr * ActivityMultiplier(level)) / 100.0) * 100
  {
  }

  lemma ScaleMonotone(x: real, a: real, b: real)
    requires x >= 0.0 && a <= b
    ensures x * a <= x * b
  {
    assert x * b - x * a == x * (b - a);
  }

  /** Rounding to the nearest 100 is monotone. */
  lemma HundredsMonotone(p: real, q: real)
    requires p <= q
    ensures Round(p / 100.0) * 100 <= Round(q / 100.0) * 100
  {
    RoundMonotone(p / 100.0, q / 100.0);
  }

  /** `calculateDailyCalories`: the expenditure moved by the goal's adjustment and
      rounded. */
  function CalculateDailyCalories(tdee: real, goal: Goal): (calories: int)
    ensures tdee + GoalAdjustment(goal) as real - 0.5 < calories as real <= tdee + GoalAdjustment(goal) as real + 0.5
  {
    var adjustment := GoalAdjustment(goal);
    Round(tdee + adjustment as real)
  }

  /** On a whole-number expenditure the rounding is exact: cutting takes 400 kcal,
      maintaining none, bulking adds 400. */
  lemma DailyCaloriesOfWholeTDEE(tdee: int, goal: Goal)
    ensures CalculateDailyCalories(tdee as real, goal) == tdee + GoalAdjustment(goal)
    ensures goal == Cut ==> CalculateDailyCalories(tdee as real, goal) == tdee - 400
    ensures goal == Maintain ==> CalculateDailyCalories(tdee as real, goal) == tdee
    ensures goal == Bulk ==> CalculateDailyCalories(tdee as real, goal) == tdee + 400
  {
    RoundOfInteger(tdee + GoalAdjustment(goal));
  }

  /** The daily grams of each macro. */
  datatype MacroIntake = MacroIntake(proteinIntake: int, fatIntake: int, carbsIntake: int)

  /** `calculateMacros`: a quarter of the calories as protein at 4 kcal/g, a quarter as
      fat at 9 kcal/g and half as carbs at 4 kcal/g, each to the nearest gram. */
  function CalculateMacros(dailyCalories: real): (m: MacroIntake)
    ensures dailyCalories / 16.0 - 0.5 < m.proteinIntake as real <= dailyCalories / 16.0 + 0.5
    ensures dailyCalories / 36.0 - 0.5 < m.fatIntake as real <= dailyCalories / 36.0 + 0.5
    ensures dailyCalories / 8.0 - 0.5 < m.carbsIntake as real <= dailyCalories / 8.0 + 0.5
  {
    MacroIntake(
      Round((dailyCalories * 0.25) / 4.0),
      Round((dailyCalories * 0.25) / 9.0),
      Round((dailyCalories * 0.5) / 4.0))
  }

  /** The three intakes give back the calories they were split from, up to the
      rounding of each gram count (4 + 4.5 + 2 kcal at most). */
  lemma MacrosCoverCalories(dailyCalories: real)
    ensures var m := CalculateMacros(dailyCalories);
      var energy := 4.0 * m.proteinIntake as real + 9.0 * m.fatIntake as real + 4.0 * m.carbsIntake as real;
      dailyCalories - 8.5 < energy <= dailyCalories + 8.5
  {
  }

  /** The onboarding input of `calculateAll`. */
  datatype ProfileInput = ProfileInput(
    gender: Option<Gender>, age: real, weight: real, height: real,
    activityLevel: ActivityLevel, goal: Goal)

  datatype NutritionMetrics = NutritionMetrics(
    bmr: int, tdee: int, dailyCaloriesConsumption: int,
    proteinIntake: int, carbsIntake: int, fatIntake: int)

  /** `calculateAll`: BMR, then TDEE from it, then the goal's calories from that, then
      the macros of those calories. The expenditure is a multiple of 100, the goal
      moves it by exactly its adjustment, and the macros carry those calories. */
  function CalculateAll(input: ProfileInput): (r: NutritionMetrics)
    ensures r.bmr == CalculateBMR(input.gender, input.age, input.weight, input.height)
    ensures r.tdee == CalculateTDEE(r.bmr as real, input.activityLevel)
    ensures r.dailyCaloriesConsumption == CalculateDailyCalories(r.tdee as real, input.goal)
    ensures MacroIntake(r.proteinIntake, r.fatIntake, r.carbsIntake) == CalculateMacros(r.dailyCaloriesConsumption as real)
    ensures r.tdee % 100 == 0
    ensures r.bmr as real * ActivityMultiplier(input.activityLevel) - 50.0 < r.tdee as real
      <= r.bmr as real * ActivityMultiplier(input.activityLevel) + 50.0
    ensures r.dailyCaloriesConsumption == r.tdee + GoalAdjustment(input.goal)
    ensures var energy := 4.0 * r.proteinIntake as real + 9.0 * r.fatIntake as real + 4.0 * r.carbsIntake as real;
      r.dailyCaloriesConsumption as real - 8.5 < energy <= r.dailyCaloriesConsumption as real + 8.5
  {
    var bmr := CalculateBMR(input.gender, input.age, input.weight, input.height);
    var tdee := CalculateTDEE(bmr as real, input.activityLevel);
    var dailyCaloriesConsumption := CalculateDailyCalories(tdee as real, input.goal);
    var macros := CalculateMacros(dailyCaloriesConsumption as real);
    TDEENearProduct(bmr as real, input.activityLevel);
    DailyCaloriesOfWholeTDEE(tdee, input.goal);
    MacrosCoverCalories(dailyCaloriesConsumption as real);
    NutritionMetrics(bmr, tdee, dailyCaloriesConsumption, macros.proteinIntake, macros.carbsIntake, macros.fatIntake)
  }
}
