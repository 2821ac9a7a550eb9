/** `NutritionCalculator` (src/utils/nutritionCalculator.ts): the water target,
    the daily calorie target (Mifflin-St Jeor BMR times an activity multiplier,
    moved by 500 kcal for the goal) and the macro split by diet type.

    Arithmetic is exact; `Math.round` is RoundHalfUp and
    `parseFloat(x.toFixed(1))` is ToFixed(x, 1). */
module NutritionCalculator {
  import opened Common
  import opened Profiles

  const DefaultWaterLiters: real := 2.5
  const DefaultCalories: int := 2000

  /** `calculateWaterTarget`: 35 ml per kilogram, in litres to one decimal,
      and 2.5 l when the weight is absent or zero.  A negative weight is
      truthy, so it is not defaulted. */
  function WaterTarget(weightKg: Option<real>): (liters: real)
    ensures !Truthy(weightKg) ==> liters == DefaultWaterLiters
    ensures Truthy(weightKg) ==>
              (liters * 10.0).Floor as real == liters * 10.0
              && -0.05 <= liters - weightKg.value * 35.0 / 1000.0 <= 0.05
  {
    if !Truthy(weightKg) then DefaultWaterLiters
    else
      var ml := weightKg.value * 35.0;
      ToFixed(ml / 1000.0, 1)
  }

  lemma WaterTargetExamples()
    ensures WaterTarget(Some(60.0)) == 2.1
    ensures WaterTarget(Some(57.0)) == 2.0
    ensures WaterTarget(Some(70.0)) == 2.5
    ensures WaterTarget(Some(-20.0)) == -0.7
    ensures WaterTarget(Some(0.0)) == 2.5 && WaterTarget(None) == 2.5
  {
    assert FixedUnits(2.1, 1) == 21;
    assert FixedUnits(1.995, 1) == 20;
    assert FixedUnits(2.45, 1) == 25;
    assert FixedUnits(-0.7, 1) == -7;
  }

  /** The guard of `calculateDailyCalories`: a profile with truthy weight,
      height, age and gender. */
  predicate Calculable(profile: Option<Profile>)
  {
    && profile.Some?
    && Truthy(profile.value.weight)
    && Truthy(profile.value.height)
    && Truthy(profile.value.age)
    && NonEmpty(profile.value.gender)
  }

  /** Mifflin-St Jeor: 10 w + 6.25 h - 5 a, plus 5 for `'male'` and minus 161
      for every other gender. */
  function Bmr(p: Profile): real
    requires Calculable(Some(p))
  {
    var base := 10.0 * p.weight.value + 6.25 * p.height.value - 5.0 * p.age.value;
    if p.gender == Some("male") then base + 5.0 else base - 161.0
  }

  /** `activityMultipliers[profile.activityLevel || 'moderate'] || 1.55`. */
  function ActivityMultiplier(level: Option<string>): (m: real)
    ensures m > 0.0
    ensures !NonEmpty(level) ==> m == 1.55
    ensures NonEmpty(level) && level.value !in KnownActivityLevels ==> m == 1.55
  {
    var key := if NonEmpty(level) then level.value else "moderate";
    if key == "sedentary" then 1.2
    else if key == "light" then 1.375
    else if key == "moderate" then 1.55
    else if key == "active" then 1.725
    else if key == "very_active" then 1.9
    else 1.55
  }

  const KnownActivityLevels: set<string> :=
    {"sedentary", "light", "moderate", "active", "very_active"}

  /** The goal adjustment: 500 kcal less to lose, 500 more to gain, none for
      any other target or none at all. */
  function GoalAdjustment(target: Option<string>): int
  {
    if target == Some("lose") then -500
    else if target == Some("gain") then 500
    else 0
  }

  /** Total daily energy expenditure: BMR times the activity multiplier. */
  function Tdee(p: Profile): real
    requires Calculable(Some(p))
  {
    Bmr(p) * ActivityMultiplier(p.activityLevel)
  }

  /** `calculateDailyCalories`: 2000 unless the profile is calculable, and
      otherwise the whole number nearest to BMR x multiplier + adjustment. */
  function DailyCalories(profile: Option<Profile>): (kcal: int)
    ensures !Calculable(profile) ==> kcal == DefaultCalories
    ensures Calculable(profile) ==>
              var p := profile.value;
              kcal as real - 0.5 <= Tdee(p) + GoalAdjustment(p.target) as real < kcal as real + 0.5
  {
    if !Calculable(profile) then DefaultCalories
    else
      var p := profile.value;
      var tdee := Tdee(p);
      if p.target == Some("lose") then RoundHalfUp(tdee - 500.0)
      else if p.target == Some("gain") then RoundHalfUp(tdee + 500.0)
      else RoundHalfUp(tdee)
  }

  /** Losing is exactly 500 kcal below maintaining, gaining exactly 500 above,
      whatever the rounding of the maintenance figure. */
  lemma GoalOffsets(p: Profile)
    requires Calculable(Some(p))
    ensures DailyCalories(Some(p.(target := Some("lose"))))
            == DailyCalories(Some(p.(target := Some("maintain")))) - 500
    ensures DailyCalories(Some(p.(target := Some("gain"))))
            == DailyCalories(Some(p.(target := Some("maintain")))) + 500
  {
    var tdee := Tdee(p);
    RoundHalfUpShift(tdee, -500);
    RoundHalfUpShift(tdee, 500);
  }

  /** A missing target, and any target other than lose or gain, is maintenance. */
  lemma OtherTargetsMaintain(p: Profile)
    requires Calculable(Some(p))
    requires p.target != Some("lose") && p.target != Some("gain")
    ensures DailyCalories(Some(p)) == DailyCalories(Some(p.(target := Some("maintain"))))
  {
  }

  /** Every gender other than `'male'`, `'other'` included, is treated as female. */
  lemma NonMaleGendersAgree(p: Profile, g: string)
    requires Calculable(Some(p))
    requires g != "" && g != "male"
    ensures DailyCalories(Some(p.(gender := Some(g))))
            == DailyCalories(Some(p.(gender := Some("female"))))
  {
  }

  /** A heavier person with otherwise equal data gets no lower target. */
  lemma DailyCaloriesMonotoneInWeight(p: Profile, w: real)
    requires Calculable(Some(p))
    requires w >= p.weight.value && w != 0.0
    ensures DailyCalories(Some(p.(weight := Some(w)))) >= DailyCalories(Some(p))
  {
    var q := p.(weight := Some(w));
    var g := GoalAdjustment(p.target) as real;
    assert Tdee(p) <= Tdee(q) by {
      ScaleMonotone(Bmr(p), Bmr(q), ActivityMultiplier(p.activityLevel));
    }
    RoundHalfUpMonotone(Tdee(p) + g, Tdee(q) + g);
    RoundHalfUpUnique(Tdee(p) + g, DailyCalories(Some(p)));
    RoundHalfUpUnique(Tdee(q) + g, DailyCalories(Some(q)));
  }

  lemma ScaleMonotone(a: real, b: real, m: real)
    requires a <= b && m >= 0.0
    ensures a * m <= b * m
  {
  }

  /** 70 kg, 175 cm, 25 years, male, moderate: 2594 to maintain, 2094 to
      lose, 3094 to gain. */
  lemma DailyCaloriesExample()
    ensures var p := EmptyProfile.(weight := Some(70.0), height := Some(175.0), age := Some(25.0),
                                   gender := Some("male"), activityLevel := Some("moderate"));
            && DailyCalories(Some(p.(target := Some("maintain")))) == 2594
            && DailyCalories(Some(p.(target := Some("lose")))) == 2094
            && DailyCalories(Some(p.(target := Some("gain")))) == 3094
            && DailyCalories(Some(p.(age := Some(0.0)))) == 2000
            && DailyCalories(None) == 2000
  {
    var p := EmptyProfile.(weight := Some(70.0), height := Some(175.0), age := Some(25.0),
                           gender := Some("male"), activityLevel := Some("moderate"));
    assert Bmr(p) == 1673.75;
    RoundHalfUpUnique(2594.3125, 2594);
    RoundHalfUpUnique(2094.3125, 2094);
    RoundHalfUpUnique(3094.3125, 3094);
  }

  /** Calorie shares of protein, carbohydrate and fat. */
  datatype Ratios = Ratios(p: real, c: real, f: real)

  const Balanced: Ratios := Ratios(0.3, 0.4, 0.3)

  /** The ratio table: keto, vegan and paleo have their own split, and every
      other diet type, `'balanced'` and a missing one included, is balanced. */
  function DietRatios(dietType: Option<string>): (r: Ratios)
    ensures r.p + r.c + r.f == 1.0
    ensures r.p >= 0.0 && r.c >= 0.0 && r.f >= 0.0
  {
    var d := if dietType.Some? then dietType.value else "balanced";
    if d == "keto" then Ratios(0.25, 0.05, 0.7)
    else if d == "vegan" then Ratios(0.2, 0.5, 0.3)
    else if d == "paleo" then Ratios(0.4, 0.2, 0.4)
    else Balanced
  }

  datatype Macros = Macros(protein: int, carbs: int, fat: int)

  /** `calculateMacros`: grams at 4 kcal per gram of protein and of
      carbohydrate and 9 kcal per gram of fat, each rounded to a whole gram.
      The grams account for the calories up to the three roundings. */
  function CalculateMacros(calories: real, dietType: Option<string>): (m: Macros)
    ensures var r := DietRatios(dietType);
            && m.protein as real - 0.5 <= calories * r.p / 4.0 < m.protein as real + 0.5
            && m.carbs as real - 0.5 <= calories * r.c / 4.0 < m.carbs as real + 0.5
            && m.fat as real - 0.5 <= calories * r.f / 9.0 < m.fat as real + 0.5
    ensures -8.5 <= 4.0 * m.protein as real + 4.0 * m.carbs as real + 9.0 * m.fat as real - calories <= 8.5
  {
    var r := DietRatios(dietType);
    assert calories * r.p + calories * r.c + calories * r.f == calories * (r.p + r.c + r.f);
    Macros(RoundHalfUp(calories * r.p / 4.0),
           RoundHalfUp(calories * r.c / 4.0),
           RoundHalfUp(calories * r.f / 9.0))
  }

  /** The diet types with a split of their own; everything else is balanced. */
  const SpecialDietTypes: set<string> := {"keto", "vegan", "paleo"}

  /** An unknown or missing diet type gives the balanced split. */
  lemma UnknownDietIsBalanced(calories: real, dietType: Option<string>)
    requires dietType.None? || dietType.value !in SpecialDietTypes
    ensures CalculateMacros(calories, dietType) == CalculateMacros(calories, Some("balanced"))
    ensures DietRatios(dietType) == Ratios(0.3, 0.4, 0.3)
  {
  }

  /** 2000 kcal keto: 125 g protein, 25 g carbohydrate, 156 g fat. */
  lemma KetoExample()
    ensures CalculateMacros(2000.0, Some("keto")) == Macros(125, 25, 156)
    ensures CalculateMacros(2000.0, None) == Macros(150, 200, 67)
  {
    RoundHalfUpUnique(2000.0 * 0.7 / 9.0, 156);
    RoundHalfUpUnique(2000.0 * 0.3 / 9.0, 67);
  }
}
