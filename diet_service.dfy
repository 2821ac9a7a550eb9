/** The mock `DietService` (src/services/dietService.ts): four fixed diet
    programs, lookup by id, and the daily plan of a program. */
module DietService {
  import opened Common
  import NutritionCalculator

  /** `Meal` of src/types/diet.ts; `type` is one of breakfast, lunch, dinner, snack. */
  datatype Meal = Meal(
    id: string, name: string, calories: int, protein: int, carbs: int, fat: int,
    image: Option<string>, mealType: string)

  /** `DailyPlan`: `day` runs from 1 to 7. */
  datatype DailyPlan = DailyPlan(day: int, meals: seq<Meal>, totalCalories: int)

  /** `DietProgram`; `difficulty` is one of easy, medium, hard. */
  datatype DietProgram = DietProgram(
    id: string, name: string, description: string, icon: string,
    difficulty: string, durationWeeks: int, dailyPlans: seq<DailyPlan>)

  function ProgramId(p: DietProgram): string
  {
    p.id
  }

  const Programs: seq<DietProgram> := [
    DietProgram(
      "balanced", "Balanced Diet", "A well-rounded diet with a mix of macronutrients.",
      "scale-outline", "easy", 4,
      [DailyPlan(1, [
        Meal("m1", "Oatmeal with Berries", 350, 12, 60, 6,
             Some("https://images.unsplash.com/photo-1517673400267-0251440c45dc?w=400"), "breakfast"),
        Meal("m2", "Grilled Chicken Salad", 500, 40, 20, 25, None, "lunch"),
        Meal("m3", "Salmon with Quinoa", 600, 45, 45, 22, None, "dinner"),
        Meal("m4", "Almonds", 150, 6, 5, 12, None, "snack")], 2000)]),
    DietProgram(
      "keto", "Keto Diet", "High fat, low carb diet for ketosis.",
      "egg-outline", "medium", 4,
      [DailyPlan(1, [
        Meal("k1", "Bacon and Eggs", 450, 25, 2, 35, None, "breakfast"),
        Meal("k2", "Avocado Salad", 550, 10, 8, 45, None, "lunch"),
        Meal("k3", "Steak with Butter", 700, 50, 0, 50, None, "dinner")], 1800)]),
    DietProgram(
      "vegan", "Vegan Diet", "Plant-based diet rich in fiber.",
      "leaf-outline", "medium", 4,
      [DailyPlan(1, [
        Meal("v1", "Smoothie Bowl", 400, 10, 70, 8, None, "breakfast"),
        Meal("v2", "Lentil Soup", 450, 18, 60, 10, None, "lunch"),
        Meal("v3", "Tofu Stir-fry", 500, 25, 40, 20, None, "dinner")], 1800)]),
    DietProgram(
      "paleo", "Paleo Diet", "Eat like a hunter-gatherer.",
      "nutrition-outline", "hard", 4,
      [DailyPlan(1, [
        Meal("p1", "Fruit Salad", 300, 2, 70, 1, None, "breakfast"),
        Meal("p2", "Grilled Chicken", 600, 60, 0, 30,
             Some("https://images.unsplash.com/photo-1532550907401-a500c9a57435?w=400"), "lunch"),
        Meal("p3", "Steak and Veggies", 700, 70, 10, 40, None, "dinner")], 2000)])
  ]

  /** `getAllPrograms`: the four programs in fixture order, with distinct ids. */
  function GetAllPrograms(): (ps: seq<DietProgram>)
    ensures |ps| == 4
    ensures ps[0].id == "balanced" && ps[1].id == "keto" && ps[2].id == "vegan" && ps[3].id == "paleo"
    ensures DistinctKeys(ps, ProgramId)
  {
    Programs
  }

  /** `getProgramById`: the program with that id, or undefined. */
  function GetProgramById(id: string): (r: Option<DietProgram>)
    ensures r.Some? ==> r.value in Programs && r.value.id == id
    ensures r.None? <==> id !in {"balanced", "keto", "vegan", "paleo"}
  {
    Find(Programs, ProgramId, id)
  }

  /** `getDailyPlan`: the first daily plan of the program, whatever day is
      asked for; undefined for an unknown program or one without plans. */
  function GetDailyPlan(dietId: string, day: int): (r: Option<DailyPlan>)
    ensures r.None? <==> GetProgramById(dietId).None? || GetProgramById(dietId).value.dailyPlans == []
    ensures r.Some? ==> r.value == GetProgramById(dietId).value.dailyPlans[0]
  {
    var program := Find(Programs, ProgramId, dietId);
    if program.Some? && |program.value.dailyPlans| > 0 then Some(program.value.dailyPlans[0])
    else None
  }

  /** The plan does not depend on the day asked for. */
  lemma DailyPlanIgnoresDay(dietId: string, d1: int, d2: int)
    ensures GetDailyPlan(dietId, d1) == GetDailyPlan(dietId, d2)
  {
  }

  /** Every program is found by its id and has a day-1 plan. */
  lemma EveryProgramHasAPlan(i: nat)
    requires i < |GetAllPrograms()|
    ensures GetProgramById(Programs[i].id) == Some(Programs[i])
    ensures GetDailyPlan(Programs[i].id, 1) == Some(Programs[i].dailyPlans[0])
    ensures Programs[i].dailyPlans[0].day == 1
  {
    FindDistinct(Programs, ProgramId, i);
  }

  /** The program ids are the diet types the macro calculator knows: keto,
      vegan and paleo each have their own split, and balanced is the default. */
  lemma ProgramIdsAreDietTypes()
    ensures forall p :: p in Programs ==>
              p.id == "balanced" || p.id in NutritionCalculator.SpecialDietTypes
    ensures forall d :: d in NutritionCalculator.SpecialDietTypes ==> GetProgramById(d).Some?
    ensures NutritionCalculator.DietRatios(Some("balanced")) == NutritionCalculator.Balanced
    ensures NutritionCalculator.DietRatios(Some("keto")) != NutritionCalculator.Balanced
    ensures NutritionCalculator.DietRatios(Some("vegan")) != NutritionCalculator.Balanced
    ensures NutritionCalculator.DietRatios(Some("paleo")) != NutritionCalculator.Balanced
  {
  }
}
