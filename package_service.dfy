/** The mock `PackageService` (src/services/packageService.ts): three fixed
    diet packages, lookup by id, and assigning a package to a user through
    the auth service's profile update. */
module PackageService {
  import opened Common
  import opened Profiles
  import opened AuthService

  datatype SampleDay = SampleDay(breakfast: string, lunch: string, dinner: string, snacks: seq<string>)

  /** `DietPackage` of src/types/package.ts; `goal` is one of
      `lose_weight`, `maintain`, `gain_muscle`. */
  datatype DietPackage = DietPackage(
    id: string,
    name: string,
    goal: string,
    description: string,
    rules: seq<string>,
    allowedFoods: seq<string>,
    forbiddenFoods: seq<string>,
    sampleDay: SampleDay)

  function PackageId(p: DietPackage): string
  {
    p.id
  }

  const Packages: seq<DietPackage> := [
    DietPackage(
      "pkg_basic", "Basic Wellness", "maintain",
      "A balanced diet for maintaining healthy weight.",
      ["Drink 2L water", "No process sugar"],
      ["Vegetables", "Lean meat", "Fruits"],
      ["Fast food", "Soda"],
      SampleDay("Oatmeal with berries", "Grilled chicken salad", "Steamed fish with veggies",
                ["Almonds", "Apple"])),
    DietPackage(
      "pkg_weight_loss", "Rapid Weight Loss", "lose_weight",
      "High protein, low carb plan for effective weight loss.",
      ["No carbs after 6PM", "High protein intake"],
      ["Chicken breast", "Eggs", "Green leafy veg"],
      ["Rice", "Bread", "Sugar"],
      SampleDay("3 Boiled Eggs", "Tuna Salad", "Grilled Chicken Breast", ["Protein Shake"])),
    DietPackage(
      "pkg_muscle", "Muscle Gain", "gain_muscle",
      "Calorie surplus with high protein for muscle building.",
      ["Eat every 3 hours", "Pre/Post workout meals"],
      ["Red meat", "Rice", "Potatoes", "Chicken"],
      ["Empty calories"],
      SampleDay("4 Eggs + Oatmeal", "Steak and Rice", "Salmon and Potatoes",
                ["Greek Yogurt", "Protein Bar"]))
  ]

  /** `getAllPackages`: the three packages, in fixture order. */
  function GetAllPackages(): (ps: seq<DietPackage>)
    ensures |ps| == 3
    ensures ps[0].id == "pkg_basic" && ps[1].id == "pkg_weight_loss" && ps[2].id == "pkg_muscle"
    ensures DistinctKeys(ps, PackageId)
  {
    Packages
  }

  /** `getPackageById`: the package with that id, or null. */
  function GetPackageById(packageId: string): (r: Option<DietPackage>)
    ensures r.Some? ==> r.value in Packages && r.value.id == packageId
    ensures r.None? <==> packageId !in {"pkg_basic", "pkg_weight_loss", "pkg_muscle"}
  {
    Find(Packages, PackageId, packageId)
  }

  /** Every listed package is found again by its own id. */
  lemma ListedPackagesAreFound(i: nat)
    requires i < |GetAllPackages()|
    ensures GetPackageById(GetAllPackages()[i].id) == Some(GetAllPackages()[i])
  {
    FindDistinct(Packages, PackageId, i);
  }

  /** `assignPackageToUser`: the update `{ packageId }` through the auth
      service.  On success the stored profile (or `{}`) gains that package
      and keeps every other key; a stored entry that does not parse rejects. */
  method AssignPackageToUser(auth: AuthService, userId: string, packageId: string) returns (r: Result<()>)
    modifies auth`profiles
    ensures r.Failure? <==> ProfileKey(userId) in old(auth.profiles)
                            && old(auth.profiles)[ProfileKey(userId)].Unparsable?
    ensures r.Failure? ==> auth.profiles == old(auth.profiles)
    ensures r.Success? ==>
              auth.profiles == old(auth.profiles)[ProfileKey(userId) :=
                Parsed(CurrentOrEmpty(old(auth.profiles), userId).(packageId := Some(packageId)))]
  {
    var key := ProfileKey(userId);
    if key !in auth.profiles || auth.profiles[key].Parsed? {
      MergePackageUpdate(CurrentOrEmpty(auth.profiles, userId), packageId);
    }
    r := auth.UpdateUserProfile(userId, PackageUpdate(packageId));
  }
}
