/** The redirect decision of `RootLayoutNav` (app/_layout.tsx): from the
    loading flag, whether a user is signed in, the loaded profile and the
    current route segments, the screen to `router.replace` to, if any.

    Beside the decision stands an independent description of onboarding as
    stages (signed out, profile incomplete, package unselected, ready), each
    with its home screen and the places a user at that stage may stay; the
    lemmas show the decision is exactly "go home unless you may stay". */
module OnboardingRouter {
  import opened Common
  import opened Profiles

  datatype Route = Login | ProfileSetup | PackageSelection | Tabs

  /** The first segment the layout takes for the auth group, which is also
      the folder of the login path it redirects to. */
  const AuthGroupAsWritten := "auth"

  /** The route group the login and register screens live in
      (app/(auth)/login.tsx, app/(auth)/register.tsx). */
  const AuthGroupOfScreens := "(auth)"

  /** The path handed to `router.replace`, for a given auth group name. */
  function PathOf(authGroup: string, r: Route): string
  {
    match r
    case Login => "/" + authGroup + "/login"
    case ProfileSetup => "/(onboarding)/profile-setup"
    case PackageSelection => "/(onboarding)/package-selection"
    case Tabs => "/(tabs)"
  }

  /** The paths the effect hands to `router.replace`, as written, and the
      login path once the auth group is named after the screens' group. */
  lemma PathsAsWritten()
    ensures PathOf(AuthGroupAsWritten, Login) == "/auth/login"
    ensures PathOf(AuthGroupAsWritten, ProfileSetup) == "/(onboarding)/profile-setup"
    ensures PathOf(AuthGroupAsWritten, PackageSelection) == "/(onboarding)/package-selection"
    ensures PathOf(AuthGroupAsWritten, Tabs) == "/(tabs)"
    ensures PathOf(AuthGroupOfScreens, Login) == "/(auth)/login"
  {
  }

  /** The route segments the app reports once it shows that path. */
  function SegmentsOf(authGroup: string, r: Route): seq<string>
  {
    match r
    case Login => [authGroup, "login"]
    case ProfileSetup => ["(onboarding)", "profile-setup"]
    case PackageSelection => ["(onboarding)", "package-selection"]
    case Tabs => ["(tabs)"]
  }

  /** `segments[i]`, which is `undefined` past the end. */
  function Segment(segments: seq<string>, i: nat): Option<string>
  {
    if i < |segments| then Some(segments[i]) else None
  }

  predicate InAuthGroup(authGroup: string, segments: seq<string>)
  {
    Segment(segments, 0) == Some(authGroup)
  }

  predicate InOnboardingGroup(segments: seq<string>)
  {
    Segment(segments, 0) == Some("(onboarding)")
  }

  /** `userProfile?.age && userProfile?.height && userProfile?.weight`. */
  predicate ProfileComplete(profile: Option<Profile>)
  {
    profile.Some? && Truthy(profile.value.age) && Truthy(profile.value.height)
    && Truthy(profile.value.weight)
  }

  /** `userProfile?.packageId` is truthy. */
  predicate HasPackage(profile: Option<Profile>)
  {
    profile.Some? && NonEmpty(profile.value.packageId)
  }

  datatype RouterInput = RouterInput(
    loading: bool,
    signedIn: bool,
    profile: Option<Profile>,
    segments: seq<string>)

  /** The body of the redirect effect, with `router.replace(path)` as
      `Some(route)` and returning without a call as `None`.  The source has
      `authGroup == AuthGroupAsWritten`; every property below holds for any
      name. */
  function Redirect(authGroup: string, s: RouterInput): (target: Option<Route>)
    ensures s.loading ==> target.None?
    ensures target.Some? ==> target.value == Home(StageOf(s.signedIn, s.profile))
  {
    if s.loading then None
    else
      var inAuthGroup := InAuthGroup(authGroup, s.segments);
      var inOnboardingGroup := InOnboardingGroup(s.segments);
      if !s.signedIn && !inAuthGroup then Some(Login)
      else if s.signedIn then
        if !ProfileComplete(s.profile) then
          if Segment(s.segments, 1) != Some("profile-setup") then Some(ProfileSetup) else None
        else if !HasPackage(s.profile) then
          if Segment(s.segments, 1) != Some("package-selection") then Some(PackageSelection) else None
        else
          if inAuthGroup || inOnboardingGroup then Some(Tabs) else None
      else None
  }

  /** Where a user is in onboarding; each gate comes strictly before the next. */
  datatype Stage = SignedOut | ProfileIncomplete | PackageUnselected | Ready

  function StageOf(signedIn: bool, profile: Option<Profile>): Stage
  {
    if !signedIn then SignedOut
    else if !ProfileComplete(profile) then ProfileIncomplete
    else if !HasPackage(profile) then PackageUnselected
    else Ready
  }

  /** The screen a user at a stage is sent to. */
  function Home(stage: Stage): Route
  {
    match stage
    case SignedOut => Login
    case ProfileIncomplete => ProfileSetup
    case PackageUnselected => PackageSelection
    case Ready => Tabs
  }

  /** Where a user at a stage is left alone: signed-out users inside the auth
      group, onboarding users on their own onboarding screen (only the second
      segment is looked at), and ready users anywhere outside the auth and
      onboarding groups. */
  predicate MayStay(authGroup: string, stage: Stage, segments: seq<string>)
  {
    match stage
    case SignedOut => InAuthGroup(authGroup, segments)
    case ProfileIncomplete => Segment(segments, 1) == Some("profile-setup")
    case PackageUnselected => Segment(segments, 1) == Some("package-selection")
    case Ready => !InAuthGroup(authGroup, segments) && !InOnboardingGroup(segments)
  }

  /** Once loading is over, the effect redirects exactly when the user may not
      stay where they are, and then always to the home of their stage. */
  lemma RedirectIsGoHome(authGroup: string, s: RouterInput)
    requires !s.loading
    ensures var stage := StageOf(s.signedIn, s.profile);
            Redirect(authGroup, s) == if MayStay(authGroup, stage, s.segments) then None else Some(Home(stage))
  {
  }

  /** Every stage may stay on its own home screen, whatever the auth group is
      called, as long as it is not the tabs group. */
  lemma HomeIsStable(authGroup: string, stage: Stage)
    requires authGroup != "(tabs)"
    ensures MayStay(authGroup, stage, SegmentsOf(authGroup, Home(stage)))
  {
  }

  /** Anti-loop: with the same user and profile, evaluating again on the
      screen just redirected to produces no further redirect, provided that
      screen reports the segments `SegmentsOf` gives for its path. */
  lemma RedirectReachesFixpoint(authGroup: string, s: RouterInput)
    requires authGroup != "(tabs)"
    requires Redirect(authGroup, s).Some?
    ensures Redirect(authGroup, s.(segments := SegmentsOf(authGroup, Redirect(authGroup, s).value))).None?
  {
    var stage := StageOf(s.signedIn, s.profile);
    HomeIsStable(authGroup, stage);
    RedirectIsGoHome(authGroup, s.(segments := SegmentsOf(authGroup, Home(stage))));
  }

  /** Rule priority: a signed-out user is only ever sent to login; an
      incomplete profile is never sent to package selection or the tabs; a
      profile without a package is never sent to the tabs. */
  lemma RulePriority(authGroup: string, s: RouterInput)
    ensures !s.signedIn && Redirect(authGroup, s).Some? ==> Redirect(authGroup, s) == Some(Login)
    ensures s.signedIn && !ProfileComplete(s.profile) ==>
              Redirect(authGroup, s) != Some(PackageSelection) && Redirect(authGroup, s) != Some(Tabs)
    ensures s.signedIn && ProfileComplete(s.profile) && !HasPackage(s.profile) ==>
              Redirect(authGroup, s) != Some(Tabs)
    ensures Redirect(authGroup, s) == Some(Tabs) ==>
              s.signedIn && ProfileComplete(s.profile) && HasPackage(s.profile)
  {
  }

  /** The two anti-loop guards: already on profile setup, or already on
      package selection, means no redirect for a user who belongs there. */
  lemma OnboardingGuards(authGroup: string, s: RouterInput)
    requires !s.loading && s.signedIn
    ensures !ProfileComplete(s.profile) ==>
              (Redirect(authGroup, s).None? <==> Segment(s.segments, 1) == Some("profile-setup"))
    ensures ProfileComplete(s.profile) && !HasPackage(s.profile) ==>
              (Redirect(authGroup, s).None? <==> Segment(s.segments, 1) == Some("package-selection"))
  {
    RedirectIsGoHome(authGroup, s);
  }

  /** The selected diet program plays no part in routing; only the package does. */
  lemma IgnoresCurrentDiet(authGroup: string, s: RouterInput, dietId: Option<string>)
    requires s.profile.Some?
    ensures Redirect(authGroup, s.(profile := Some(s.profile.value.(currentDietId := dietId)))) ==
            Redirect(authGroup, s)
  {
  }

  /** The decision reads the profile only through completeness and the package. */
  lemma DependsOnlyOnGates(authGroup: string, s: RouterInput, other: Option<Profile>)
    requires ProfileComplete(other) == ProfileComplete(s.profile)
    requires HasPackage(other) == HasPackage(s.profile)
    ensures Redirect(authGroup, s.(profile := other)) == Redirect(authGroup, s)
  {
  }

  /** As written the auth group is the bare segment `auth`: a parenthesised
      `(auth)` segment counts as neither the auth nor the onboarding group. */
  lemma ParenthesisedAuthIsOutsideAuthGroup(p: Profile)
    requires ProfileComplete(Some(p)) && HasPackage(Some(p))
    ensures Redirect(AuthGroupAsWritten, RouterInput(false, true, Some(p), ["(auth)"])).None?
    ensures Redirect(AuthGroupAsWritten, RouterInput(false, true, Some(p), ["auth"])) == Some(Tabs)
  {
  }

  /** As written, a signed-out user shown the login screen the app has
      (segments `(auth)`, `login`) is sent to login again, so the effect
      fires on every evaluation there and the redirect never settles. */
  lemma LoginScreenRedirectsToItself(s: RouterInput)
    requires !s.loading && !s.signedIn
    ensures Redirect(AuthGroupAsWritten, s.(segments := SegmentsOf(AuthGroupOfScreens, Login))) == Some(Login)
  {
  }

  /** With the auth group named after the route group the screens live in,
      the same user is left alone on the login screen, and every redirect
      settles on the screen it lands on. */
  lemma CorrectedLoginScreenStays(s: RouterInput)
    requires !s.loading && !s.signedIn
    ensures Redirect(AuthGroupOfScreens, s.(segments := SegmentsOf(AuthGroupOfScreens, Login))).None?
    ensures Redirect(AuthGroupOfScreens, s).Some? ==>
              var t := Redirect(AuthGroupOfScreens, s).value;
              Redirect(AuthGroupOfScreens, s.(segments := SegmentsOf(AuthGroupOfScreens, t))).None?
  {
    if Redirect(AuthGroupOfScreens, s).Some? {
      RedirectReachesFixpoint(AuthGroupOfScreens, s);
    }
  }
}
