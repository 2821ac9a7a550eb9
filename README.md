# diet_app core, modelled in Dafny

A Dafny model of the logic under the screens of a React Native diet-tracking
app:

- the **nutrition calculator**: water target, daily calories (Mifflin-St Jeor
  BMR x activity multiplier, +/- 500 kcal for the goal), and macro grams by
  diet type;
- the **onboarding router**: the redirect decision of the root layout;
- the **session state** of `AuthProvider` (`user`, `userProfile`, `loading`)
  over the mock `AuthService` (current user, listener registry, session entry,
  profile store with shallow-merge updates);
- the in-memory **mock stores**: packages, diet programs, groups, daily tracking
  stats, messages and weight history.

One module per source file, plus `Common` (Option/Result, `Math.round`,
`toFixed`, `Array.prototype.find`, decimal rendering) and `Profiles` (the
`UserProfile` record of `src/types/user.ts` and the merge `updateUserProfile`
performs). Files:

| file | models |
|---|---|
| `common.dfy` | shared helpers |
| `profiles.dfy` | `src/types/user.ts`, the shallow merge and its JSON round-trip |
| `nutrition_calculator.dfy` | `src/utils/nutritionCalculator.ts` |
| `onboarding_router.dfy` | the redirect effect in `app/_layout.tsx` |
| `auth_service.dfy` | `src/services/authService.ts` (class `AuthService`) |
| `auth_context.dfy` | `src/contexts/AuthContext.tsx` (class `AuthProvider`) |
| `package_service.dfy` | `src/services/packageService.ts` |
| `diet_service.dfy` | `src/services/dietService.ts` |
| `group_service.dfy` | `src/services/groupService.ts` |
| `tracking_service.dfy` | `src/services/trackingService.ts` (class `TrackingStore`) |
| `message_service.dfy` | `src/services/messageService.ts` (class `MessageStore`) |
| `history_service.dfy` | `src/services/historyService.ts` (class `HistoryStore`) |

How the model treats the source:

- **Numbers** are exact `real`s. `Math.round` is `RoundHalfUp` (floor of x + 1/2).
  `parseFloat(x.toFixed(d))` is `ToFixed`: it takes the multiple of 10^-d
  nearest to x, and a tie goes away from zero, as toFixed rounds the magnitude.
  JavaScript falsiness of a number is "absent or 0". Falsiness of a string is
  "absent or empty".
- **Profiles** keep every key optional. An update argument (`Partial<UserProfile>`)
  gives each key one of three states: `Omitted`, `Undefined` or `Given(v)`.
  Merging keeps an omitted key and takes a given one. It drops an undefined
  one, because `JSON.stringify` leaves such keys out.
- **Storage** (AsyncStorage) is a `map` from storage key to `Parsed(profile)` or
  `Unparsable`. `Unparsable` stands for a stored entry on which `JSON.parse`
  throws. That is how a profile read or update can reject. It is also how
  `fetchProfile`'s catch is reached.
- **Non-determinism is a parameter.**
  - The random register draw is `n < 10000`.
  - The history id is a parameter.
  - `Date.now()` is `now`.
- **Listeners** are known by identity. Calling them is recorded in order in
  `AuthService.delivered`.
- **Stateful modules** are classes: `AuthService`, `AuthProvider`,
  `TrackingStore`, `MessageStore` and `HistoryStore`. Their methods state the
  whole new state. Pure lookups and formulas are functions.

Notes on the source's own behaviour:

- `calculateWaterTarget` defaults only an absent weight or a weight of 0. A
  negative weight is truthy, so it is not defaulted: -20 kg gives -0.7 l
  (`WaterTargetExamples`).
- Only `packageId` gates entry to the main app. `currentDietId` plays no role
  (`IgnoresCurrentDiet`).
- The layout takes the auth group to be the bare segment `auth`
  (app/_layout.tsx:19), and it sends signed-out users to `/auth/login`
  (line 25). The login and register screens, however, live in the route group
  `(auth)`. On the other hand, the root stack declares a screen named `auth`
  (app/_layout.tsx:54), so an `app/auth` route may also exist. The router is
  therefore modelled for any auth group name. `auth` is the name as written,
  and `(auth)` is the one the screens under `app/` use. For the consequence,
  see "## Findings".
- `SegmentsOf` gives the segments a screen reports once it shows a redirect
  target. For the login path under auth group `g`, those segments are `g`,
  `login`.

## Model

| member | source | states |
|---|---|---|
| `Common.RoundHalfUp` | src/utils/nutritionCalculator.ts:41 | `Math.round`: the result is the unique integer n with n - 1/2 <= x < n + 1/2 |
| `Common.RoundHalfUpShift` | src/utils/nutritionCalculator.ts:39-41 | rounding x + k for a whole k is rounding x, then adding k |
| `Common.RoundHalfUpMonotone` | src/utils/nutritionCalculator.ts:41 | rounding preserves order |
| `Common.FixedUnits` | src/services/trackingService.ts:31 | the number of 10^-d units `toFixed(d)` keeps: nearest to x·10^d, ties half-up for x >= 0 and half-down (away from zero) for x < 0 |
| `Common.ToFixed` | src/utils/nutritionCalculator.ts:9 | `parseFloat(x.toFixed(d))` is exactly FixedUnits(x, d) units of 10^-d |
| `Common.Find` | src/services/packageService.ts:79 | `find`: nothing exactly when no element has the id; otherwise an element with that id, preceded by none with it |
| `Common.FindDistinct` | src/services/dietService.ts:94 | with distinct ids, looking up an element's id returns that element |
| `Common.DecimalString` | src/services/messageService.ts:66 | `String(n)` for a natural number: digits only, no leading zero, and reading it back (`DecimalValue`) gives n |
| `Common.DecimalStringInjective` | src/services/messageService.ts:66 | distinct numbers render as distinct strings |
| `Profiles.Merge` | src/services/authService.ts:121-124 | `{ ...current, ...data }` after the JSON round-trip: each of the twelve keys is merged on its own, by the rule `MergeField` states |
| `Profiles.MergeField` | src/services/authService.ts:121-124 | one key of the merged, serialised profile: omitted keeps, given overwrites, undefined is dropped |
| `Profiles.MergeNoUpdate` | src/services/authService.ts:123 | merging `{}` leaves the profile unchanged |
| `Profiles.MergeIdempotent` | src/services/authService.ts:123 | applying the same update twice equals applying it once |
| `Profiles.MergeThen` | src/services/authService.ts:123-124 | two successive updates equal one combined update in which later keys win |
| `Profiles.MergePackageUpdate` | src/services/packageService.ts:73 | merging `{ packageId }` sets `packageId` and keeps every other key |
| `NutritionCalculator.WaterTarget` | src/utils/nutritionCalculator.ts:5-10 | 2.5 when the weight is absent or 0; otherwise a whole number of tenths within 0.05 l of 35 ml/kg |
| `NutritionCalculator.WaterTargetExamples` | src/utils/nutritionCalculator.ts:5-10 | 60 kg gives 2.1, 57 kg 2.0, 70 kg 2.5, -20 kg -0.7 (not defaulted), 0 kg and none give 2.5 |
| `NutritionCalculator.ActivityMultiplier` | src/utils/nutritionCalculator.ts:27-35 | positive; 1.55 for a missing, empty or unknown activity level |
| `NutritionCalculator.DailyCalories` | src/utils/nutritionCalculator.ts:13-42 | 2000 unless weight, height, age and gender are all truthy; otherwise the integer nearest (ties up) to BMR x multiplier + goal adjustment |
| `NutritionCalculator.GoalOffsets` | src/utils/nutritionCalculator.ts:39-41 | `lose` is exactly 500 kcal below `maintain` and `gain` exactly 500 above, for every calculable profile |
| `NutritionCalculator.OtherTargetsMaintain` | src/utils/nutritionCalculator.ts:41 | any target other than lose or gain, including none, gives the maintenance figure |
| `NutritionCalculator.NonMaleGendersAgree` | src/utils/nutritionCalculator.ts:19-23 | every non-empty gender other than `male`, `other` included, is computed as female (-161) |
| `NutritionCalculator.DailyCaloriesMonotoneInWeight` | src/utils/nutritionCalculator.ts:18-41 | with all else equal, a higher (truthy) weight never lowers the calorie target |
| `NutritionCalculator.DailyCaloriesExample` | src/utils/nutritionCalculator.ts:13-42 | 70 kg / 175 cm / 25 y / male / moderate gives 2594, 2094 to lose and 3094 to gain; a zero age or no profile gives 2000 |
| `NutritionCalculator.DietRatios` | src/utils/nutritionCalculator.ts:46-54 | every ratio triple is non-negative and sums to 1 |
| `NutritionCalculator.CalculateMacros` | src/utils/nutritionCalculator.ts:45-62 | each gram count is the nearest integer to calories x ratio / (4, 4, 9); 4p + 4c + 9f is within 8.5 kcal of the calories |
| `NutritionCalculator.UnknownDietIsBalanced` | src/utils/nutritionCalculator.ts:45-54 | a missing or unknown diet type gives exactly the `balanced` result (0.3 / 0.4 / 0.3) |
| `NutritionCalculator.KetoExample` | src/utils/nutritionCalculator.ts:57-61 | 2000 kcal keto gives 125 / 25 / 156; with no diet type it gives 150 / 200 / 67 |
| `OnboardingRouter.Redirect` | app/_layout.tsx:16-48 | for any auth group name: no redirect while loading; any redirect goes to the home screen of the user's onboarding stage |
| `OnboardingRouter.PathsAsWritten` | app/_layout.tsx:25-44 | the four routes are replaced to `/auth/login`, `/(onboarding)/profile-setup`, `/(onboarding)/package-selection` and `/(tabs)`; with auth group `(auth)` the login path is `/(auth)/login` |
| `OnboardingRouter.RedirectIsGoHome` | app/_layout.tsx:19-46 | once loaded, the redirect is None exactly when the stage may stay on the current segments, and otherwise goes to the stage's home |
| `OnboardingRouter.HomeIsStable` | app/_layout.tsx:23-45 | each stage may stay on the segments of its own home screen, for any auth group other than `(tabs)` |
| `OnboardingRouter.RedirectReachesFixpoint` | app/_layout.tsx:23-45 | re-evaluating with the same user and profile on the segments `SegmentsOf` gives for the redirect target yields no further redirect |
| `OnboardingRouter.RulePriority` | app/_layout.tsx:23-45 | no user: login only; incomplete profile: never package selection or tabs; no package: never tabs; tabs only for complete profile with package |
| `OnboardingRouter.OnboardingGuards` | app/_layout.tsx:31-39 | an incomplete profile is not redirected iff `segments[1]` is `profile-setup`; a complete profile without package is not redirected iff it is `package-selection` |
| `OnboardingRouter.IgnoresCurrentDiet` | app/_layout.tsx:28-36 | changing `currentDietId` never changes the decision |
| `OnboardingRouter.DependsOnlyOnGates` | app/_layout.tsx:28-36 | the profile matters only through completeness (age, height, weight) and having a `packageId` |
| `OnboardingRouter.ParenthesisedAuthIsOutsideAuthGroup` | app/_layout.tsx:19-45 | as written the auth group is segment `auth`: a ready user on `(auth)` is left alone, and a ready user on `auth` is sent to the tabs |
| `OnboardingRouter.LoginScreenRedirectsToItself` | app/_layout.tsx:19-25 | as written, a signed-out user on the login screen's segments `(auth)`, `login` is redirected to login again |
| `OnboardingRouter.CorrectedLoginScreenStays` | app/_layout.tsx:19-25 | with auth group `(auth)`, that user is left alone on the login screen, and every redirect settles on its target's screen |
| `AuthService.ProfileKeyInjective` | src/services/authService.ts:60 | distinct uids have distinct `user_profile_<uid>` keys |
| `AuthService.Without` | src/services/authService.ts:33 | the unsubscribed callback is gone; every other listener keeps its number of registrations |
| `AuthService.WithoutAppend` | src/services/authService.ts:33 | filtering distributes over concatenation, so the remaining listeners keep their order |
| `AuthService.WithoutAbsent` | src/services/authService.ts:33 | removing an unregistered callback changes nothing |
| `AuthService.UnsubscribeUndoesSubscribe` | src/services/authService.ts:21-34 | subscribing a new callback, then calling its unsubscribe, restores the listener list |
| `AuthService.Broadcast` | src/services/authService.ts:15-17 | one call per registration, in registration order, each with the same user |
| `AuthService.ReadProfile` | src/services/authService.ts:94-115 | `getUserProfile`: the stored profile, or the default (175 cm, 70 kg, 25 y, male, moderate, maintain, no package) when none is stored; rejects exactly on an unparsable entry |
| `AuthService.RegisteredProfile` | src/services/authService.ts:54-58 | `{uid, email, ...profileData}`: uid and email unless the data names them (given overrides, undefined drops); all other keys come from the data |
| `AuthService.RegisteredDisplayName` | src/services/authService.ts:46 | a given non-empty display name is kept; otherwise (omitted, undefined or empty) it is `Mock User`; never empty |
| `AuthService.RegisteredUid` | src/services/authService.ts:42 | register's uid is `mock-user-` followed by the draw written in decimal |
| `AuthService.RegisteredUidInjective` | src/services/authService.ts:42 | distinct draws give distinct uids |
| `AuthService.RegisteredUidCanBeDemoUid` | src/services/authService.ts:42 | the draw 123 registers under uid `mock-user-123`, the uid `login` always uses |
| `AuthService.AuthService.constructor` | src/services/authService.ts:12-13 | no current user and no listeners at load |
| `AuthService.AuthService.NotifyListeners` | src/services/authService.ts:15-17 | the loop calls every registered listener, in order, with the current user |
| `AuthService.AuthService.OnAuthStateChanged` | src/services/authService.ts:21-30 | appends the callback; a persisted session becomes the current user; only that callback is called, with the current user |
| `AuthService.AuthService.Unsubscribe` | src/services/authService.ts:32-34 | the listener list becomes `Without(old list, callback)` |
| `AuthService.AuthService.Register` | src/services/authService.ts:38-64 | new current user and session, profile stored under its key, every listener notified once with the new user |
| `AuthService.AuthService.Login` | src/services/authService.ts:67-83 | any password; user `mock-user-123` / given email / `Demo User` becomes current and persisted; listeners notified |
| `AuthService.AuthService.Logout` | src/services/authService.ts:86-91 | no current user, no session entry; listeners notified with null |
| `AuthService.AuthService.GetUserProfile` | src/services/authService.ts:94-115 | over the service's store: the stored profile, the default one when none is stored, and a rejection exactly on an unparsable entry |
| `AuthService.AuthService.UpdateUserProfile` | src/services/authService.ts:117-125 | the stored profile (or `{}`) is replaced by its merge with the data; an unparsable entry rejects and nothing is written |
| `AuthContext.FetchedProfile` | src/contexts/AuthContext.tsx:27-35 | the profile is null exactly when the read rejects; otherwise it is what `getUserProfile` returns |
| `AuthContext.FetchWithoutStoredProfile` | src/contexts/AuthContext.tsx:27-35 | a user with nothing stored is given the default profile, which has no package |
| `AuthContext.AuthProvider.constructor` | src/contexts/AuthContext.tsx:23-25 | initial state is user null, profile null, loading true |
| `AuthContext.AuthProvider.FetchProfile` | src/contexts/AuthContext.tsx:27-35 | sets the profile to the fetched one, or null on rejection; nothing else changes |
| `AuthContext.AuthProvider.HandleAuthChange` | src/contexts/AuthContext.tsx:38-46 | sets the user; fetches that uid's profile or clears it to null; loading becomes false |
| `AuthContext.AuthProvider.RefreshProfile` | src/contexts/AuthContext.tsx:51-55 | a no-op without a user; otherwise a re-fetch for the current uid |
| `AuthContext.AuthProvider.Mount` | src/contexts/AuthContext.tsx:37-49 | registers the handler; a persisted session becomes the service's current user (authService.ts:24-28); the handler runs at once with that user: loading false, user and profile set |
| `AuthContext.AuthProvider.Unmount` | src/contexts/AuthContext.tsx:48 | the cleanup removes every registration of the handler |
| `AuthContext.LoadingStaysFalse` | src/contexts/AuthContext.tsx:25-45 | once loading is false, auth changes and refreshes keep it false |
| `PackageService.GetAllPackages` | src/services/packageService.ts:55-58 | `pkg_basic`, `pkg_weight_loss`, `pkg_muscle` in that order, ids pairwise distinct |
| `PackageService.GetPackageById` | src/services/packageService.ts:77-80 | a fixture package with that id, and null exactly for ids outside the three |
| `PackageService.ListedPackagesAreFound` | src/services/packageService.ts:57-79 | every listed package is found by its own id |
| `PackageService.AssignPackageToUser` | src/services/packageService.ts:61-74 | the stored profile (or `{}`) gets `packageId` and keeps every other key; rejects exactly on an unparsable entry, writing nothing |
| `DietService.GetAllPrograms` | src/services/dietService.ts:85-90 | `balanced`, `keto`, `vegan`, `paleo` in order, ids pairwise distinct |
| `DietService.GetProgramById` | src/services/dietService.ts:92-96 | a fixture program with that id, and undefined exactly for ids outside the four |
| `DietService.GetDailyPlan` | src/services/dietService.ts:98-108 | the program's first plan; undefined exactly for an unknown id or a program without plans |
| `DietService.DailyPlanIgnoresDay` | src/services/dietService.ts:98-103 | the result does not depend on `day` |
| `DietService.EveryProgramHasAPlan` | src/services/dietService.ts:4-103 | every program is found by id and has a day-1 plan |
| `DietService.ProgramIdsAreDietTypes` | src/services/dietService.ts:4-82 | program ids are `balanced` plus the diet types `calculateMacros` splits on its own; each of those has a split of its own |
| `GroupService.GetUserGroups` | src/services/groupService.ts:35-38 | the three groups `g1`, `g2`, `g3` in stored order, ids pairwise distinct |
| `GroupService.UserGroupsIgnoreUser` | src/services/groupService.ts:35-38 | the result does not depend on the user id |
| `GroupService.GetGroupDetails` | src/services/groupService.ts:40-43 | a fixture group with that id, and undefined exactly for ids outside the three |
| `GroupService.ListedGroupsAreFound` | src/services/groupService.ts:35-43 | every listed group is found by its own id |
| `TrackingService.WithWater` | src/services/trackingService.ts:31 | water drunk becomes a whole number of hundredths within 0.005 l of old + amount; target and every other stat unchanged |
| `TrackingService.WithSteps` | src/services/trackingService.ts:38 | steps current is replaced by the argument (not added); everything else unchanged |
| `TrackingService.WithWaterExample` | src/services/trackingService.ts:31 | 1.5 l + 0.25 l gives 1.75 l with target 2.5 |
| `TrackingService.TrackingStore.constructor` | src/services/trackingService.ts:13-20 | the initial stats fixture |
| `TrackingService.TrackingStore.GetDailyStats` | src/services/trackingService.ts:23-27 | returns the current stats and changes nothing |
| `TrackingService.TrackingStore.UpdateWater` | src/services/trackingService.ts:29-34 | the new state is `WithWater(old, amount)` and the returned snapshot shows it |
| `TrackingService.TrackingStore.UpdateSteps` | src/services/trackingService.ts:36-41 | the new state is `WithSteps(old, steps)` and the returned snapshot shows it |
| `MessageService.Insert` | src/services/messageService.ts:55 | inserting into a newest-first list keeps it newest first and adds exactly that conversation |
| `MessageService.SortNewestFirst` | src/services/messageService.ts:55 | the result is newest first and a permutation of the input |
| `MessageService.SortKeepsSorted` | src/services/messageService.ts:55 | a list already newest first comes back unchanged |
| `MessageService.InitialConversationsSorted` | src/services/messageService.ts:20-42 | the fixture conversations are already newest first |
| `MessageService.OwnMessage` | src/services/messageService.ts:65-73 | sender `me` / `Me`, the given text, read, mine, timestamp `now`, id `m_<now>` |
| `MessageService.Thread` | src/services/messageService.ts:60 | the stored list of the conversation, or an empty one for an unknown id |
| `MessageService.MessageStore.constructor` | src/services/messageService.ts:20-50 | the fixture conversations and messages |
| `MessageService.MessageStore.GetConversations` | src/services/messageService.ts:53-56 | a newest-first permutation of the stored conversations, which keep their order |
| `MessageService.MessageStore.GetMessages` | src/services/messageService.ts:58-61 | the conversation's list, or empty |
| `MessageService.MessageStore.SendMessage` | src/services/messageService.ts:63-81 | exactly one message appended at the end of that conversation's list (created if absent); other lists and all conversation records unchanged |
| `HistoryService.WithId` | src/services/historyService.ts:26 | the entry has every input field and the given id |
| `HistoryService.WithIdRoundTrip` | src/services/historyService.ts:26 | dropping the id from the new entry gives back the input |
| `HistoryService.HistoryStore.constructor` | src/services/historyService.ts:10-15 | the four fixture entries |
| `HistoryService.HistoryStore.GetHistory` | src/services/historyService.ts:18-22 | the log in stored order; a sequence value, so the caller cannot change the store |
| `HistoryService.HistoryStore.AddHistoryEntry` | src/services/historyService.ts:24-29 | the new entry is at index 0; the log grows by one and older entries follow in order |

## Left out

- The screens under `app/` and `constants/theme.ts` are UI. `app/_layout.tsx` is modelled only for its redirect effect. `src/i18n/index.ts`, `src/components/LanguageSwitcher.tsx` and `src/utils/seedPackages.ts` (remote seeding) are not part of this model.
- `setTimeout` delays and promise plumbing are left out. Each awaited call is one synchronous step, so interleavings of overlapping calls are not modelled. One example is `refreshProfile` running while an auth change is still fetching.
- Session persistence is one field. The asynchronous session read inside `onAuthStateChanged` happens at once, within the call.
- `AuthService.AuthService.NotifyListeners`: a listener call is recorded, not executed. The provider's handler runs through `AuthContext.AuthProvider.Mount`. A later notification reaches it only as a separate `HandleAuthChange` step.
- JSON encoding is not modelled beyond two effects: undefined keys are dropped, and an unparsable entry makes the read reject.
- `MockUser.photoURL` is always null and is omitted. The user's email is never null in these paths.
- NaN is not modelled, and neither are IEEE-754 binary rounding and `toFixed`'s exponent format above 10^21. All arithmetic is exact. Where the exact value is a tie for `toFixed`, the program can round the other way. For example, -10 kg gives the double -0.34999…, which the program renders as -0.3 l. The exact model gives -0.4 l.
- Keys such as `constructor` or `__proto__` are not modelled. In the source they hit `Object.prototype` in the `activityMultipliers` and `MOCK_MESSAGES` lookups.
- Types are not checked at run time. Gender, target, activity level and diet type are plain strings, as they are in the source.
- Aliasing is not modelled, because the model returns values:
  - `getDailyStats` makes a shallow copy that shares the nested metric objects.
  - `getMessages` returns the stored array itself.
  - `getAllPackages` and `getAllPrograms` return the fixture arrays themselves.
- `MessageService.MessageStore.GetConversations`: it does not state that conversations with equal timestamps keep their stored order. (`Array.prototype.sort` is stable, and the insertion sort keeps them in order, but this is not proved.)
- Random values and clock values are parameters:
  - the register draw and the history id, from `Math.random`;
  - message ids and timestamps, from `Date.now()`.
- `MessageService.InitialConversations`: one load time `now` stands for the six separate `Date.now()` calls in the fixtures (messageService.ts:26-48). Their offsets are minutes to a day apart, so the order is the same.
- `MessageService.OwnMessage`: the id and the timestamp share one `now`. The source calls `Date.now()` twice, so the two can differ by a millisecond.
- `OnboardingRouter.RedirectReachesFixpoint`: assumes that the screen shown after a redirect reports the segments `SegmentsOf` gives for its path. With the auth group as written, that means a login screen with segments `auth`, `login`. No such screen appears under `app/`, though app/_layout.tsx:54 declares a Stack screen named `auth`; see "## Findings".
- `src/types/index.ts` is a stale `UserProfile` that uses `selectedPackageId`. Nothing modelled reads it.

## Findings

| source | as written | input that shows it | evidently intended | confidence | as-written member | corrected member |
|---|---|---|---|---|---|---|
| app/_layout.tsx:19-25 | the auth group is `segments[0] === 'auth'`, and signed-out users are sent to `/auth/login` | a signed-out user, loaded, on the login screen app/(auth)/login.tsx, whose segments are `(auth)`, `login`: the effect redirects to login again on every evaluation | the auth group is the route group `(auth)` the screens live in, so a signed-out user on them is left alone | medium, not executed: the login screen app/(auth)/login.tsx reports segments `(auth)`, `login`; app/_layout.tsx:54 declares a Stack screen named `auth`, so an `app/auth` route may also exist | `OnboardingRouter.LoginScreenRedirectsToItself` | `OnboardingRouter.CorrectedLoginScreenStays` |
