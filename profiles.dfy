/** The user profile record (`UserProfile` of src/types/user.ts) as it sits in
    the profile store, and the shallow merge that `updateUserProfile` performs.

    Every key is optional here, `uid` and `email` included: a profile built by
    merging an update into a missing entry starts from `{}`.  Numbers are
    exact reals; the profile's string-valued unions stay strings, because
    nothing checks them at run time. */
module Profiles {
  import opened Common

  datatype Profile = Profile(
    uid: Option<string>,
    email: Option<string>,
    displayName: Option<string>,
    age: Option<real>,
    gender: Option<string>,
    height: Option<real>,
    weight: Option<real>,
    target: Option<string>,
    activityLevel: Option<string>,
    packageId: Option<string>,
    teamId: Option<string>,
    currentDietId: Option<string>)

  /** The object literal `{}`. */
  const EmptyProfile: Profile :=
    Profile(None, None, None, None, None, None, None, None, None, None, None, None)

  /** One key of a `Partial<UserProfile>` argument: left out of the object,
      present with the value `undefined`, or present with a value. */
  datatype Field<+T> = Omitted | Undefined | Given(value: T)

  datatype ProfileUpdate = ProfileUpdate(
    uid: Field<string>,
    email: Field<string>,
    displayName: Field<string>,
    age: Field<real>,
    gender: Field<string>,
    height: Field<real>,
    weight: Field<real>,
    target: Field<string>,
    activityLevel: Field<string>,
    packageId: Field<string>,
    teamId: Field<string>,
    currentDietId: Field<string>)

  /** The object literal `{}` passed as an update. */
  const NoUpdate: ProfileUpdate :=
    ProfileUpdate(Omitted, Omitted, Omitted, Omitted, Omitted, Omitted,
                  Omitted, Omitted, Omitted, Omitted, Omitted, Omitted)

  /** What a merge does to one key: a key the update leaves out keeps its
      value, a key given a value takes it, a key given `undefined` is gone. */
  ghost predicate Merged<T>(current: Option<T>, f: Field<T>, r: Option<T>)
  {
    && (f.Omitted? ==> r == current)
    && (f.Undefined? ==> r.None?)
    && (f.Given? ==> r == Some(f.value))
  }

  /** One key of `JSON.parse(JSON.stringify({ ...current, ...data }))`: a key
      the update leaves out keeps its value, a key given a value takes it, and
      a key given `undefined` is dropped when the object is serialised. */
  function MergeField<T>(current: Option<T>, f: Field<T>): (r: Option<T>)
    ensures Merged(current, f, r)
  {
    match f
    case Omitted => current
    case Undefined => None
    case Given(v) => Some(v)
  }

  /** The shallow merge of an update into a stored profile, serialised:
      every key is merged on its own, from the same key of the profile and
      of the update. */
  function Merge(p: Profile, d: ProfileUpdate): (r: Profile)
    ensures Merged(p.uid, d.uid, r.uid) && Merged(p.email, d.email, r.email)
    ensures Merged(p.displayName, d.displayName, r.displayName)
    ensures Merged(p.age, d.age, r.age) && Merged(p.gender, d.gender, r.gender)
    ensures Merged(p.height, d.height, r.height) && Merged(p.weight, d.weight, r.weight)
    ensures Merged(p.target, d.target, r.target)
    ensures Merged(p.activityLevel, d.activityLevel, r.activityLevel)
    ensures Merged(p.packageId, d.packageId, r.packageId) && Merged(p.teamId, d.teamId, r.teamId)
    ensures Merged(p.currentDietId, d.currentDietId, r.currentDietId)
  {
    Profile(
      MergeField(p.uid, d.uid),
      MergeField(p.email, d.email),
      MergeField(p.displayName, d.displayName),
      MergeField(p.age, d.age),
      MergeField(p.gender, d.gender),
      MergeField(p.height, d.height),
      MergeField(p.weight, d.weight),
      MergeField(p.target, d.target),
      MergeField(p.activityLevel, d.activityLevel),
      MergeField(p.packageId, d.packageId),
      MergeField(p.teamId, d.teamId),
      MergeField(p.currentDietId, d.currentDietId))
  }

  /** An update that names no key leaves the profile as it was. */
  lemma MergeNoUpdate(p: Profile)
    ensures Merge(p, NoUpdate) == p
  {
  }

  /** Applying the same update twice is applying it once. */
  lemma MergeIdempotent(p: Profile, d: ProfileUpdate)
    ensures Merge(Merge(p, d), d) == Merge(p, d)
  {
  }

  /** The update that has the effect of `d1` followed by `d2`: a key `d2`
      leaves out comes from `d1`. */
  function ThenField<T>(f1: Field<T>, f2: Field<T>): Field<T>
  {
    if f2.Omitted? then f1 else f2
  }

  function Then(d1: ProfileUpdate, d2: ProfileUpdate): ProfileUpdate
  {
    ProfileUpdate(
      ThenField(d1.uid, d2.uid),
      ThenField(d1.email, d2.email),
      ThenField(d1.displayName, d2.displayName),
      ThenField(d1.age, d2.age),
      ThenField(d1.gender, d2.gender),
      ThenField(d1.height, d2.height),
      ThenField(d1.weight, d2.weight),
      ThenField(d1.target, d2.target),
      ThenField(d1.activityLevel, d2.activityLevel),
      ThenField(d1.packageId, d2.packageId),
      ThenField(d1.teamId, d2.teamId),
      ThenField(d1.currentDietId, d2.currentDietId))
  }

  /** Two successive merges are one merge of the combined update: later keys win. */
  lemma MergeThen(p: Profile, d1: ProfileUpdate, d2: ProfileUpdate)
    ensures Merge(Merge(p, d1), d2) == Merge(p, Then(d1, d2))
  {
  }

  /** The update `{ packageId }`. */
  function PackageUpdate(packageId: string): ProfileUpdate
  {
    NoUpdate.(packageId := Given(packageId))
  }

  /** Merging `{ packageId }` sets that key and keeps every other one. */
  lemma MergePackageUpdate(p: Profile, packageId: string)
    ensures Merge(p, PackageUpdate(packageId)) == p.(packageId := Some(packageId))
  {
  }

  /** JavaScript truthiness of an optional number (NaN is not modelled). */
  predicate Truthy(x: Option<real>)
  {
    x.Some? && x.value != 0.0
  }

  /** JavaScript truthiness of an optional string. */
  predicate NonEmpty(s: Option<string>)
  {
    s.Some? && s.value != ""
  }
}
