/** The mock `AuthService` (src/services/authService.ts): the module-level
    `currentUser` cell, the list of auth-state listeners, the persisted
    session, and the profile store, all held by one object.

    Device storage is an in-memory map from storage key to what is stored
    there.  Every profile the service writes parses back; an entry that does
    not parse stands for corrupt storage, the one way `JSON.parse`, and with
    it a profile read or update, can throw.  A listener is known by its
    identity; calling listeners is recorded, in order, in `delivered`. */
module AuthService {
  import opened Common
  import opened Profiles

  /** The Firebase-like user object.  `photoURL` is always `null` and is left out. */
  datatype MockUser = MockUser(uid: string, email: string, displayName: string)

  type Listener = nat

  /** One call `listener(user)`. */
  datatype Delivery = Delivery(listener: Listener, user: Option<MockUser>)

  datatype Stored = Parsed(profile: Profile) | Unparsable

  const DemoUid: string := "mock-user-123"

  function ProfileKey(uid: string): string
  {
    "user_profile_" + uid
  }

  /** Distinct users have distinct profile entries. */
  lemma ProfileKeyInjective(a: string, b: string)
    requires ProfileKey(a) == ProfileKey(b)
    ensures a == b
  {
    var n := |"user_profile_"|;
    assert a == ProfileKey(a)[n..];
    assert b == ProfileKey(b)[n..];
  }

  /** `authStateListeners.filter(l => l !== callback)`. */
  function Without(ls: seq<Listener>, callback: Listener): (r: seq<Listener>)
    ensures callback !in r
    ensures forall l :: l != callback ==> multiset(r)[l] == multiset(ls)[l]
    ensures |r| <= |ls|
  {
    if ls == [] then []
    else
      assert ls == [ls[0]] + ls[1..];
      if ls[0] == callback then Without(ls[1..], callback)
      else [ls[0]] + Without(ls[1..], callback)
  }

  /** Filtering distributes over concatenation, so the survivors keep their order. */
  lemma {:induction false} WithoutAppend(a: seq<Listener>, b: seq<Listener>, callback: Listener)
    ensures Without(a + b, callback) == Without(a, callback) + Without(b, callback)
  {
    if a == [] {
      assert a + b == b;
    } else {
      assert (a + b)[1..] == a[1..] + b;
      WithoutAppend(a[1..], b, callback);
    }
  }

  /** Removing a callback that is not registered changes nothing. */
  lemma {:induction false} WithoutAbsent(ls: seq<Listener>, callback: Listener)
    requires callback !in ls
    ensures Without(ls, callback) == ls
  {
    if ls != [] {
      WithoutAbsent(ls[1..], callback);
    }
  }

  /** Unsubscribing a callback right after subscribing it restores the list. */
  lemma UnsubscribeUndoesSubscribe(ls: seq<Listener>, callback: Listener)
    requires callback !in ls
    ensures Without(ls + [callback], callback) == ls
  {
    WithoutAppend(ls, [callback], callback);
    WithoutAbsent(ls, callback);
    assert Without([callback], callback) == [];
  }

  /** `authStateListeners.forEach(listener => listener(currentUser))`. */
  function Broadcast(ls: seq<Listener>, user: Option<MockUser>): (r: seq<Delivery>)
    ensures |r| == |ls|
    ensures forall i :: 0 <= i < |ls| ==> r[i] == Delivery(ls[i], user)
  {
    seq(|ls|, i requires 0 <= i < |ls| => Delivery(ls[i], user))
  }

  /** The profile `getUserProfile` makes up when none is stored. */
  function DefaultProfile(uid: string): Profile
  {
    Profile(Some(uid), Some("demo@example.com"), Some("Demo User"),
            Some(25.0), Some("male"), Some(175.0), Some(70.0),
            Some("maintain"), Some("moderate"), None, None, None)
  }

  /** `getUserProfile(uid)` against a store: the stored profile, the default
      one when nothing is stored, and a rejection when the entry does not parse. */
  function ReadProfile(store: map<string, Stored>, uid: string): (r: Result<Profile>)
    ensures ProfileKey(uid) !in store ==> r == Success(DefaultProfile(uid))
    ensures ProfileKey(uid) in store && store[ProfileKey(uid)].Parsed? ==>
              r == Success(store[ProfileKey(uid)].profile)
    ensures r.Failure? <==> ProfileKey(uid) in store && store[ProfileKey(uid)].Unparsable?
  {
    var key := ProfileKey(uid);
    if key in store then
      match store[key]
      case Parsed(p) => Success(p)
      case Unparsable => Failure("SyntaxError")
    else Success(DefaultProfile(uid))
  }

  /** The profile `updateUserProfile` starts from: the stored one, or `{}`. */
  function CurrentOrEmpty(store: map<string, Stored>, uid: string): Profile
    requires ProfileKey(uid) !in store || store[ProfileKey(uid)].Parsed?
  {
    if ProfileKey(uid) in store then store[ProfileKey(uid)].profile else EmptyProfile
  }

  /** The profile `register` writes: `{uid, email: email || "", ...profileData}`. */
  function RegisteredProfile(uid: string, email: string, profileData: ProfileUpdate): (p: Profile)
    ensures profileData.uid.Omitted? ==> p.uid == Some(uid)
    ensures profileData.uid.Given? ==> p.uid == Some(profileData.uid.value)
    ensures profileData.uid.Undefined? ==> p.uid.None?
    ensures profileData.email.Omitted? ==> p.email == Some(email)
    ensures profileData.email.Given? ==> p.email == Some(profileData.email.value)
    ensures profileData.email.Undefined? ==> p.email.None?
    ensures p.(uid := None, email := None) == Merge(EmptyProfile, profileData).(uid := None, email := None)
  {
    Merge(EmptyProfile.(uid := Some(uid), email := Some(email)), profileData)
  }

  /** `profileData.displayName || "Mock User"`. */
  function RegisteredDisplayName(profileData: ProfileUpdate): (name: string)
    ensures name != ""
    ensures NonEmptyGiven(profileData.displayName) ==> name == profileData.displayName.value
    ensures !NonEmptyGiven(profileData.displayName) ==> name == "Mock User"
  {
    if profileData.displayName.Given? && profileData.displayName.value != ""
    then profileData.displayName.value else "Mock User"
  }

  /** A key given a non-empty string, the only case in which `||` keeps it. */
  predicate NonEmptyGiven(f: Field<string>)
  {
    f.Given? && f.value != ""
  }

  /** `'mock-user-' + Math.floor(Math.random() * 10000)`, with the random
      draw `n` as a parameter. */
  function RegisteredUid(n: nat): (uid: string)
    requires n < 10000
    ensures |uid| > |"mock-user-"| && uid[..|"mock-user-"|] == "mock-user-"
    ensures uid[|"mock-user-"|..] == DecimalString(n)
  {
    "mock-user-" + DecimalString(n)
  }

  /** Distinct draws give distinct uids, so two registrations collide only
      when the draws coincide. */
  lemma RegisteredUidInjective(a: nat, b: nat)
    requires a < 10000 && b < 10000
    requires RegisteredUid(a) == RegisteredUid(b)
    ensures a == b
  {
    assert RegisteredUid(a)[|"mock-user-"|..] == RegisteredUid(b)[|"mock-user-"|..];
    DecimalStringInjective(a, b);
  }

  /** The random draw 123 registers a user under the demo login's uid. */
  lemma RegisteredUidCanBeDemoUid()
    ensures RegisteredUid(123) == DemoUid
  {
    assert DecimalString(123) == "123" by {
      assert DecimalString(12) == "12" by {
        assert DecimalString(1) == "1";
      }
    }
  }

  class AuthService {
    var currentUser: Option<MockUser>
    var listeners: seq<Listener>
    /** The `mock_user_session` entry. */
    var session: Option<MockUser>
    /** The `user_profile_<uid>` entries. */
    var profiles: map<string, Stored>
    /** Every listener call made so far, in order. */
    var delivered: seq<Delivery>

    /** The module as loaded: no user and no listener yet, over whatever
        storage an earlier run left behind. */
    constructor (session: Option<MockUser>, profiles: map<string, Stored>)
      ensures this.currentUser.None? && this.listeners == [] && this.delivered == []
      ensures this.session == session && this.profiles == profiles
    {
      this.currentUser := None;
      this.listeners := [];
      this.session := session;
      this.profiles := profiles;
      this.delivered := [];
    }

    /** `notifyListeners`: every registered listener, in registration order,
        is called once per registration with the current user. */
    method NotifyListeners()
      modifies this`delivered
      ensures delivered == old(delivered) + Broadcast(listeners, currentUser)
    {
      var i := 0;
      while i < |listeners|
        invariant 0 <= i <= |listeners|
        invariant delivered == old(delivered) + Broadcast(listeners[..i], currentUser)
      {
        assert listeners[..i + 1] == listeners[..i] + [listeners[i]];
        delivered := delivered + [Delivery(listeners[i], currentUser)];
        i := i + 1;
      }
      assert listeners[..i] == listeners;
    }

    /** `onAuthStateChanged(callback)`: the callback is appended to the
        listeners, the persisted session (if any) becomes the current user,
        and the callback alone is called with the current user. */
    method OnAuthStateChanged(callback: Listener)
      modifies this`listeners, this`currentUser, this`delivered
      ensures listeners == old(listeners) + [callback]
      ensures currentUser == if session.Some? then session else old(currentUser)
      ensures delivered == old(delivered) + [Delivery(callback, currentUser)]
    {
      listeners := listeners + [callback];
      if session.Some? {
        currentUser := session;
      }
      delivered := delivered + [Delivery(callback, currentUser)];
    }

    /** The function `onAuthStateChanged` returns: every registration of the
        callback is dropped, the other listeners keep their order. */
    method Unsubscribe(callback: Listener)
      modifies this`listeners
      ensures listeners == Without(old(listeners), callback)
    {
      listeners := Without(listeners, callback);
    }

    /** `register`: a new user with uid `RegisteredUid(n)` becomes current and
        is persisted as the session, its profile is stored, and the
        listeners are told. */
    method Register(email: string, pass: string, profileData: ProfileUpdate, n: nat)
      returns (newProfile: Profile)
      requires n < 10000
      modifies this`currentUser, this`session, this`profiles, this`delivered
      ensures currentUser == Some(MockUser(RegisteredUid(n), email, RegisteredDisplayName(profileData)))
      ensures session == currentUser
      ensures newProfile == RegisteredProfile(RegisteredUid(n), email, profileData)
      ensures profiles == old(profiles)[ProfileKey(RegisteredUid(n)) := Parsed(newProfile)]
      ensures delivered == old(delivered) + Broadcast(listeners, currentUser)
    {
      var uid := RegisteredUid(n);
      currentUser := Some(MockUser(uid, email, RegisteredDisplayName(profileData)));
      session := currentUser;
      newProfile := RegisteredProfile(uid, email, profileData);
      profiles := profiles[ProfileKey(uid) := Parsed(newProfile)];
      NotifyListeners();
    }

    /** `login`: any password is accepted and the demo user becomes current. */
    method Login(email: string, pass: string) returns (user: MockUser)
      modifies this`currentUser, this`session, this`delivered
      ensures user == MockUser(DemoUid, email, "Demo User")
      ensures currentUser == Some(user) && session == currentUser
      ensures delivered == old(delivered) + Broadcast(listeners, currentUser)
    {
      user := MockUser(DemoUid, email, "Demo User");
      currentUser := Some(user);
      session := currentUser;
      NotifyListeners();
    }

    /** `logout`: no current user, no session, and the listeners are told. */
    method Logout()
      modifies this`currentUser, this`session, this`delivered
      ensures currentUser.None? && session.None?
      ensures delivered == old(delivered) + Broadcast(listeners, None)
    {
      currentUser := None;
      session := None;
      NotifyListeners();
    }

    /** `getUserProfile(uid)`: the stored profile, the default one when
        nothing is stored, and a rejection when the entry does not parse. */
    function GetUserProfile(uid: string): (r: Result<Profile>)
      reads this
      ensures ProfileKey(uid) !in profiles ==> r == Success(DefaultProfile(uid))
      ensures ProfileKey(uid) in profiles && profiles[ProfileKey(uid)].Parsed? ==>
                r == Success(profiles[ProfileKey(uid)].profile)
      ensures r.Failure? <==> ProfileKey(uid) in profiles && profiles[ProfileKey(uid)].Unparsable?
    {
      ReadProfile(profiles, uid)
    }

    /** `updateUserProfile(uid, data)`: the shallow merge of `data` into the
        stored profile (or `{}`) replaces it; an entry that does not parse
        rejects the update and nothing is written. */
    method UpdateUserProfile(uid: string, data: ProfileUpdate) returns (r: Result<()>)
      modifies this`profiles
      ensures r.Failure? <==> ProfileKey(uid) in old(profiles) && old(profiles)[ProfileKey(uid)].Unparsable?
      ensures r.Failure? ==> profiles == old(profiles)
      ensures r.Success? ==>
                profiles == old(profiles)[ProfileKey(uid) := Parsed(Merge(CurrentOrEmpty(old(profiles), uid), data))]
    {
      var key := ProfileKey(uid);
      if key in profiles && profiles[key].Unparsable? {
        return Failure("SyntaxError");
      }
      var current := CurrentOrEmpty(profiles, uid);
      profiles := profiles[key := Parsed(Merge(current, data))];
      r := Success(());
    }
  }
}
