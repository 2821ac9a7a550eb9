/** `AuthProvider` (src/contexts/AuthContext.tsx): the three state cells
    `user`, `userProfile` and `loading`, set by the auth-change handler the
    provider registers with the auth service, by `fetchProfile` and by
    `refreshProfile`.  Each awaited call is one step. */
module AuthContext {
  import opened Common
  import opened Profiles
  import opened AuthService

  /** What `fetchProfile(uid)` leaves in `userProfile`: the profile the service
      returns, or null when the read rejects. */
  function FetchedProfile(store: map<string, Stored>, uid: string): (p: Option<Profile>)
    ensures p.None? <==> ProfileKey(uid) in store && store[ProfileKey(uid)].Unparsable?
    ensures p.Some? ==> ReadProfile(store, uid) == Success(p.value)
  {
    match ReadProfile(store, uid)
    case Success(profile) => Some(profile)
    case Failure(_) => None
  }

  /** A user with nothing stored gets the default profile, which is complete
      enough for every calculator input and has no package. */
  lemma FetchWithoutStoredProfile(store: map<string, Stored>, uid: string)
    requires ProfileKey(uid) !in store
    ensures FetchedProfile(store, uid) == Some(DefaultProfile(uid))
    ensures FetchedProfile(store, uid).value.packageId.None?
  {
  }

  class AuthProvider {
    var user: Option<MockUser>
    var userProfile: Option<Profile>
    var loading: bool
    /** The identity of the handler this provider registers. */
    const handler: Listener

    /** `useState(null)`, `useState(null)`, `useState(true)`. */
    constructor (handler: Listener)
      ensures user.None? && userProfile.None? && loading
      ensures this.handler == handler
    {
      user := None;
      userProfile := None;
      loading := true;
      this.handler := handler;
    }

    /** `fetchProfile(uid)`: a rejected read sets the profile to null instead
        of propagating. */
    method FetchProfile(auth: AuthService, uid: string)
      modifies this`userProfile
      ensures userProfile == FetchedProfile(auth.profiles, uid)
    {
      var r := auth.GetUserProfile(uid);
      match r
      case Success(profile) => userProfile := Some(profile);
      case Failure(_) => userProfile := None;
    }

    /** The auth-change handler: record the user, fetch its profile or clear
        the profile, and stop loading. */
    method HandleAuthChange(auth: AuthService, currentUser: Option<MockUser>)
      modifies this`user, this`userProfile, this`loading
      ensures user == currentUser
      ensures userProfile == if currentUser.Some? then FetchedProfile(auth.profiles, currentUser.value.uid) else None
      ensures !loading
    {
      user := currentUser;
      if currentUser.Some? {
        FetchProfile(auth, currentUser.value.uid);
      } else {
        userProfile := None;
      }
      loading := false;
    }

    /** `refreshProfile`: nothing without a user, otherwise a new fetch for
        the current uid.  Loading is left as it is. */
    method RefreshProfile(auth: AuthService)
      modifies this`userProfile
      ensures user.None? ==> userProfile == old(userProfile)
      ensures user.Some? ==> userProfile == FetchedProfile(auth.profiles, user.value.uid)
    {
      if user.Some? {
        FetchProfile(auth, user.value.uid);
      }
    }

    /** The mount effect: register the handler with the service, which calls
        it at once with the current (possibly restored) user. */
    method Mount(auth: AuthService)
      modifies this`user, this`userProfile, this`loading
      modifies auth`listeners, auth`currentUser, auth`delivered
      ensures auth.listeners == old(auth.listeners) + [handler]
      ensures auth.currentUser == if auth.session.Some? then auth.session else old(auth.currentUser)
      ensures auth.delivered == old(auth.delivered) + [Delivery(handler, auth.currentUser)]
      ensures user == auth.currentUser && !loading
      ensures userProfile == if user.Some? then FetchedProfile(auth.profiles, user.value.uid) else None
    {
      auth.OnAuthStateChanged(handler);
      HandleAuthChange(auth, auth.currentUser);
    }

    /** The effect's cleanup: the unsubscribe function it returned. */
    method Unmount(auth: AuthService)
      modifies auth`listeners
      ensures auth.listeners == Without(old(auth.listeners), handler)
      ensures handler !in auth.listeners
    {
      auth.Unsubscribe(handler);
    }
  }

  /** Loading only ever goes from true to false.  The general fact comes from
      the provider's methods themselves: `HandleAuthChange` ensures `!loading`
      and `FetchProfile` and `RefreshProfile` leave `loading` out of their
      frames.  This client runs one sequence of them (refresh, auth change,
      refresh) to show the contracts compose. */
  method LoadingStaysFalse(p: AuthProvider, auth: AuthService, u: Option<MockUser>)
    requires !p.loading
    modifies p
    ensures !p.loading
  {
    p.RefreshProfile(auth);
    assert !p.loading;
    p.HandleAuthChange(auth, u);
    p.RefreshProfile(auth);
  }
}
