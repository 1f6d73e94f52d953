/** The session store kept by `AuthService`: the browser's local storage, a
    map from key to string shared by the whole tab, and the in-memory current
    user held by `currentUserSubject`. Reading the role, the token and the
    login state are functions of these two; logout, storing a login response,
    reloading the stored user and refreshing the profile change them. */
module AuthSession {
  import opened Models

  const AccessTokenKey: string := "access_token"
  const UserRoleKey: string := "user_role"
  const UserEmailKey: string := "user_email"
  const CurrentUserKey: string := "current_user"
  const SessionKeys: set<string> := {AccessTokenKey, UserRoleKey, UserEmailKey, CurrentUserKey}

  const LoginPath: string := "/auth/login"

  /** The object held as the current user. It may come from parsed JSON, so
      its role may be missing, and the basic info stored at login has no id. */
  datatype SessionUser = SessionUser(
    id: Option<int>,
    firstName: string,
    lastName: string,
    email: string,
    role: Option<string>)

  /** The body of a successful `POST /api/auth/login`. */
  datatype LoginResponse = LoginResponse(
    accessToken: string,
    refreshToken: Option<string>,
    tokenType: string,
    expiresIn: int,
    email: string,
    role: string,
    firstName: string,
    lastName: string)

  /** What `JSON.parse` makes of a stored text: it throws, or it yields a
      user object or `null`. */
  datatype ParseOutcome = Malformed | Parsed(user: Option<SessionUser>)

  /** `localStorage.getItem(key)`. */
  function Lookup(storage: map<string, string>, key: string): (v: Option<string>)
    ensures v.Some? <==> key in storage
    ensures v.Some? ==> v.value == storage[key]
  {
    if key in storage then Some(storage[key]) else None
  }

  /** `isLoggedIn()`, that is `!!localStorage.getItem('access_token')`. */
  function HasToken(storage: map<string, string>): (b: bool)
    ensures b <==> AccessTokenKey in storage && storage[AccessTokenKey] != ""
  {
    Truthy(Lookup(storage, AccessTokenKey))
  }

  /** `getUserRole()`: the in-memory user decides as soon as there is one,
      even when its role is missing; only without a user is the stored
      `user_role` consulted. */
  function RoleOf(user: Option<SessionUser>, storage: map<string, string>): (r: Option<string>)
    ensures user.Some? ==> r == user.value.role
    ensures user.None? ==> (r.Some? <==> UserRoleKey in storage)
    ensures user.None? && r.Some? ==> r.value == storage[UserRoleKey]
  {
    match user
    case Some(u) => u.role
    case None => Lookup(storage, UserRoleKey)
  }

  /** The storage after `logout()`: the four session keys are gone, every
      other key keeps its value. */
  function Cleared(storage: map<string, string>): (r: map<string, string>)
    ensures forall k :: k in SessionKeys ==> k !in r
    ensures forall k :: k !in SessionKeys ==> (k in r <==> k in storage)
    ensures forall k :: k in r ==> r[k] == storage[k]
  {
    storage - SessionKeys
  }

  /** The user object `storeAuthData` builds from a login response. */
  function BasicInfo(r: LoginResponse): SessionUser
  {
    SessionUser(None, r.firstName, r.lastName, r.email, Some(r.role))
  }

  /** The storage after `storeAuthData(r)`; `stringify` is `JSON.stringify`. */
  function Stored(storage: map<string, string>, r: LoginResponse, stringify: SessionUser -> string)
    : (m: map<string, string>)
    ensures m.Keys == storage.Keys + SessionKeys
    ensures m[AccessTokenKey] == r.accessToken
    ensures m[UserRoleKey] == r.role
    ensures m[UserEmailKey] == r.email
    ensures m[CurrentUserKey] == stringify(BasicInfo(r))
    ensures forall k :: k in storage && k !in SessionKeys ==> m[k] == storage[k]
  {
    storage[AccessTokenKey := r.accessToken]
           [UserRoleKey := r.role]
           [UserEmailKey := r.email]
           [CurrentUserKey := stringify(BasicInfo(r))]
  }

  /** The current user after `loadStoredUser()`, starting from `prev`: a
      missing or empty `current_user` and a text that does not parse leave
      `prev` in place; otherwise the parsed value (possibly `null`) replaces it. */
  function Restored(storage: map<string, string>, parse: string -> ParseOutcome, prev: Option<SessionUser>)
    : (u: Option<SessionUser>)
    ensures !Truthy(Lookup(storage, CurrentUserKey)) ==> u == prev
    ensures Truthy(Lookup(storage, CurrentUserKey)) && parse(storage[CurrentUserKey]).Malformed? ==> u == prev
    ensures Truthy(Lookup(storage, CurrentUserKey)) && parse(storage[CurrentUserKey]).Parsed? ==>
              u == parse(storage[CurrentUserKey]).user
  {
    var text := Lookup(storage, CurrentUserKey);
    if !Truthy(text) then prev
    else match parse(text.value)
      case Malformed => prev
      case Parsed(user) => user
  }

  /** Logging out twice leaves the storage exactly as logging out once. */
  lemma LogoutIdempotent(storage: map<string, string>)
    ensures Cleared(Cleared(storage)) == Cleared(storage)
    ensures !HasToken(Cleared(storage))
  {
  }

  /** A session stored at login survives a reload of the tab: a fresh service
      built over the same storage reports the same role and login state,
      whether `JSON.parse` gives back the stored user or fails on it (the
      stored `user_role` then answers). */
  lemma RoleSurvivesReload(storage: map<string, string>, r: LoginResponse,
                           stringify: SessionUser -> string, parse: string -> ParseOutcome)
    requires parse(stringify(BasicInfo(r))) == Parsed(Some(BasicInfo(r))) ||
             parse(stringify(BasicInfo(r))).Malformed?
    ensures RoleOf(Restored(Stored(storage, r, stringify), parse, None), Stored(storage, r, stringify)) == Some(r.role)
    ensures HasToken(Stored(storage, r, stringify)) <==> r.accessToken != ""
  {
    var m := Stored(storage, r, stringify);
    if stringify(BasicInfo(r)) == "" {
      assert Restored(m, parse, None) == None;
    }
  }

  class AuthService {
    /** `localStorage` */
    var storage: map<string, string>
    /** `currentUserSubject.value` */
    var currentUser: Option<SessionUser>

    /** The service starts from the storage the tab already holds and runs
        `loadStoredUser()`. */
    constructor (initial: map<string, string>, parse: string -> ParseOutcome)
      ensures storage == initial
      ensures currentUser == Restored(initial, parse, None)
    {
      storage := initial;
      currentUser := None;
      new;
      LoadStoredUser(parse);
    }

    predicate IsLoggedIn()
      reads this
    {
      HasToken(storage)
    }

    function GetToken(): Option<string>
      reads this
    {
      Lookup(storage, AccessTokenKey)
    }

    function GetUserRole(): Option<string>
      reads this
    {
      RoleOf(currentUser, storage)
    }

    predicate IsAdmin()
      reads this
    {
      GetUserRole() == Some("ADMIN")
    }

    predicate IsDoctor()
      reads this
    {
      GetUserRole() == Some("DOCTOR")
    }

    predicate IsPatient()
      reads this
    {
      GetUserRole() == Some("PATIENT")
    }

    /** Removes the four session keys, forgets the user and sends the tab to
        the login page. */
    method Logout() returns (navigateTo: string)
      modifies this
      ensures storage == Cleared(old(storage))
      ensures currentUser == None
      ensures !IsLoggedIn() && GetUserRole() == None
      ensures navigateTo == LoginPath
    {
      storage := storage - {AccessTokenKey};
      storage := storage - {UserRoleKey};
      storage := storage - {UserEmailKey};
      storage := storage - {CurrentUserKey};
      currentUser := None;
      navigateTo := LoginPath;
    }

    /** Commits a login response: token, role and e-mail under their keys,
        the basic user info as JSON, and the same info as the current user. */
    method StoreAuthData(r: LoginResponse, stringify: SessionUser -> string)
      modifies this
      ensures storage == Stored(old(storage), r, stringify)
      ensures currentUser == Some(BasicInfo(r))
      ensures GetUserRole() == Some(r.role)
      ensures IsLoggedIn() <==> r.accessToken != ""
    {
      storage := storage[AccessTokenKey := r.accessToken];
      storage := storage[UserRoleKey := r.role];
      storage := storage[UserEmailKey := r.email];
      var basic := BasicInfo(r);
      storage := storage[CurrentUserKey := stringify(basic)];
      currentUser := Some(basic);
    }

    method LoadStoredUser(parse: string -> ParseOutcome)
      modifies this`currentUser
      ensures currentUser == Restored(storage, parse, old(currentUser))
    {
      var userJson := Lookup(storage, CurrentUserKey);
      if Truthy(userJson) {
        var outcome := parse(userJson.value);
        if outcome.Parsed? {
          currentUser := outcome.user;
        }
      }
    }

    /** The effect of `loadCurrentUser()` once `GET /api/auth/me` has
        answered: `fetched` is the profile, or `None` when the call failed. A
        failure changes nothing; a profile replaces the current user whole and
        is written back under `current_user`. */
    method LoadCurrentUser(fetched: Option<SessionUser>, stringify: SessionUser -> string)
      modifies this
      ensures fetched.None? ==> storage == old(storage) && currentUser == old(currentUser)
      ensures fetched.Some? ==> currentUser == fetched
      ensures fetched.Some? ==> storage == old(storage)[CurrentUserKey := stringify(fetched.value)]
      ensures fetched.Some? ==> GetUserRole() == fetched.value.role
    {
      if fetched.Some? {
        currentUser := fetched;
        storage := storage[CurrentUserKey := stringify(fetched.value)];
      }
    }
  }

  /** At most one of `isAdmin()`, `isDoctor()`, `isPatient()` holds. */
  lemma RolePredicatesExclusive(auth: AuthService)
    ensures !(auth.IsAdmin() && auth.IsDoctor())
    ensures !(auth.IsAdmin() && auth.IsPatient())
    ensures !(auth.IsDoctor() && auth.IsPatient())
  {
  }
}
