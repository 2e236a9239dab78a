/**
 * The auth store (frontend/src/store/useAuthStore.ts): the signed-in user
 * in its "lean" form, the bootstrap from the session cookie, login, logout
 * and the cross-tab logout listener.  Each DAO call is an input: its
 * result is passed to the action that awaits it.  The `auth`
 * BroadcastChannel is modelled by the messages each tab posts.
 */
module AuthStore {
  import opened Wrappers
  import opened ApiErrors

  datatype UserType = Student | Admin | Leader
  datatype UserStatus = Active | Inactive

  /** The full user the API returns. */
  datatype UserDTO = UserDTO(
    userId: int, username: string, email: string, name: string, lastName: string,
    phone: Option<string>, profilePhotoUrl: Option<string>, userType: UserType, userStatus: UserStatus)

  /** The user kept in memory. */
  datatype UserLean = UserLean(userId: int, name: string, userType: UserType, avatar: Option<string>)

  /** `mapUserToLean` */
  function MapUserToLean(u: UserDTO): (lean: UserLean)
    ensures lean.userId == u.userId && lean.name == u.name && lean.userType == u.userType
    ensures lean.avatar == u.profilePhotoUrl
  {
    UserLean(u.userId, u.name, u.userType, u.profilePhotoUrl)
  }

  /** The lean user depends on exactly four fields of the full one. */
  lemma LeanDependsOnFourFields(u1: UserDTO, u2: UserDTO)
    ensures MapUserToLean(u1) == MapUserToLean(u2) <==>
      u1.userId == u2.userId && u1.name == u2.name && u1.userType == u2.userType
      && u1.profilePhotoUrl == u2.profilePhotoUrl
  {
  }

  const LoginFallback := "Credenciales inválidas."
  const LogoutMessage := "logout"

  class AuthStore {
    var user: Option<UserLean>
    var loading: bool
    var error: Option<string>
    /** Messages this tab has posted on the `auth` channel, oldest first. */
    var posted: seq<string>
    /** How many times `AuthDao.logout()` has been called. */
    var logoutRequests: nat

    constructor()
      ensures user.None? && !loading && error.None? && posted == [] && logoutRequests == 0
    {
      user := None;
      loading := false;
      error := None;
      posted := [];
      logoutRequests := 0;
    }

    /** `isAuthenticated`: `!!state.user`. */
    predicate IsAuthenticated()
      reads this
      ensures IsAuthenticated() <==> user != None
    {
      user.Some?
    }

    /** `bootstrap`, given what `AuthDao.me()` settles with. */
    method Bootstrap(me: Result<UserDTO, ApiError>)
      modifies this
      ensures old(user).Some? ==> user == old(user) && loading == old(loading)
      ensures old(user).None? ==> user == (if me.Ok? then Some(MapUserToLean(me.value)) else None) && !loading
      ensures error == old(error) && posted == old(posted) && logoutRequests == old(logoutRequests)
    {
      if user.Some? {
        return;
      }
      loading := true;
      match me {
        case Ok(full) => user := Some(MapUserToLean(full));
        case Err(_) => user := None;
      }
      loading := false;
    }

    /**
     * `login`, given what `AuthDao.login` and then `AuthDao.me` settle with.
     * `thrown` is the message the action rethrows, None when it resolves.
     */
    method Login(daoLogin: Outcome<ApiError>, me: Result<UserDTO, ApiError>) returns (thrown: Option<string>)
      modifies this
      ensures !loading
      ensures daoLogin.Fail? ==>
        && error == Some(ServerMessageOr(daoLogin.error, LoginFallback))
        && thrown == error && user == old(user)
      ensures daoLogin.Pass? ==>
        && thrown.None? && error.None?
        && user == (if old(user).Some? then old(user) else if me.Ok? then Some(MapUserToLean(me.value)) else None)
        && (IsAuthenticated() <==> old(IsAuthenticated()) || me.Ok?)
      ensures posted == old(posted) && logoutRequests == old(logoutRequests)
    {
      loading := true;
      error := None;
      match daoLogin {
        case Fail(e) =>
          error := Some(ServerMessageOr(e, LoginFallback));
          thrown := error;
        case Pass =>
          Bootstrap(me);
          thrown := None;
      }
      loading := false;
    }

    /** `logout`: tell the backend, reset the store, tell the other tabs. */
    method Logout()
      modifies this
      ensures user.None? && !loading && error.None? && !IsAuthenticated()
      ensures posted == old(posted) + [LogoutMessage]
      ensures logoutRequests == old(logoutRequests) + 1
    {
      logoutRequests := logoutRequests + 1;
      user := None;
      loading := false;
      error := None;
      posted := posted + [LogoutMessage];
    }

    /**
     * The `authChannel.onmessage` listener: it logs out (and reloads the
     * page) only for a 'logout' message while this tab is signed in.
     */
    method OnMessage(data: string) returns (reload: bool)
      modifies this
      ensures reload <==> data == LogoutMessage && old(user).Some?
      ensures reload ==> user.None? && posted == old(posted) + [LogoutMessage] && logoutRequests == old(logoutRequests) + 1
      ensures !reload ==> (user == old(user) && loading == old(loading) && error == old(error)
        && posted == old(posted) && logoutRequests == old(logoutRequests))
    {
      reload := false;
      if data == LogoutMessage && IsAuthenticated() {
        Logout();
        reload := true;
      }
    }
  }

  /** Bootstrapping twice asks the API once: the second call finds the user and does nothing. */
  method BootstrapTwice(store: AuthStore, me1: Result<UserDTO, ApiError>, me2: Result<UserDTO, ApiError>)
    modifies store
    ensures old(store.user).None? && me1.Ok? ==> store.user == Some(MapUserToLean(me1.value))
    ensures old(store.user).Some? ==> store.user == old(store.user)
    ensures old(store.user).None? && me1.Err? ==> store.user == (if me2.Ok? then Some(MapUserToLean(me2.value)) else None)
  {
    store.Bootstrap(me1);
    store.Bootstrap(me2);
  }

  /**
   * Tab `a` logs out while tab `b` is open.  `b` hears the message and, if
   * signed in, logs out and posts its own message; `a`, already signed
   * out, ignores that echo, so the exchange stops after at most two posts.
   */
  method CrossTabLogout(a: AuthStore, b: AuthStore) returns (bReloads: bool, aReloads: bool)
    requires a != b
    modifies a, b
    ensures a.user.None? && b.user.None?
    ensures a.posted == old(a.posted) + [LogoutMessage]
    ensures bReloads <==> old(b.user).Some?
    ensures b.posted == old(b.posted) + (if bReloads then [LogoutMessage] else [])
    ensures !aReloads
  {
    a.Logout();
    bReloads := b.OnMessage(a.posted[|a.posted| - 1]);
    aReloads := false;
    if bReloads {
      aReloads := a.OnMessage(b.posted[|b.posted| - 1]);
    }
  }
}
