/**
 * The router (frontend/src/router/index.ts): its route table, the global
 * `beforeEach` guard and `scrollBehavior`.  The auth store is seen through
 * two inputs: whether it is signed in, and whether it is signed in after
 * the token initialisation the guard may attempt.  That initialisation is
 * not defined by the auth store; its effect is the parameter
 * `authenticatedAfterInit`.
 */
module Router {
  import opened Wrappers

  /** A route record, with `meta.requiresAuth` as inherited by its children. */
  datatype RouteRecord = RouteRecord(name: string, path: string, requiresAuth: bool)

  const LoginRoute := "Login"

  /** The named routes, children flattened under their parent's path. */
  const Routes: seq<RouteRecord> := [
    RouteRecord("Login", "/login", false),
    RouteRecord("Register", "/register", false),
    RouteRecord("ForgotPassword", "/forgot-password", false),
    RouteRecord("ResetPassword", "/reset-password/:token", false),
    RouteRecord("Home", "/", true),
    RouteRecord("GroupList", "/groups", true),
    RouteRecord("ActivityList", "/activities", true),
    RouteRecord("GroupDetail", "/groups/:id", true),
    RouteRecord("ActivityDetail", "/activities/:id", true),
    RouteRecord("club-dashboard", "/club/:id", true),
    RouteRecord("club-members", "/club/:id/members", true),
    RouteRecord("club-activities", "/club/:id/activities", true),
    RouteRecord("club-settings", "/club/:id/settings", true)
  ]

  /** The four authentication screens are the only public routes. */
  lemma PublicRoutes()
    ensures forall k :: 0 <= k < |Routes| ==>
      (!Routes[k].requiresAuth <==> Routes[k].name in {"Login", "Register", "ForgotPassword", "ResetPassword"})
  {
  }

  /** The route a navigation resolves to. */
  datatype Location = Location(name: Option<string>, fullPath: string, requiresAuth: bool)

  datatype Navigation = Proceed | RedirectTo(name: string, redirect: string)

  /** What the guard does: whether it tried to restore the session, and where it sends the user. */
  datatype GuardStep = GuardStep(initAttempted: bool, next: Navigation)

  function BeforeEach(to: Location, authenticated: bool, jwtEntry: Option<string>,
                      authenticatedAfterInit: bool): (g: GuardStep)
    ensures g.initAttempted <==> !authenticated && jwtEntry.Some? && jwtEntry.value != ""
    ensures g.next.RedirectTo? <==>
      (to.requiresAuth && !(if g.initAttempted then authenticatedAfterInit else authenticated))
    ensures g.next.RedirectTo? ==> g.next.name == LoginRoute && g.next.redirect == to.fullPath
  {
    var attempt := !authenticated && jwtEntry.Some? && jwtEntry.value != "";
    var signedIn := if attempt then authenticatedAfterInit else authenticated;
    if to.requiresAuth && !signedIn then GuardStep(attempt, RedirectTo(LoginRoute, to.fullPath))
    else GuardStep(attempt, Proceed)
  }

  /** The location of a named route, as the guard sees it. */
  function At(r: RouteRecord, fullPath: string): Location {
    Location(Some(r.name), fullPath, r.requiresAuth)
  }

  /**
   * The redirect never loops: the Login route is public, so the guard lets
   * the redirected navigation through whatever the session state.
   */
  lemma RedirectTargetIsPublic(to: Location, authenticated: bool, jwtEntry: Option<string>,
                               after: bool, loginPath: string)
    requires BeforeEach(to, authenticated, jwtEntry, after).next.RedirectTo?
    ensures Routes[0].name == BeforeEach(to, authenticated, jwtEntry, after).next.name
    ensures forall a: bool, j: Option<string>, af: bool ::
      BeforeEach(At(Routes[0], loginPath), a, j, af).next == Proceed
  {
  }

  /** A signed-in user is never redirected and the guard then does not touch the token. */
  lemma SignedInProceeds(to: Location, jwtEntry: Option<string>, after: bool)
    ensures BeforeEach(to, true, jwtEntry, after) == GuardStep(false, Proceed)
  {
  }

  /** Public routes always proceed. */
  lemma PublicRouteProceeds(to: Location, authenticated: bool, jwtEntry: Option<string>, after: bool)
    requires !to.requiresAuth
    ensures BeforeEach(to, authenticated, jwtEntry, after).next == Proceed
  {
  }

  datatype Position = Position(left: int, top: int)

  /** `scrollBehavior` */
  function ScrollBehavior(saved: Option<Position>): (p: Position)
    ensures saved.Some? ==> p == saved.value
    ensures saved.None? ==> p.top == 0 && p.left == 0
  {
    if saved.Some? then saved.value else Position(0, 0)
  }
}
