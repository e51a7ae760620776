/**
 * The two route wrappers of frontend/src/Context: `ProtectFromAdmin`, which
 * keeps admins out of user pages, and `ProtectFromAuthenticatedUsers`, which
 * keeps signed-in visitors off the login and registration pages.
 */
module RouteGuards {
  import opened Wrappers
  import opened Schema
  import opened Client

  /** What a wrapper renders. */
  datatype Render = Loading | Redirect(to: string) | Children

  const HomePath: string := "/"

  /**
   * The value `UserContext` provides, seen from `useContext`: the user
   * (null or an object with a role) and a `loading` key, None for undefined.
   */
  datatype ContextValue = ContextValue(user: Option<string>, loading: Option<bool>)

  /** The provider's value is `{user, setUser, getUser}`: there is no `loading` key. */
  function Provided(userRole: Option<string>): (v: ContextValue)
    ensures v.user == userRole && v.loading == None
  {
    ContextValue(userRole, None)
  }

  /** `ProtectFromAdmin`: loading first, then an admin is sent to the dashboard, anyone else sees the page. */
  function ProtectFromAdmin(ctx: ContextValue): (r: Render)
    ensures r == Loading <==> ctx.loading == Some(true)
    ensures r == Redirect(DashboardPath) <==> ctx.loading != Some(true) && ctx.user == Some(AdminRole)
    ensures r == Children <==> ctx.loading != Some(true) && ctx.user != Some(AdminRole)
  {
    if ctx.loading == Some(true) then Loading
    else if ctx.user == Some(AdminRole) then Redirect(DashboardPath)
    else Children
  }

  /** Under the real provider the loading placeholder never shows, whoever is signed in. */
  lemma AdminGuardNeverLoads(userRole: Option<string>)
    ensures ProtectFromAdmin(Provided(userRole)) != Loading
    ensures ProtectFromAdmin(Provided(userRole)) == Children <==> userRole != Some(AdminRole)
  {
  }

  /** `isAuthenticated`: null until the probe returns, then true or false. */
  datatype AuthState = Unknown | Authenticated | Anonymous

  /** How the probe of `GET /api/users` ended. */
  datatype Probe = ProbeOk | ProbeNotOk | ProbeThrew

  function AfterProbe(p: Probe): (s: AuthState)
    ensures s == Authenticated <==> p == ProbeOk
    ensures s != Unknown
  {
    match p
    case ProbeOk => Authenticated
    case ProbeNotOk => Anonymous
    case ProbeThrew => Anonymous
  }

  /** `ProtectFromAuthenticatedUsers`'s render: placeholder, redirect home, or the page. */
  function AuthDecision(s: AuthState): (r: Render)
    ensures r == Loading <==> s == Unknown
    ensures r == Redirect(HomePath) <==> s == Authenticated
    ensures r == Children <==> s == Anonymous
  {
    match s
    case Unknown => Loading
    case Authenticated => Redirect(HomePath)
    case Anonymous => Children
  }

  /** The wrapper's state; the probe runs once, on mount. */
  class AuthGuard {
    var isAuthenticated: AuthState
    var probed: bool

    constructor ()
      ensures isAuthenticated == Unknown && !probed
    {
      isAuthenticated := Unknown;
      probed := false;
    }

    /** The mount effect: the first probe decides; a later call (the effect has no dependencies) changes nothing. */
    method Mounted(p: Probe)
      modifies this
      ensures !old(probed) ==> isAuthenticated == AfterProbe(p)
      ensures old(probed) ==> isAuthenticated == old(isAuthenticated)
      ensures probed
    {
      if !probed {
        isAuthenticated := AfterProbe(p);
        probed := true;
      }
    }
  }
}
