/**
 * The route guard (frontend/src/components/ProtectedRoute.jsx) and the
 * routes the application mounts (frontend/src/App.jsx).
 */
module ProtectedRoute {
  import opened Wrappers
  import opened EmailService
  import opened AuthContext

  /** What the guard renders. */
  datatype View = ToLogin | Unauthorized | Children

  /**
   * `ProtectedRoute`: no user is sent to `/login`; when both an allowed
   * company and an allowed role are given, the user's `companyName` and
   * `role` must equal them exactly; otherwise the page is shown.
   */
  function Guard(user: Option<Account>, allowedCompany: Option<string>, allowedRole: Option<string>): (v: View)
    ensures v == ToLogin <==> user.None?
    ensures v == Unauthorized <==>
      user.Some? && Truthy(allowedCompany) && Truthy(allowedRole)
      && (user.value.companyName != allowedCompany || user.value.role != allowedRole)
    ensures user.Some? && !(Truthy(allowedCompany) && Truthy(allowedRole)) ==> v == Children
  {
    if user.None? then ToLogin
    else if Truthy(allowedCompany) && Truthy(allowedRole)
         && (user.value.companyName != allowedCompany || user.value.role != allowedRole) then Unauthorized
    else Children
  }

  /** Equality is exact: a role that differs only in letter case is refused. */
  lemma GuardIsCaseSensitive(u: Account, company: string)
    requires company != "" && u.companyName == Some(company) && u.role == Some("admin")
    ensures Guard(Some(u), Some(company), Some("Admin")) == Unauthorized
  {
    assert "admin"[0] != "Admin"[0];
  }

  /** One `<Route>`: its path and, for a guarded page, the props given to the guard. */
  datatype Route = Route(path: string, guarded: bool, allowedCompany: Option<string>, allowedRole: Option<string>)

  /** A dashboard route as mounted: guarded, with neither prop. */
  function Dashboard(path: string): (r: Route)
    ensures r.path == path && r.guarded && r.allowedCompany.None? && r.allowedRole.None?
  {
    Route(path, true, None, None)
  }

  const AppRoutes: seq<Route> := [
    Route("/", false, None, None),
    Route("/signup", false, None, None),
    Route("/login", false, None, None),
    Dashboard("/factory/company-owner"),
    Dashboard("/factory/admin"),
    Dashboard("/shipper/company-owner"),
    Dashboard("/shipper/admin"),
    Dashboard("/shipper/documentation"),
    Dashboard("/shipper/accounts"),
    Dashboard("/transporter/company-owner"),
    Dashboard("/transporter/admin"),
    Dashboard("/transporter/truck-driver"),
    Dashboard("/clearance-agents/company-owner"),
    Dashboard("/clearance-agents/admin"),
    Dashboard("/clearance-agents/documentation"),
    Dashboard("/clearance-agents/accounts")
  ]

  /** Whether `path` is the path of a mounted route. */
  predicate Mounted(path: string) {
    exists i | 0 <= i < |AppRoutes| :: AppRoutes[i].path == path
  }

  /** No dashboard is mounted with guard props, so any signed-in user reaches every dashboard. */
  lemma AnyUserReachesEveryDashboard(u: Account, i: nat)
    requires i < |AppRoutes| && AppRoutes[i].guarded
    ensures Guard(Some(u), AppRoutes[i].allowedCompany, AppRoutes[i].allowedRole) == Children
  {
  }

  /** Without a user every dashboard redirects to `/login`. */
  lemma NoUserReachesNoDashboard(i: nat)
    requires i < |AppRoutes| && AppRoutes[i].guarded
    ensures Guard(None, AppRoutes[i].allowedCompany, AppRoutes[i].allowedRole) == ToLogin
  {
  }
}
