/**
 * The access decision of the session middleware: given the request path,
 * whether a user is signed in, and the role stored in that user's profile,
 * let the request through or redirect it. The auth and profile lookups are
 * replaced by their results.
 */
module Middleware {
  import opened Wrappers

  datatype Decision = Pass | Redirect(target: string)

  const Login := "/login"
  const Dashboard := "/dashboard"
  const AdminZone := "/dashboard/admin"
  const LenderZone := "/dashboard/lender"
  const Overview := "/dashboard/overview"

  /** `profile?.role || 'farmer'`: no profile, no role and the empty role all fall back to `farmer`. */
  function EffectiveRole(profileRole: Option<string>): (r: string)
    ensures r != ""
    ensures r == "farmer" || profileRole == Some(r)
  {
    if profileRole.Some? && profileRole.value != "" then profileRole.value else "farmer"
  }

  /**
   * Who may open a dashboard path, stated per role: an admin everything outside
   * the lender zone, a lender everything outside the admin zone, anyone else
   * neither zone nor the overview.
   */
  predicate MayOpen(role: string, path: string) {
    if role == "admin" then !(LenderZone <= path)
    else if role == "lender" then !(AdminZone <= path)
    else !(AdminZone <= path) && !(LenderZone <= path) && path != Overview
  }

  /** The redirect decision of `updateSession`, first matching rule wins. */
  function RouteDecision(path: string, signedIn: bool, profileRole: Option<string>): (d: Decision)
    ensures !(Dashboard <= path) ==> d == Pass
    ensures Dashboard <= path && !signedIn ==> d == Redirect(Login)
    ensures Dashboard <= path && signedIn ==>
      d == (if MayOpen(EffectiveRole(profileRole), path) then Pass else Redirect(Dashboard))
  {
    if Dashboard <= path && !signedIn then Redirect(Login)
    else if signedIn && Dashboard <= path then
      var userRole := EffectiveRole(profileRole);
      var isAdminZone := AdminZone <= path;
      var isLenderZone := LenderZone <= path;
      var isOverview := path == Overview;
      if isAdminZone && userRole != "admin" then Redirect(Dashboard)
      else if isLenderZone && userRole != "lender" then Redirect(Dashboard)
      else if isOverview && (userRole != "admin" && userRole != "lender") then Redirect(Dashboard)
      else Pass
    else Pass
  }

  /** Following a redirect never leads to another one: `/login` and `/dashboard` always pass. */
  lemma NoRedirectLoop(path: string, signedIn: bool, profileRole: Option<string>)
    ensures RouteDecision(path, signedIn, profileRole).Redirect? ==>
      RouteDecision(RouteDecision(path, signedIn, profileRole).target, signedIn, profileRole) == Pass
  {
    assert !(Dashboard <= Login);
    assert !(AdminZone <= Dashboard) && !(LenderZone <= Dashboard);
  }

  /** A missing profile, a missing role and an empty role are all treated as the role `farmer`. */
  lemma MissingRoleIsFarmer(path: string)
    ensures RouteDecision(path, true, None) == RouteDecision(path, true, Some("farmer"))
    ensures RouteDecision(path, true, Some("")) == RouteDecision(path, true, Some("farmer"))
  {
  }

  /** Only admins enter the admin zone and only lenders the lender zone; an admin is kept out of the lender zone too. */
  lemma ZonesAreExclusive(path: string, profileRole: Option<string>)
    ensures AdminZone <= path ==>
      (RouteDecision(path, true, profileRole) == Pass <==> EffectiveRole(profileRole) == "admin")
    ensures LenderZone <= path ==>
      (RouteDecision(path, true, profileRole) == Pass <==> EffectiveRole(profileRole) == "lender")
    ensures RouteDecision(Overview, true, profileRole) == Pass <==>
      EffectiveRole(profileRole) == "admin" || EffectiveRole(profileRole) == "lender"
  {
    assert AdminZone <= path ==> path[11] == AdminZone[11] == 'a';
    assert LenderZone <= path ==> path[11] == LenderZone[11] == 'l';
    assert Overview[11] == 'o';
  }
}
