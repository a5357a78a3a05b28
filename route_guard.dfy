/**
 * `ProtectedRoute`: the verdict for a protected page, computed afresh on
 * every render from the stored session and an optional required role.
 */
module RouteGuard {
  import opened Common
  import opened Session

  /** Redirect to `/login`, redirect to `/`, or render the protected children. */
  datatype Verdict = ToLogin | ToHome | Render

  /** A role is required: `requiredRole` is given and non-empty (the default is null). */
  predicate RoleRequired(requiredRole: Option<string>)
  {
    Truthy(requiredRole)
  }

  /**
   * The decision itself. Authentication is checked first; the role is
   * compared only when a role is required AND a user is stored, by plain
   * string equality.
   */
  function Guard(authenticated: bool, user: Option<UserProfile>, requiredRole: Option<string>): (v: Verdict)
    ensures !authenticated ==> v == ToLogin
    ensures v == ToHome <==>
              authenticated && RoleRequired(requiredRole) && user.Some? && user.value.role != requiredRole.value
    ensures v == Render <==>
              authenticated && (!RoleRequired(requiredRole) || user.None? || user.value.role == requiredRole.value)
  {
    if !authenticated then ToLogin
    else if RoleRequired(requiredRole) && user.Some? && user.value.role != requiredRole.value then ToHome
    else Render
  }

  /**
   * The component as a whole. `Auth.getUser()` runs before the
   * authentication check, so a stored user that does not parse makes the
   * render throw (`None`) even for a visitor who is not signed in.
   */
  function ProtectedRoute(s: Storage, requiredRole: Option<string>): (r: Option<Verdict>)
    ensures r.None? <==> GetUser(s) == ParseError
    ensures r.Some? && !IsAuthenticated(s) ==> r.value == ToLogin
    ensures forall u :: GetUser(s) == Parsed(u) ==> r == Some(Guard(IsAuthenticated(s), Some(u), requiredRole))
    ensures GetUser(s) == NoUser ==> r == Some(if IsAuthenticated(s) then Render else ToLogin)
  {
    match GetUser(s)
    case ParseError => None
    case NoUser => Some(Guard(IsAuthenticated(s), None, requiredRole))
    case Parsed(u) => Some(Guard(IsAuthenticated(s), Some(u), requiredRole))
  }

  /** The role test has no hierarchy: an administrator is sent home from a manager-only page. */
  lemma AdminDoesNotSatisfyManager(u: UserProfile)
    requires u.role == "admin"
    ensures Guard(true, Some(u), Some("manager")) == ToHome
  {
  }

  /** Without a required role every signed-in session renders, whoever the user is. */
  lemma NoRoleRendersEverySession(user: Option<UserProfile>, requiredRole: Option<string>)
    requires !RoleRequired(requiredRole)
    ensures Guard(true, user, requiredRole) == Render
  {
  }

  /** After logout, or after a 401 cleared the store, every protected page redirects to login. */
  lemma ClearedSessionRedirects(s: Storage, requiredRole: Option<string>)
    ensures ProtectedRoute(Cleared(s), requiredRole) == Some(ToLogin)
  {
  }

  /** A signed-in user whose role is the required one is let through. */
  lemma MatchingRoleRenders(token: string, u: UserProfile)
    requires token != ""
    ensures ProtectedRoute(WithLogin(token, u), Some(u.role)) == Some(Render)
  {
  }
}
