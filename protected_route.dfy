/**
 * The route guard of components/ProtectedRoute.tsx: a pure decision over
 * the session's `isLoading`, `isAuthenticated` and `role`, and the route's
 * optional `allowedRoles` list.
 */
module ProtectedRoute {
  import opened Wrappers
  import opened Types
  import opened AuthContext

  /** What a guard (or the root redirect) renders. */
  datatype Decision = Spinner | NavigateTo(path: string) | Outlet

  /**
   * `allowedRoles && role && !allowedRoles.includes(role)` (line 24).  An
   * empty list is still a list, so it counts as given; an empty role string
   * is falsy and never triggers the check.
   */
  predicate RoleRejected(s: Session, allowedRoles: Option<seq<UserRole>>): (b: bool)
    ensures b <==> (allowedRoles.Some? && Truthy(Role(s)) &&
                    forall r :: r in allowedRoles.value ==> r.Tag() != Role(s).value)
  {
    allowedRoles.Some? && Truthy(Role(s)) && Role(s).value !in Tags(allowedRoles.value)
  }

  /** The guard (lines 13-31): loading, then authentication, then role. */
  function Guard(s: Session, allowedRoles: Option<seq<UserRole>>): (d: Decision)
    ensures d != Outlet ==> d == Spinner || d == NavigateTo("/login") || d == NavigateTo("/")
  {
    if s.isLoading then Spinner
    else if !IsAuthenticated(s) then NavigateTo("/login")
    else if RoleRejected(s, allowedRoles) then NavigateTo("/")
    else Outlet
  }

  /** Rule 1: while loading, the spinner, whatever the session and roles. */
  lemma LoadingSuspends(s: Session, allowedRoles: Option<seq<UserRole>>)
    requires s.isLoading
    ensures Guard(s, allowedRoles) == Spinner
  {
  }

  /** Rule 2: loaded but not authenticated, to the login page. */
  lemma UnauthenticatedToLogin(s: Session, allowedRoles: Option<seq<UserRole>>)
    requires !s.isLoading && !IsAuthenticated(s)
    ensures Guard(s, allowedRoles) == NavigateTo("/login")
  {
  }

  /**
   * Rules 3 and 4 for a recognised role: an authenticated user is sent home
   * exactly when the route lists roles and theirs is not among them.
   */
  lemma RoleDecision(s: Session, allowedRoles: Option<seq<UserRole>>, r: UserRole)
    requires !s.isLoading && IsAuthenticated(s) && Role(s) == Some(r.Tag())
    ensures Guard(s, allowedRoles) == NavigateTo("/") <==> allowedRoles.Some? && r !in allowedRoles.value
    ensures Guard(s, allowedRoles) == Outlet <==> allowedRoles.None? || r in allowedRoles.value
  {
    if allowedRoles.Some? {
      var tags := Tags(allowedRoles.value);
      if r in allowedRoles.value {
        var i :| 0 <= i < |allowedRoles.value| && allowedRoles.value[i] == r;
        assert tags[i] == r.Tag();
      } else {
        forall i | 0 <= i < |tags| ensures tags[i] != r.Tag() {
          TagsDistinct(allowedRoles.value[i], r);
        }
      }
    }
  }

  /**
   * Soundness of the guard: the outlet is rendered only for a loaded,
   * authenticated session whose role is allowed, or whose role string is
   * empty (the falsy role slips past line 24).
   */
  lemma OutletOnlyWhenAllowed(s: Session, allowedRoles: Option<seq<UserRole>>)
    requires Guard(s, allowedRoles) == Outlet
    ensures !s.isLoading && IsAuthenticated(s)
    ensures allowedRoles.Some? ==> Role(s).value in Tags(allowedRoles.value) || Role(s).value == ""
  {
  }

  /** An authenticated user with an empty role string passes every guard. */
  lemma EmptyRolePasses(s: Session, allowedRoles: Option<seq<UserRole>>)
    requires !s.isLoading && IsAuthenticated(s) && Role(s) == Some("")
    ensures Guard(s, allowedRoles) == Outlet
  {
  }

  /**
   * The decision table for the staff routes: suspend while loading, login
   * when logged out, home for a student, outlet for staff.
   */
  lemma StaffRouteTable(s: Session)
    ensures s.isLoading ==> Guard(s, Some([Staff, SuperAdmin])) == Spinner
    ensures !s.isLoading && !IsAuthenticated(s) ==> Guard(s, Some([Staff, SuperAdmin])) == NavigateTo("/login")
    ensures !s.isLoading && IsAuthenticated(s) && Role(s) == Some(Student.Tag()) ==>
      Guard(s, Some([Staff, SuperAdmin])) == NavigateTo("/")
    ensures !s.isLoading && IsAuthenticated(s) && Role(s) == Some(Staff.Tag()) ==>
      Guard(s, Some([Staff, SuperAdmin])) == Outlet
  {
    assert Tags([Staff, SuperAdmin]) == ["staff", "super_admin"];
  }

  /** A logout re-evaluates every guard to the login redirect once loaded. */
  lemma GuardAfterLogout(s: Session, allowedRoles: Option<seq<UserRole>>)
    requires !s.isLoading
    ensures Guard(LoggedOut(s), allowedRoles) == NavigateTo("/login")
  {
  }
}
