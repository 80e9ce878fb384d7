/**
 * components/Navbar.tsx: the dashboard link it shows to a logged-in user
 * and its logout handler.
 */
module Navbar {
  import opened Wrappers
  import opened Types
  import opened AuthContext
  import opened ProtectedRoute
  import opened App

  /** One of the three enum roles. */
  predicate Recognised(u: User) {
    HasRole(u, Student) || HasRole(u, Staff) || HasRole(u, SuperAdmin)
  }

  /** getDashboardLink (lines 19-24). */
  function DashboardLink(user: Option<User>): (link: string)
    ensures user.None? ==> link == "/login"
    ensures user.Some? && HasRole(user.value, Student) ==> link == "/student/dashboard"
    ensures user.Some? && (HasRole(user.value, Staff) || HasRole(user.value, SuperAdmin)) ==> link == "/admin/dashboard"
    ensures user.Some? && !Recognised(user.value) ==> link == "/"
  {
    if user.None? then "/login"
    else if HasRole(user.value, Student) then "/student/dashboard"
    else if HasRole(user.value, Staff) || HasRole(user.value, SuperAdmin) then "/admin/dashboard"
    else "/"
  }

  /**
   * For an authenticated session (the only one the link is shown to) with a
   * recognised role, the link and the root redirect agree.
   */
  lemma LinkAgreesWithRootRedirect(s: Session)
    requires !s.isLoading && IsAuthenticated(s) && Recognised(s.user.value)
    ensures RedirectToDashboard(s) == NavigateTo(DashboardLink(s.user))
  {
  }

  /**
   * With a role outside the enum the two resolvers part ways: the link
   * falls back to `/`, the root redirect to `/login`.
   */
  lemma UnrecognisedRoleDisagrees(s: Session)
    requires !s.isLoading && IsAuthenticated(s) && !Recognised(s.user.value)
    ensures DashboardLink(s.user) == "/"
    ensures RedirectToDashboard(s) == NavigateTo("/login")
  {
  }

  /**
   * handleLogout (lines 14-17): log out, then go to the login page.  The
   * session is empty afterwards and every guard then sends the user to log in.
   */
  method HandleLogout(auth: AuthProvider) returns (target: string)
    modifies auth
    ensures target == "/login"
    ensures auth.Current() == LoggedOut(old(auth.Current()))
    ensures !IsAuthenticated(auth.Current()) && Role(auth.Current()).None?
    ensures !auth.isLoading ==> forall roles :: Guard(auth.Current(), roles) == NavigateTo("/login")
  {
    auth.Logout();
    target := "/login";
  }
}
