/**
 * App.tsx: the root redirect `RedirectToDashboard` and the route table,
 * with the guard of each protected group.  A requested location is given
 * as its path segments ("/admin/users" is ["admin", "users"], "/" is []).
 */
module App {
  import opened Wrappers
  import opened Types
  import opened AuthContext
  import opened ProtectedRoute
  import opened Constants

  /** RedirectToDashboard (lines 45-60). */
  function RedirectToDashboard(s: Session): (d: Decision)
    ensures s.isLoading ==> d == Spinner
    ensures !s.isLoading && IsAuthenticated(s) && HasRole(s.user.value, Student) ==>
      d == NavigateTo("/student/dashboard")
    ensures (!s.isLoading && IsAuthenticated(s) &&
             (HasRole(s.user.value, Staff) || HasRole(s.user.value, SuperAdmin))) ==>
      d == NavigateTo("/admin/dashboard")
    ensures !s.isLoading && !IsAuthenticated(s) ==> d == NavigateTo("/login")
    ensures (!s.isLoading && IsAuthenticated(s) &&
             !(HasRole(s.user.value, Student) || HasRole(s.user.value, Staff) || HasRole(s.user.value, SuperAdmin))) ==>
      d == NavigateTo("/login")
  {
    if s.isLoading then Spinner
    else if IsAuthenticated(s) && s.user.Some? && HasRole(s.user.value, Student) then
      NavigateTo("/student/dashboard")
    else if IsAuthenticated(s) && s.user.Some? &&
            (HasRole(s.user.value, Staff) || HasRole(s.user.value, SuperAdmin)) then
      NavigateTo("/admin/dashboard")
    else NavigateTo("/login")
  }

  /** What a route element does once shown. */
  datatype Element = Page(name: string) | DashboardRedirect | Redirect(to: string)

  /** A route is public or wrapped in a `ProtectedRoute` with its role list. */
  datatype Access = Public | Protected(allowedRoles: seq<UserRole>)

  /** A `<Route path=... element=...>` leaf. */
  datatype Leaf = Leaf(pattern: seq<string>, element: Element)

  datatype Route = Route(pattern: seq<string>, access: Access, element: Element)

  /** What the user ends up seeing for a request. */
  datatype Screen = Loading | Redirected(to: string) | Rendered(page: string)

  /** A group of leaves nested under one layout route: all share its access. */
  function Group(access: Access, leaves: seq<Leaf>): (routes: seq<Route>)
    ensures |routes| == |leaves|
    ensures forall i :: 0 <= i < |leaves| ==> routes[i] == Route(leaves[i].pattern, access, leaves[i].element)
    ensures forall r :: r in routes ==> r.access == access && Leaf(r.pattern, r.element) in leaves
  {
    seq(|leaves|, i requires 0 <= i < |leaves| => Route(leaves[i].pattern, access, leaves[i].element))
  }

  /** The public routes and the root redirect (lines 69-80). */
  const PublicLeaves: seq<Leaf> := [
    Leaf([], Page("HomePage")),
    Leaf(["about"], Page("AboutPage")),
    Leaf(["courses"], Page("CoursesPage")),
    Leaf(["courses", ":id"], Page("CourseDetailPage")),
    Leaf(["timetable-preview"], Page("TimetablePreviewPage")),
    Leaf(["contact"], Page("ContactPage")),
    Leaf(["privacy-policy"], Page("PrivacyPolicyPage")),
    Leaf(["login"], Page("LoginPage")),
    Leaf(["signup"], Page("SignupPage")),
    Leaf(["dashboard"], DashboardRedirect)
  ]

  /** The student group (lines 83-92). */
  const StudentLeaves: seq<Leaf> := [
    Leaf(["student", "dashboard"], Page("StudentDashboardPage")),
    Leaf(["student", "courses"], Page("StudentCoursesPage")),
    Leaf(["student", "courses", ":courseId", "lectures"], Page("StudentLecturesPage")),
    Leaf(["student", "payments"], Page("StudentPaymentsPage")),
    Leaf(["student", "attendance"], Page("StudentAttendancePage")),
    Leaf(["student", "timetable"], Page("StudentTimetablePage")),
    Leaf(["student", "certificates"], Page("StudentCertificatesPage")),
    Leaf(["student", "profile"], Page("StudentProfilePage"))
  ]

  /** The staff and super admin group (lines 95-104). */
  const ManagementLeaves: seq<Leaf> := [
    Leaf(["admin", "dashboard"], Page("AdminDashboardPage")),
    Leaf(["admin", "students"], Page("AdminStudentsPage")),
    Leaf(["admin", "courses"], Page("AdminCoursesPage")),
    Leaf(["admin", "lectures"], Page("AdminLecturesPage")),
    Leaf(["admin", "timetable"], Page("AdminTimetablePage")),
    Leaf(["admin", "attendance"], Page("AdminAttendancePage")),
    Leaf(["admin", "payments"], Page("AdminPaymentsPage")),
    Leaf(["admin", "certificates"], Page("AdminCertificatesPage"))
  ]

  /** The super admin group (lines 107-110). */
  const SuperAdminLeaves: seq<Leaf> := [
    Leaf(["admin", "users"], Page("AdminUsersPage")),
    Leaf(["admin", "settings"], Page("AdminSettingsPage"))
  ]

  const PublicRoutes: seq<Route> := Group(Public, PublicLeaves)
  const StudentRoutes: seq<Route> := Group(Protected([Student]), StudentLeaves)
  const ManagementRoutes: seq<Route> := Group(Protected([Staff, SuperAdmin]), ManagementLeaves)
  const SuperAdminRoutes: seq<Route> := Group(Protected([SuperAdmin]), SuperAdminLeaves)

  /** The route table (lines 67-110), in declaration order. */
  const Routes: seq<Route> := PublicRoutes + StudentRoutes + ManagementRoutes + SuperAdminRoutes

  /** A `:name` segment matches any non-empty segment; others match themselves. */
  predicate SegmentMatches(pattern: string, segment: string): (b: bool)
    ensures (|pattern| == 0 || pattern[0] != ':') ==> (b <==> pattern == segment)
    ensures |pattern| > 0 && pattern[0] == ':' ==> (b <==> segment != "")
    ensures segment == "" ==> (b <==> pattern == "")
  {
    if |pattern| > 0 && pattern[0] == ':' then segment != "" else pattern == segment
  }

  /** A whole pattern matches a path segment by segment, with no segment left over. */
  predicate Matches(pattern: seq<string>, path: seq<string>): (b: bool)
    ensures b ==> |pattern| == |path|
    ensures path == [] ==> (b <==> pattern == [])
  {
    |pattern| == |path| && forall i :: 0 <= i < |pattern| ==> SegmentMatches(pattern[i], path[i])
  }

  /** The first route of `routes`, in declaration order, that matches `path`. */
  function FirstMatch(routes: seq<Route>, path: seq<string>): (r: Option<Route>)
    ensures r.Some? ==> r.value in routes && Matches(r.value.pattern, path)
    ensures r.Some? ==> exists i :: 0 <= i < |routes| && routes[i] == r.value &&
                                    (forall j :: 0 <= j < i ==> !Matches(routes[j].pattern, path))
    ensures r.None? <==> forall q :: q in routes ==> !Matches(q.pattern, path)
  {
    if routes == [] then None
    else if Matches(routes[0].pattern, path) then Some(routes[0])
    else
      assert forall q :: q in routes ==> q == routes[0] || q in routes[1..];
      var r := FirstMatch(routes[1..], path);
      if r.Some? then
        var i :| 0 <= i < |routes[1..]| && routes[1..][i] == r.value &&
          forall j :: 0 <= j < i ==> !Matches(routes[1..][j].pattern, path);
        assert routes[i + 1] == r.value;
        assert forall j :: 0 <= j < i + 1 ==> !Matches(routes[j].pattern, path) by {
          forall j | 0 <= j < i + 1 ensures !Matches(routes[j].pattern, path) {
            if j > 0 { assert routes[j] == routes[1..][j - 1]; }
          }
        }
        r
      else r
  }

  /** Showing an element that is past its guard. */
  function Show(s: Session, e: Element): (screen: Screen)
    ensures e.Page? ==> screen == Rendered(e.name)
    ensures e.Redirect? ==> screen == Redirected(e.to)
    ensures e.DashboardRedirect? && s.isLoading ==> screen == Loading
    ensures e.DashboardRedirect? && !s.isLoading ==>
      screen.Redirected? && RedirectToDashboard(s) == NavigateTo(screen.to)
  {
    match e
    case Page(name) => Rendered(name)
    case Redirect(to) => Redirected(to)
    case DashboardRedirect =>
      match RedirectToDashboard(s)
      case NavigateTo(p) => Redirected(p)
      case _ => Loading
  }

  /** Routing a request: the matched route's guard, then its element; `*` goes home (line 113). */
  function Navigate(s: Session, path: seq<string>): (screen: Screen)
    ensures FirstMatch(Routes, path).None? ==> screen == Redirected("/")
    ensures FirstMatch(Routes, path).Some? && FirstMatch(Routes, path).value.access.Public? ==>
      screen == Show(s, FirstMatch(Routes, path).value.element)
  {
    match FirstMatch(Routes, path)
    case None => Redirected("/")
    case Some(route) =>
      match route.access
      case Public => Show(s, route.element)
      case Protected(roles) =>
        match Guard(s, Some(roles))
        case Spinner => Loading
        case NavigateTo(p) => Redirected(p)
        case Outlet => Show(s, route.element)
  }

  // ---------------------------------------------------------------------
  // Properties of the route table
  // ---------------------------------------------------------------------

  predicate StartsWith(pattern: seq<string>, segment: string) {
    |pattern| > 0 && pattern[0] == segment
  }

  /**
   * The role sets (lines 83-110): the student routes allow only students,
   * the eight management routes staff and super admins, `/admin/users`
   * and `/admin/settings` only super admins; every protected set is
   * non-empty, and every route under `/admin` is one of these.
   */
  lemma RouteRoleSets()
    ensures forall r :: r in Routes && StartsWith(r.pattern, "student") ==> r.access == Protected([Student])
    ensures forall r :: r in Routes && r.pattern in [["admin", "users"], ["admin", "settings"]] ==>
      r.access == Protected([SuperAdmin])
    ensures forall r :: r in Routes && StartsWith(r.pattern, "admin") && r.pattern !in [["admin", "users"], ["admin", "settings"]] ==>
      r.access == Protected([Staff, SuperAdmin])
    ensures |ManagementRoutes| == 8
    ensures forall r :: r in Routes && r.access.Protected? ==> |r.access.allowedRoles| > 0
  {
    forall r | r in Routes
      ensures StartsWith(r.pattern, "student") ==> r.access == Protected([Student])
      ensures StartsWith(r.pattern, "admin") ==> r in ManagementRoutes || r in SuperAdminRoutes
      ensures r in SuperAdminRoutes ==> r.access == Protected([SuperAdmin]) && r.pattern in [["admin", "users"], ["admin", "settings"]]
      ensures r in ManagementRoutes ==> r.access == Protected([Staff, SuperAdmin]) && r.pattern !in [["admin", "users"], ["admin", "settings"]]
      ensures r.access.Protected? ==> |r.access.allowedRoles| > 0
    {
      RouteLeaf(r);
      LeafShapes(Leaf(r.pattern, r.element));
    }
  }

  /** Each route of the table is a leaf of one group, carrying that group's access. */
  lemma RouteLeaf(r: Route)
    requires r in Routes
    ensures var l := Leaf(r.pattern, r.element);
      (r in PublicRoutes && r.access == Public && l in PublicLeaves) ||
      (r in StudentRoutes && r.access == Protected([Student]) && l in StudentLeaves) ||
      (r in ManagementRoutes && r.access == Protected([Staff, SuperAdmin]) && l in ManagementLeaves) ||
      (r in SuperAdminRoutes && r.access == Protected([SuperAdmin]) && l in SuperAdminLeaves)
  {
    assert r in PublicRoutes || r in StudentRoutes || r in ManagementRoutes || r in SuperAdminRoutes;
  }

  /**
   * The shape of each group's leaves: public leaves sit under neither
   * `/student` nor `/admin` and begin with a literal; student and admin
   * leaves sit under their own prefix, and admin leaves are literal.
   */
  lemma LeafShapes(l: Leaf)
    ensures l in PublicLeaves ==>
      !StartsWith(l.pattern, "student") && !StartsWith(l.pattern, "admin") &&
      (|l.pattern| > 0 ==> |l.pattern[0]| > 0 && l.pattern[0][0] != ':')
    ensures l in StudentLeaves ==> StartsWith(l.pattern, "student") && l.element.Page?
    ensures l in ManagementLeaves + SuperAdminLeaves ==> StartsWith(l.pattern, "admin") && Literal(l.pattern)
    ensures l in ManagementLeaves ==> l.pattern !in [["admin", "users"], ["admin", "settings"]]
    ensures l in SuperAdminLeaves ==> l.pattern in [["admin", "users"], ["admin", "settings"]]
  {
    if l in ManagementLeaves + SuperAdminLeaves {
      AdminLeafShape(l);
      AdminLeavesLiteral(l);
    }
  }

  /** Every route begins with a literal segment, so a request's first segment picks its group. */
  lemma FirstSegmentLiteral(r: Route, path: seq<string>)
    requires r in Routes && Matches(r.pattern, path) && |path| > 0
    ensures r.pattern[0] == path[0]
  {
    RouteLeaf(r);
    LeafShapes(Leaf(r.pattern, r.element));
    assert SegmentMatches(r.pattern[0], path[0]);
  }

  /** A request that matches no route is sent home, whoever asks. */
  lemma UnmatchedGoesHome(s: Session, path: seq<string>)
    requires forall r :: r in Routes ==> !Matches(r.pattern, path)
    ensures Navigate(s, path) == Redirected("/")
  {
  }

  /** A loaded, authenticated student asking for any `/admin` location is sent home. */
  lemma StudentBouncedFromAdmin(s: Session, path: seq<string>)
    requires !s.isLoading && IsAuthenticated(s) && Role(s) == Some(Student.Tag())
    requires StartsWith(path, "admin")
    ensures Navigate(s, path) == Redirected("/")
  {
    match FirstMatch(Routes, path) {
      case None =>
      case Some(r) =>
        AdminRequestMatchesAdminGroup(r, path);
        RouteLeaf(r);
        assert r.access == Protected([Staff, SuperAdmin]) || r.access == Protected([SuperAdmin]);
        RoleDecision(s, Some(r.access.allowedRoles), Student);
        NavigateThroughGuard(s, path, r);
    }
  }

  /** A pattern without `:name` segments matches only itself. */
  predicate Literal(pattern: seq<string>) {
    forall i :: 0 <= i < |pattern| ==> |pattern[i]| == 0 || pattern[i][0] != ':'
  }

  lemma LiteralMatchesItself(pattern: seq<string>, path: seq<string>)
    requires Literal(pattern) && Matches(pattern, path)
    ensures pattern == path
  {
  }

  /** A request under `/admin` can only match a route of the two admin groups. */
  lemma AdminRequestMatchesAdminGroup(q: Route, path: seq<string>)
    requires q in Routes && Matches(q.pattern, path) && StartsWith(path, "admin")
    ensures q in ManagementRoutes || q in SuperAdminRoutes
    ensures q.pattern == path
  {
    FirstSegmentLiteral(q, path);
    RouteLeaf(q);
    LeafShapes(Leaf(q.pattern, q.element));
    LiteralMatchesItself(q.pattern, path);
  }

  lemma AdminLeavesLiteral(l: Leaf)
    requires l in ManagementLeaves || l in SuperAdminLeaves
    ensures Literal(l.pattern)
  {
  }

  /** What a request for a matched protected route shows, by its guard's decision. */
  lemma NavigateThroughGuard(s: Session, path: seq<string>, q: Route)
    requires FirstMatch(Routes, path) == Some(q) && q.access.Protected?
    ensures Guard(s, Some(q.access.allowedRoles)) == Outlet ==> Navigate(s, path) == Show(s, q.element)
    ensures Guard(s, Some(q.access.allowedRoles)).NavigateTo? ==>
      Navigate(s, path) == Redirected(Guard(s, Some(q.access.allowedRoles)).path)
    ensures Guard(s, Some(q.access.allowedRoles)) == Spinner ==> Navigate(s, path) == Loading
  {
  }

  /** Within the admin groups no two routes share a pattern. */
  lemma AdminPatternsDistinct(a: Leaf, b: Leaf)
    requires a in ManagementLeaves + SuperAdminLeaves && b in ManagementLeaves + SuperAdminLeaves
    requires a.pattern == b.pattern
    ensures a == b
  {
  }

  /** An admin-group route with the pattern of `leaf` is the route built from `leaf`. */
  lemma AdminRouteOf(q: Route, leaf: Leaf)
    requires q in ManagementRoutes || q in SuperAdminRoutes
    requires leaf in ManagementLeaves + SuperAdminLeaves && q.pattern == leaf.pattern
    ensures leaf in ManagementLeaves ==> q == Route(leaf.pattern, Protected([Staff, SuperAdmin]), leaf.element)
    ensures leaf in SuperAdminLeaves ==> q == Route(leaf.pattern, Protected([SuperAdmin]), leaf.element)
  {
    var ql := Leaf(q.pattern, q.element);
    assert ql in ManagementLeaves + SuperAdminLeaves;
    AdminPatternsDistinct(ql, leaf);
  }

  lemma AdminLeafShape(leaf: Leaf)
    requires leaf in ManagementLeaves + SuperAdminLeaves
    ensures StartsWith(leaf.pattern, "admin") && leaf.element.Page?
    ensures leaf in ManagementLeaves ==> leaf.pattern !in [["admin", "users"], ["admin", "settings"]]
    ensures leaf in SuperAdminLeaves ==> leaf.pattern in [["admin", "users"], ["admin", "settings"]]
  {
  }

  /** A request for a management page is served by that page's route. */
  lemma ManagementRouteMatched(leaf: Leaf)
    requires leaf in ManagementLeaves
    ensures leaf.element.Page?
    ensures FirstMatch(Routes, leaf.pattern) == Some(Route(leaf.pattern, Protected([Staff, SuperAdmin]), leaf.element))
  {
    AdminLeafShape(leaf);
    assert Route(leaf.pattern, Protected([Staff, SuperAdmin]), leaf.element) in ManagementRoutes;
    var q := FirstMatch(Routes, leaf.pattern).value;
    AdminRequestMatchesAdminGroup(q, leaf.pattern);
    AdminRouteOf(q, leaf);
  }

  /** A request for `/admin/users` or `/admin/settings` is served by that page's route. */
  lemma SuperAdminRouteMatched(leaf: Leaf)
    requires leaf in SuperAdminLeaves
    ensures leaf.element.Page?
    ensures FirstMatch(Routes, leaf.pattern) == Some(Route(leaf.pattern, Protected([SuperAdmin]), leaf.element))
  {
    AdminLeafShape(leaf);
    assert Route(leaf.pattern, Protected([SuperAdmin]), leaf.element) in SuperAdminRoutes;
    var q := FirstMatch(Routes, leaf.pattern).value;
    AdminRequestMatchesAdminGroup(q, leaf.pattern);
    AdminRouteOf(q, leaf);
  }

  /** A loaded, authenticated staff member asking for `/admin/users` or `/admin/settings` is sent home. */
  lemma StaffBouncedFromSuperAdminRoutes(s: Session, page: string)
    requires !s.isLoading && IsAuthenticated(s) && Role(s) == Some(Staff.Tag())
    requires page == "users" || page == "settings"
    ensures Navigate(s, ["admin", page]) == Redirected("/")
  {
    var leaf := SuperAdminLeaves[if page == "users" then 0 else 1];
    assert leaf.pattern == ["admin", page];
    SuperAdminRouteMatched(leaf);
    RoleDecision(s, Some([SuperAdmin]), Staff);
    NavigateThroughGuard(s, leaf.pattern, Route(leaf.pattern, Protected([SuperAdmin]), leaf.element));
  }

  /** A loaded super admin reaches `/admin/users` and `/admin/settings`. */
  lemma SuperAdminReachesSuperAdminRoutes(s: Session, leaf: Leaf)
    requires !s.isLoading && IsAuthenticated(s) && Role(s) == Some(SuperAdmin.Tag())
    requires leaf in SuperAdminLeaves
    ensures leaf.element.Page?
    ensures Navigate(s, leaf.pattern) == Rendered(leaf.element.name)
  {
    SuperAdminRouteMatched(leaf);
    RoleDecision(s, Some([SuperAdmin]), SuperAdmin);
    NavigateThroughGuard(s, leaf.pattern, Route(leaf.pattern, Protected([SuperAdmin]), leaf.element));
  }

  /** A loaded staff member or super admin reaches every management route. */
  lemma AdminReachesManagementRoutes(s: Session, leaf: Leaf, r: UserRole)
    requires !s.isLoading && IsAuthenticated(s) && Role(s) == Some(r.Tag()) && (r == Staff || r == SuperAdmin)
    requires leaf in ManagementLeaves
    ensures leaf.element.Page?
    ensures Navigate(s, leaf.pattern) == Rendered(leaf.element.name)
  {
    ManagementRouteMatched(leaf);
    RoleDecision(s, Some([Staff, SuperAdmin]), r);
    NavigateThroughGuard(s, leaf.pattern, Route(leaf.pattern, Protected([Staff, SuperAdmin]), leaf.element));
  }

  /** A request under `/student` can only match a student route. */
  lemma StudentRequestMatchesStudentGroup(q: Route, path: seq<string>)
    requires q in Routes && Matches(q.pattern, path) && StartsWith(path, "student")
    ensures q in StudentRoutes && q.access == Protected([Student])
    ensures Leaf(q.pattern, q.element) in StudentLeaves
  {
    FirstSegmentLiteral(q, path);
    RouteLeaf(q);
    LeafShapes(Leaf(q.pattern, q.element));
  }

  /** The only student leaf a two-segment request can match is the one it names. */
  lemma StudentLeafOfLengthTwo(l: Leaf, path: seq<string>)
    requires l in StudentLeaves && Matches(l.pattern, path) && |path| == 2
    ensures l.pattern == path
  {
    assert Literal(l.pattern);
    LiteralMatchesItself(l.pattern, path);
  }

  lemma StudentDashboardLeaf(l: Leaf)
    requires l in StudentLeaves && l.pattern == ["student", "dashboard"]
    ensures l == StudentLeaves[0]
  {
  }

  /** `/student/dashboard` is served by the student dashboard route. */
  lemma StudentDashboardRoute()
    ensures FirstMatch(Routes, ["student", "dashboard"]) ==
      Some(Route(["student", "dashboard"], Protected([Student]), Page("StudentDashboardPage")))
  {
    var path := ["student", "dashboard"];
    assert Matches(StudentRoutes[0].pattern, path);
    var q := FirstMatch(Routes, path).value;
    StudentRequestMatchesStudentGroup(q, path);
    StudentLeafOfLengthTwo(Leaf(q.pattern, q.element), path);
    StudentDashboardLeaf(Leaf(q.pattern, q.element));
  }

  /** The student and admin groups all sit under their own first segment. */
  lemma GroupPrefixes(q: Route)
    ensures q in StudentRoutes ==> StartsWith(q.pattern, "student")
    ensures q in ManagementRoutes || q in SuperAdminRoutes ==> StartsWith(q.pattern, "admin")
  {
  }

  lemma DashboardLeaf(l: Leaf)
    requires l in PublicLeaves && Matches(l.pattern, ["dashboard"])
    ensures l == Leaf(["dashboard"], DashboardRedirect)
  {
    assert |l.pattern| == 1;
    assert Literal(l.pattern);
    LiteralMatchesItself(l.pattern, ["dashboard"]);
  }

  /** `/dashboard` is served by the root redirect. */
  lemma DashboardRoute()
    ensures FirstMatch(Routes, ["dashboard"]) == Some(Route(["dashboard"], Public, DashboardRedirect))
  {
    var path := ["dashboard"];
    assert Matches(PublicRoutes[9].pattern, path);
    var q := FirstMatch(Routes, path).value;
    FirstSegmentLiteral(q, path);
    GroupPrefixes(q);
    assert q in PublicRoutes;
    DashboardLeaf(Leaf(q.pattern, q.element));
  }

  /**
   * The boot scenario, first half: while a stored session is being
   * restored, the student dashboard shows the spinner.
   */
  lemma BootShowsSpinner(storage: Storage)
    ensures Navigate(Initial(storage), ["student", "dashboard"]) == Loading
  {
    var path := ["student", "dashboard"];
    StudentDashboardRoute();
    NavigateThroughGuard(Initial(storage), path, Route(path, Protected([Student]), Page("StudentDashboardPage")));
  }

  /**
   * The boot scenario, second half: once a valid stored student session is
   * restored, the student dashboard renders and `/dashboard` leads there.
   */
  lemma BootedStudentSeesDashboard(storage: Storage, parse: Parser)
    requires BothStored(storage)
    requires parse(storage[USER_INFO_KEY]).Some?
    requires HasRole(parse(storage[USER_INFO_KEY]).value, Student)
    ensures Navigate(Restored(Initial(storage), parse), ["student", "dashboard"]) == Rendered("StudentDashboardPage")
    ensures Navigate(Restored(Initial(storage), parse), ["dashboard"]) == Redirected("/student/dashboard")
  {
    var s := Restored(Initial(storage), parse);
    RestoreAuthenticates(storage, parse);
    StudentSeesDashboard(s);
    DashboardRoute();
  }

  /** A loaded student session renders the student dashboard. */
  lemma StudentSeesDashboard(s: Session)
    requires !s.isLoading && IsAuthenticated(s) && Role(s) == Some(Student.Tag())
    ensures Navigate(s, ["student", "dashboard"]) == Rendered("StudentDashboardPage")
  {
    var path := ["student", "dashboard"];
    StudentDashboardRoute();
    RoleDecision(s, Some([Student]), Student);
    NavigateThroughGuard(s, path, Route(path, Protected([Student]), Page("StudentDashboardPage")));
  }
}
