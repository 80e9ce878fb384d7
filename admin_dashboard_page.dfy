/**
 * The Quick Actions links of pages/admin/AdminDashboardPage.tsx
 * (lines 114-123), composed with the route table.  Links are written as
 * path segments.  The page shows "Manage Users" only to super admins but
 * "Settings" to everyone, although the settings route is super-admin only.
 */
module AdminDashboardPage {
  import opened Wrappers
  import opened Types
  import opened AuthContext
  import opened App

  const ManagementLinks: seq<seq<string>> := [
    ["admin", "students"], ["admin", "courses"], ["admin", "payments"],
    ["admin", "timetable"], ["admin", "attendance"], ["admin", "certificates"]
  ]

  function IsSuperAdmin(user: Option<User>): bool {
    user.Some? && HasRole(user.value, SuperAdmin)
  }

  /** The links as the page renders them: Settings for every admin. */
  function QuickActionLinksAsWritten(user: Option<User>): (links: seq<seq<string>>)
    ensures ["admin", "settings"] in links
    ensures ["admin", "users"] in links <==> IsSuperAdmin(user)
  {
    ManagementLinks + (if IsSuperAdmin(user) then [["admin", "users"]] else []) + [["admin", "settings"]]
  }

  /** A staff member following the Settings link is bounced to `/`. */
  lemma StaffSettingsLinkBounces(s: Session)
    requires !s.isLoading && IsAuthenticated(s) && Role(s) == Some(Staff.Tag())
    ensures ["admin", "settings"] in QuickActionLinksAsWritten(s.user)
    ensures Navigate(s, ["admin", "settings"]) == Redirected("/")
  {
    StaffBouncedFromSuperAdminRoutes(s, "settings");
  }

  /** The links with Settings gated the same way as Manage Users. */
  function QuickActionLinks(user: Option<User>): (links: seq<seq<string>>)
    ensures ["admin", "settings"] in links <==> IsSuperAdmin(user)
    ensures ["admin", "users"] in links <==> IsSuperAdmin(user)
  {
    ManagementLinks + (if IsSuperAdmin(user) then [["admin", "users"], ["admin", "settings"]] else [])
  }

  /** The management route each management link points at. */
  lemma ManagementLeafOf(link: seq<string>) returns (leaf: Leaf)
    requires link in ManagementLinks
    ensures leaf in ManagementLeaves && leaf.pattern == link
  {
    if link == ManagementLinks[0] { leaf := ManagementLeaves[1]; }
    else if link == ManagementLinks[1] { leaf := ManagementLeaves[2]; }
    else if link == ManagementLinks[2] { leaf := ManagementLeaves[6]; }
    else if link == ManagementLinks[3] { leaf := ManagementLeaves[4]; }
    else if link == ManagementLinks[4] { leaf := ManagementLeaves[5]; }
    else { leaf := ManagementLeaves[7]; }
  }

  /** Every gated link renders its page for the admin it is shown to. */
  lemma QuickActionLinksReachable(s: Session, r: UserRole, link: seq<string>)
    requires !s.isLoading && IsAuthenticated(s) && Role(s) == Some(r.Tag()) && (r == Staff || r == SuperAdmin)
    requires link in QuickActionLinks(s.user)
    ensures Navigate(s, link).Rendered?
  {
    if link in ManagementLinks {
      var leaf := ManagementLeafOf(link);
      AdminReachesManagementRoutes(s, leaf, r);
    } else {
      assert r == SuperAdmin;
      var leaf := if link == ["admin", "users"] then SuperAdminLeaves[0] else SuperAdminLeaves[1];
      SuperAdminReachesSuperAdminRoutes(s, leaf);
    }
  }
}
