# Academy portal front end: session, routing, timetable and admin forms

This project is a Dafny model of the logic inside the academy portal's React front end. The portal has public pages, a student area and an admin area. It covers:

- **The session store** (`components/AuthContext.tsx`). The provider holds `user`, `token` and `isLoading`, and persists two localStorage entries (`aab_jwt_token`, `aab_user_info`). Its four operations are restore on mount, login, register and logout. Each is a function on `Session` values, and the `AuthProvider` class performs it step by step on its fields.
- **The route guard** (`components/ProtectedRoute.tsx`) and the two landing-page resolvers (`RedirectToDashboard` in `App.tsx`, `getDashboardLink` in `components/Navbar.tsx`).
- **The route table** of `App.tsx`: the groups, their allowed roles and the fallback. It also covers what a request for a path ends up showing.
- **The weekly timetable** (`pages/public/TimetablePreviewPage.tsx`, `pages/admin/AdminTimetablePage.tsx`). This is the in-place sort by weekday and start time, the seven day buckets and the course-title lookup. It also covers both pages' fetch and render steps, and the admin page's add, edit and delete handlers.
- **The admin forms** for timetable entries and lectures: the reset/prefill effect and the submit payload.
- **The admin attendance sheet**: the student filter, the sheet rows, the per-row calls and the all-or-nothing result.

Modelling choices:

- A requested location is its list of path segments.
- localStorage is a `map<string, string>`.
- `JSON.parse` and `JSON.stringify` are function parameters. `parse` returns `None` where `JSON.parse` throws.
- Every call to the backend is either a function parameter or the response value it returns.
- A user's role is kept as the raw string, so roles outside the enum can be reasoned about.

Files (one module each): `wrappers.dfy`, `types.dfy`, `constants.dfy`, `auth_context.dfy`, `protected_route.dfy`, `app.dfy`, `navbar.dfy`, `admin_dashboard_page.dfy`, `string_order.dfy`, `timetable.dfy`, `timetable_preview_page.dfy`, `admin_timetable_page.dfy`, `admin_timetable_form.dfy`, `admin_lecture_form.dfy`, `admin_attendance_page.dfy`.

## Behaviour as coded

These points follow the code, even where a reader of its comments might expect something else:

- Restore clears storage only when the stored user fails to parse. A lone token or a lone user entry is left in place (`components/AuthContext.tsx:33`).
- Login and register set `isLoading` to true before the call, so a guard shows the spinner while they are in flight (`components/AuthContext.tsx:48`, `62`).
- The guard's role check needs a truthy `role`. An authenticated user whose role string is empty passes every guard. An empty `allowedRoles` array is truthy, so it is still checked (`components/ProtectedRoute.tsx:24`).
- For a role outside the enum, `getDashboardLink` falls back to `/` (`components/Navbar.tsx:23`), while `RedirectToDashboard` falls back to `/login` (`App.tsx:59`).
- On the admin timetable page both fetch failures set the error, and the course message is written second. When both fail, the course message is the one shown (`pages/admin/AdminTimetablePage.tsx:40-48`). The attendance page behaves the same way (`pages/admin/AdminAttendancePage.tsx:55-62`).

## Model

| member | source | states |
|---|---|---|
| Types.Tags | types.ts:3-7 | the role list compared by `includes` is the list of the enum's string values, position by position |
| Types.TagsDistinct | types.ts:3-7 | two roles have the same string value exactly when they are the same role |
| Types.OrDefault | pages/public/TimetablePreviewPage.tsx:31 | `message \|\| fallback` gives the message when it is non-empty and the fallback otherwise |
| AuthContext.GetItem | components/AuthContext.tsx:30-31 | `getItem` returns the stored string exactly when the key is present, and null otherwise |
| AuthContext.WithoutSession | components/AuthContext.tsx:40-41 | removing the two entries drops exactly those keys and keeps every other key and value |
| AuthContext.Initial | components/AuthContext.tsx:25-27 | the mount state has no user, no token and is loading, so it is not authenticated and has no role |
| AuthContext.Restored | components/AuthContext.tsx:29-45 | three cases: both entries present and non-empty and the user parses, so token and user come from storage; the user does not parse, so both entries are removed and user and token stay as they were; otherwise nothing changes. Loading ends in every branch |
| AuthContext.AfterExchange | components/AuthContext.tsx:47-59 | a response with `success` and `data` writes the token and the serialized user under the two keys and adopts both in memory; any other response leaves user, token and storage unchanged. Loading ends either way |
| AuthContext.LoggedOut | components/AuthContext.tsx:75-80 | both entries are removed, user and token are null, the result is neither authenticated nor has a role, and loading is untouched |
| AuthContext.IsAuthenticated | components/AuthContext.tsx:82 | `!!user && !!token`: a missing user, a missing token or an empty token is not authenticated; a user with a non-empty token is; an authenticated session has a role and a token |
| AuthContext.Role | components/AuthContext.tsx:83 | `user ? user.role : null`: a role is present exactly when a user is, and it is that user's role |
| AuthContext.AuthenticatedHasRole | components/AuthContext.tsx:82-83 | authenticated exactly when a user is present and the token non-empty; the role is the user's role, and there is no role without a user |
| AuthContext.RestoreEmptyStorage | components/AuthContext.tsx:30-44 | with neither key stored, restore ends logged out, not loading, with storage untouched |
| AuthContext.RestoreIdempotent | components/AuthContext.tsx:29-45 | restoring twice gives the same session as restoring once |
| AuthContext.RestoreAuthenticates | components/AuthContext.tsx:33-37 | from a stored session whose user parses, restore authenticates with that user's role and keeps storage |
| AuthContext.RestoreCorruptUser | components/AuthContext.tsx:38-42 | a stored user that fails to parse removes both keys and leaves the session logged out |
| AuthContext.RestoreLoneKeyKept | components/AuthContext.tsx:33 | with only one of the two keys stored, restore leaves storage exactly as it was and stays logged out |
| AuthContext.ExchangeThenReload | components/AuthContext.tsx:50-55 | after an accepted login or register with a non-empty token, a reload restores the same user and token and is authenticated, provided parse inverts stringify on that user |
| AuthContext.ExchangeEmptyTokenNotRestored | components/AuthContext.tsx:50-55 | an accepted response with an empty token is adopted but not authenticated, and a reload brings no user back |
| AuthContext.LogoutIdempotent | components/AuthContext.tsx:75-80 | logging out twice equals logging out once |
| AuthContext.LogoutThenReload | components/AuthContext.tsx:75-80 | after logout, a reload restores nobody, whatever the parser does |
| AuthContext.TransitionsKeepPaired | components/AuthContext.tsx:29-80 | if the two keys are present together or absent together, login/register, logout and restore each keep it that way |
| AuthContext.AuthProvider.constructor | components/AuthContext.tsx:25-27 | the mounted provider is in the initial state over the given storage |
| AuthContext.AuthProvider.Restore | components/AuthContext.tsx:29-45 | the mount effect, performed on the fields, ends in exactly the `Restored` session |
| AuthContext.AuthProvider.Accept | components/AuthContext.tsx:50-57 | the shared tail of login and register ends in the `AfterExchange` session |
| AuthContext.AuthProvider.Login | components/AuthContext.tsx:47-59 | the response is the service's answer, returned unchanged, and the new state is `AfterExchange` of the old state |
| AuthContext.AuthProvider.Register | components/AuthContext.tsx:61-73 | the same contract as login, over the registration call |
| AuthContext.AuthProvider.Logout | components/AuthContext.tsx:75-80 | the new state is `LoggedOut` of the old state |
| ProtectedRoute.RoleRejected | components/ProtectedRoute.tsx:24 | the role check rejects exactly when a role list is given, the role is non-empty, and no listed role has that role's string value |
| ProtectedRoute.Guard | components/ProtectedRoute.tsx:12-31 | the guard gives the spinner, a redirect to `/login`, a redirect to `/`, or the outlet, and nothing else |
| ProtectedRoute.LoadingSuspends | components/ProtectedRoute.tsx:15-17 | while loading, the spinner, whatever the session and roles |
| ProtectedRoute.UnauthenticatedToLogin | components/ProtectedRoute.tsx:19-22 | loaded but not authenticated redirects to `/login` |
| ProtectedRoute.RoleDecision | components/ProtectedRoute.tsx:24-31 | for an authenticated user with an enum role: redirect home exactly when roles are given and the user's role is not among them; the outlet exactly when roles are absent or include it |
| ProtectedRoute.OutletOnlyWhenAllowed | components/ProtectedRoute.tsx:24-31 | the outlet is rendered only when loaded and authenticated, with an allowed or empty role |
| ProtectedRoute.EmptyRolePasses | components/ProtectedRoute.tsx:24 | an authenticated user whose role string is empty passes every guard |
| ProtectedRoute.StaffRouteTable | components/ProtectedRoute.tsx:15-31 | the decision table for the staff group, checked in order: loading, then authentication, then role |
| ProtectedRoute.GuardAfterLogout | components/ProtectedRoute.tsx:19-22 | once loaded, every guard sends a logged-out session to `/login` |
| App.RedirectToDashboard | App.tsx:45-60 | spinner while loading; a student goes to `/student/dashboard`; staff and super admins go to `/admin/dashboard`; every other case goes to `/login` |
| App.Group | App.tsx:83-110 | each route of a group is the group's leaf carrying the group's access |
| App.SegmentMatches | App.tsx:72 | a `:name` segment matches exactly the non-empty segments; any other segment matches only itself; an empty request segment matches only an empty pattern segment |
| App.Matches | App.tsx:67-113 | a match has as many segments as the request, and only the empty pattern matches the root path |
| App.FirstMatch | App.tsx:67-113 | the route found is in the table and matches the request, and no route declared before it matches; no route is found exactly when none matches |
| App.Show | App.tsx:69-113 | a page element renders that page; a `Navigate` element redirects to its target; the root redirect shows the spinner while loading, and otherwise redirects wherever `RedirectToDashboard` sends it |
| App.Navigate | App.tsx:67-113 | an unmatched request is redirected to `/`; a matched public route shows its element (`App.NavigateThroughGuard` gives the protected case) |
| App.RouteLeaf | App.tsx:69-110 | every route of the table is a leaf of exactly the group it is declared in, with that group's access |
| App.LeafShapes | App.tsx:69-110 | public leaves sit under neither `/student` nor `/admin` and begin with a literal segment; student leaves sit under `/student`; admin leaves sit under `/admin`, have no `:name` segment, and only `/admin/users` and `/admin/settings` belong to the super-admin group |
| App.RouteRoleSets | App.tsx:83-110 | the student routes allow only students; `/admin/users` and `/admin/settings` allow only super admins; every other `/admin` route allows staff and super admins; there are eight management routes and no empty role list |
| App.FirstSegmentLiteral | App.tsx:69-110 | every route starts with a literal segment, so the first segment of a request picks the group |
| App.UnmatchedGoesHome | App.tsx:113 | a request that matches no route is redirected to `/` |
| App.StudentBouncedFromAdmin | App.tsx:95-110 | a loaded student requesting any `/admin` location is redirected to `/` |
| App.LiteralMatchesItself | App.tsx:95-110 | a pattern without `:name` segments matches only itself |
| App.AdminRequestMatchesAdminGroup | App.tsx:95-110 | a request under `/admin` can only match a route of the two admin groups, with exactly its own pattern |
| App.NavigateThroughGuard | App.tsx:83-110 | for a matched protected route, every guard outcome is what the request shows: the outlet shows the element, a redirect (to `/login` or to `/`) redirects to the same place, and the spinner shows the spinner |
| App.AdminPatternsDistinct | App.tsx:95-110 | no two admin routes share a pattern |
| App.AdminRouteOf | App.tsx:95-110 | an admin-group route with a leaf's pattern is that leaf's route, carrying that group's role list |
| App.ManagementRouteMatched | App.tsx:95-104 | a request for a management page is served by that page's route, which allows staff and super admins |
| App.SuperAdminRouteMatched | App.tsx:107-110 | a request for `/admin/users` or `/admin/settings` is served by that page's super-admin-only route |
| App.StaffBouncedFromSuperAdminRoutes | App.tsx:107-110 | a loaded staff member requesting `/admin/users` or `/admin/settings` is redirected to `/` |
| App.SuperAdminReachesSuperAdminRoutes | App.tsx:107-110 | a loaded super admin gets the page of `/admin/users` and of `/admin/settings` |
| App.AdminReachesManagementRoutes | App.tsx:95-104 | a loaded staff member or super admin gets the page of every management route |
| App.StudentRequestMatchesStudentGroup | App.tsx:83-92 | a request under `/student` can only match a student route, which allows only students |
| App.StudentLeafOfLengthTwo | App.tsx:83-92 | a two-segment request matches only the student leaf with exactly that pattern |
| App.StudentDashboardRoute | App.tsx:84 | `/student/dashboard` is served by the student dashboard route |
| App.DashboardRoute | App.tsx:80 | `/dashboard` is served by the root redirect |
| App.BootShowsSpinner | App.tsx:83-84 | before restore has run, the student dashboard shows the spinner |
| App.BootedStudentSeesDashboard | App.tsx:80-84 | after restoring a valid stored student session, the student dashboard renders, and `/dashboard` redirects there |
| App.StudentSeesDashboard | App.tsx:83-84 | a loaded, authenticated student gets the student dashboard page |
| Navbar.DashboardLink | components/Navbar.tsx:19-24 | `/login` without a user; `/student/dashboard` for a student; `/admin/dashboard` for staff and super admins; `/` for any other role |
| Navbar.LinkAgreesWithRootRedirect | components/Navbar.tsx:19-24 | for a loaded, authenticated user with an enum role, the navbar link and the root redirect agree |
| Navbar.UnrecognisedRoleDisagrees | components/Navbar.tsx:23 | for a role outside the enum, the link is `/` while the root redirect goes to `/login` |
| Navbar.HandleLogout | components/Navbar.tsx:14-17 | logout then navigation to `/login`: the session is logged out, unauthenticated and role-less, and every guard then redirects to `/login` |
| AdminDashboardPage.QuickActionLinksAsWritten | pages/admin/AdminDashboardPage.tsx:114-123 | the Settings link is always shown, and Manage Users exactly for a super admin |
| AdminDashboardPage.StaffSettingsLinkBounces | pages/admin/AdminDashboardPage.tsx:123 | a staff member is shown the Settings link, and following it redirects to `/` |
| AdminDashboardPage.QuickActionLinks | pages/admin/AdminDashboardPage.tsx:120-123 | with the fix, Settings and Manage Users are both shown exactly to a super admin |
| AdminDashboardPage.ManagementLeafOf | pages/admin/AdminDashboardPage.tsx:114-119 | every management quick link names a management route |
| AdminDashboardPage.QuickActionLinksReachable | pages/admin/AdminDashboardPage.tsx:114-123 | with the fix, every quick link shown to a staff member or super admin renders a page |
| StringOrder.Compare | pages/public/TimetablePreviewPage.tsx:64 | the start-time comparison gives -1, 0 or 1, and 0 exactly for equal strings |
| StringOrder.CompareAntisymmetric | pages/public/TimetablePreviewPage.tsx:64 | swapping the arguments negates the comparison |
| StringOrder.CompareTransitive | pages/public/TimetablePreviewPage.tsx:64 | being ordered no later is transitive |
| Timetable.DaysDistinct | pages/public/TimetablePreviewPage.tsx:10 | there are seven weekday names, pairwise distinct |
| Timetable.DayIndex | pages/public/TimetablePreviewPage.tsx:61-62 | `indexOf` gives the weekday's position, and -1 exactly for a day not in the list |
| Timetable.IndexFrom | pages/public/TimetablePreviewPage.tsx:61-62 | the search from a position finds the first occurrence at or after it, or -1 |
| Timetable.Comparator | pages/public/TimetablePreviewPage.tsx:60-65 | negative when the first entry's weekday index is lower, positive when higher; on the same index it is -1, 0 or 1, and 0 exactly for equal start times |
| Timetable.InOrderMeaning | pages/public/TimetablePreviewPage.tsx:60-65 | an entry may come before another exactly when its weekday is earlier, or the day is the same and its start time is no later |
| Timetable.InOrderTotal | pages/public/TimetablePreviewPage.tsx:60-65 | any two entries are ordered one way or the other |
| Timetable.InOrderTransitive | pages/public/TimetablePreviewPage.tsx:60-65 | the comparator's order is transitive |
| Timetable.ComparatorConsistent | pages/public/TimetablePreviewPage.tsx:60-65 | the comparator is total and transitive, as `sort` needs |
| Timetable.SortEntries | pages/public/TimetablePreviewPage.tsx:60-65 | after the in-place sort, every earlier entry is ordered no later than every later one, and the array holds the same multiset of entries |
| Timetable.SortBy | pages/public/TimetablePreviewPage.tsx:60 | sorting with a total, transitive comparator orders the array and permutes it |
| Timetable.SinkFrom | pages/public/TimetablePreviewPage.tsx:60 | moving one out-of-place entry to the front leaves the prefix sorted and the contents the same |
| Timetable.SwapDown | pages/public/TimetablePreviewPage.tsx:60 | one exchange moves the out-of-place entry one cell forward and keeps the contents |
| Timetable.SortedButSettled | pages/public/TimetablePreviewPage.tsx:60 | once the moving entry is in order with its front neighbour, the whole prefix is sorted |
| Timetable.Swap | pages/public/TimetablePreviewPage.tsx:60 | two cells are exchanged, the rest are unchanged, and the contents are the same multiset |
| Timetable.OfDay | pages/public/TimetablePreviewPage.tsx:69-73 | a bucket holds exactly the entries whose day is that day |
| Timetable.OfDayAppend | pages/public/TimetablePreviewPage.tsx:69-73 | pushing an entry adds it to its own day's bucket and to no other |
| Timetable.OfDaySorted | pages/public/TimetablePreviewPage.tsx:60-73 | a bucket taken from a sorted timetable is sorted |
| Timetable.SortedPrefix | pages/public/TimetablePreviewPage.tsx:60-73 | a prefix of a sorted timetable is sorted |
| Timetable.SameDayByStartTime | pages/public/TimetablePreviewPage.tsx:63-64 | within one day, sorted order is start-time order |
| Timetable.OnDays | pages/public/TimetablePreviewPage.tsx:69-73 | the entries with a day from the list are exactly those whose day is in the list |
| Timetable.OnDaysExtend | pages/public/TimetablePreviewPage.tsx:67-73 | adding a new day adds exactly that day's bucket size |
| Timetable.BucketsPartition | pages/public/TimetablePreviewPage.tsx:67-73 | over distinct days, the bucket sizes sum to the number of entries with one of those days |
| Timetable.OnDaysNone | pages/public/TimetablePreviewPage.tsx:69-73 | no entry has a day from an empty list |
| Timetable.GroupByDay | pages/public/TimetablePreviewPage.tsx:67-73 | the dictionary has exactly the seven weekday keys, and each holds that day's entries in timetable order; entries with an unknown day appear in no bucket |
| Timetable.Push | pages/public/TimetablePreviewPage.tsx:70-72 | a push extends only the bucket of the entry's day, and only if that bucket exists |
| Timetable.EmptyBuckets | pages/public/TimetablePreviewPage.tsx:67-68 | there is one empty bucket for each of the seven days, and no other key |
| Timetable.CourseTitle | pages/admin/AdminTimetablePage.tsx:53-56 | the title of the first course with that id, or `Unknown Course` when there is none |
| Timetable.OfDayCount | pages/public/TimetablePreviewPage.tsx:69-73 | a bucket holds each entry of its day as often as the timetable does, and nothing else |
| Timetable.OfDayPermutation | pages/public/TimetablePreviewPage.tsx:60-73 | reordering the timetable does not change what a bucket holds |
| Timetable.ScheduleBuckets | pages/public/TimetablePreviewPage.tsx:60-73 | after the sort, each weekday bucket holds exactly that day's fetched entries, ordered by start time; the buckets together hold every entry with a known day |
| Timetable.OnDaysCount | pages/public/TimetablePreviewPage.tsx:69-73 | the known-day entries keep each entry with a known day as often as the timetable does |
| TimetablePreviewPage.PreviewPage.constructor | pages/public/TimetablePreviewPage.tsx:13-16 | no entries or courses yet, loading, and no error |
| TimetablePreviewPage.PreviewPage.Fetch | pages/public/TimetablePreviewPage.tsx:18-45 | a timetable with data replaces the entries and clears the error, and a failed one sets `message \|\| 'Failed to fetch timetable.'`; a failed course fetch keeps the old courses; loading ends |
| TimetablePreviewPage.PreviewPage.Render | pages/public/TimetablePreviewPage.tsx:52-73 | spinner while loading; the error when there is one, leaving entries untouched; otherwise the array is sorted in place, permuted, and cut into the seven buckets |
| TimetablePreviewPage.RenderedSchedule | pages/public/TimetablePreviewPage.tsx:60-73 | each rendered day card lists exactly that day's fetched entries, earliest start first |
| AdminTimetablePage.AdminPage.constructor | pages/admin/AdminTimetablePage.tsx:16-23 | the initial page state |
| AdminTimetablePage.AdminPage.Fetch | pages/admin/AdminTimetablePage.tsx:29-51 | each response replaces its list when it carries data; the error is the course failure message if there is one, else the timetable failure message, else none; loading ends |
| AdminTimetablePage.AdminPage.OpenAddModal | pages/admin/AdminTimetablePage.tsx:58-61 | no entry is being edited and the modal is open |
| AdminTimetablePage.AdminPage.OpenEditModal | pages/admin/AdminTimetablePage.tsx:63-66 | the given entry is being edited and the modal is open |
| AdminTimetablePage.AdminPage.HandleFormSubmit | pages/admin/AdminTimetablePage.tsx:68-88 | updates the edited entry or creates one; on success the reply's message or the default `updated`/`added` text, the modal closed and a refetch; on failure the matching error, with the modal left as it was; loading ends |
| AdminTimetablePage.AdminPage.HandleDelete | pages/admin/AdminTimetablePage.tsx:90-103 | nothing happens without confirmation; otherwise one delete call, then the success message and a refetch, or the error |
| AdminTimetablePage.SuccessText | pages/admin/AdminTimetablePage.tsx:81 | the template gives `Timetable entry updated successfully.` for an update and `Timetable entry added successfully.` for a create |
| AdminTimetablePage.FailureText | pages/admin/AdminTimetablePage.tsx:85 | the template gives `Failed to update timetable entry.` for an update and `Failed to add timetable entry.` for a create |
| AdminTimetablePage.AdminPage.Render | pages/admin/AdminTimetablePage.tsx:105-122 | spinner only while loading with no entries or no courses; otherwise the state array is sorted in place, permuted and cut into the seven buckets, with message and error shown |
| AdminTimetableForm.Prefilled | pages/admin/AdminTimetableForm.tsx:22-34 | no entry resets to course `''`, Monday, `09:00`, `10:00`; an entry prefills course, day, start and end from it |
| AdminTimetableForm.Submission | pages/admin/AdminTimetableForm.tsx:36-48 | no payload exactly when no course (or course 0) is selected; otherwise the course id and the day, start and end verbatim |
| AdminTimetableForm.PrefillThenSubmit | pages/admin/AdminTimetableForm.tsx:23-47 | prefilling from an entry and submitting it unchanged gives back that entry's four fields; an entry with course id 0 cannot be submitted |
| AdminTimetableForm.ResetBlocksSubmit | pages/admin/AdminTimetableForm.tsx:28-41 | a reset form cannot be submitted, and its day is Monday, the first weekday |
| AdminTimetableForm.DayChoices | pages/admin/AdminTimetableForm.tsx:85-89 | the day select offers the seven weekdays, in the timetable's order |
| AdminTimetableForm.TimetableForm.constructor | pages/admin/AdminTimetableForm.tsx:17-20 | the initial fields are the reset values |
| AdminTimetableForm.TimetableForm.Prefill | pages/admin/AdminTimetableForm.tsx:22-34 | the effect leaves exactly the `Prefilled` fields |
| AdminTimetableForm.TimetableForm.HandleSubmit | pages/admin/AdminTimetableForm.tsx:36-48 | the payload handed to `onSubmit` is `Submission` of the current fields, and there is none exactly when no course is selected |
| AdminLectureForm.Optional | pages/admin/AdminLectureForm.tsx:49-51 | `text \|\| undefined` is undefined exactly for the empty string |
| AdminLectureForm.Prefilled | pages/admin/AdminLectureForm.tsx:22-38 | no lecture resets every field to empty and preview to false; a lecture prefills from its fields, with a missing or empty description or duration becoming `''` |
| AdminLectureForm.Submission | pages/admin/AdminLectureForm.tsx:40-54 | no payload exactly when no course is selected; course id, title, video URL and preview copied; a description or duration is sent as undefined exactly when it is empty, and otherwise as its text |
| AdminLectureForm.Normalised | pages/admin/AdminLectureForm.tsx:49-51 | a non-empty optional text is kept, and anything else becomes undefined |
| AdminLectureForm.PrefillThenSubmit | pages/admin/AdminLectureForm.tsx:22-54 | prefilling from a lecture and submitting it unchanged gives back its fields, with a missing or empty description or duration left undefined; course id 0 cannot be submitted |
| AdminLectureForm.ResetBlocksSubmit | pages/admin/AdminLectureForm.tsx:30-45 | a reset form cannot be submitted |
| AdminLectureForm.LectureForm.constructor | pages/admin/AdminLectureForm.tsx:15-20 | the initial fields are the reset values |
| AdminLectureForm.LectureForm.Prefill | pages/admin/AdminLectureForm.tsx:22-38 | the effect leaves exactly the `Prefilled` fields |
| AdminLectureForm.LectureForm.HandleSubmit | pages/admin/AdminLectureForm.tsx:40-54 | the payload handed to `onSubmit` is `Submission` of the current fields, and there is none exactly when no course is selected |
| AdminAttendancePage.StudentsOnly | pages/admin/AdminAttendancePage.tsx:54 | the student list keeps exactly the users whose role is `student` |
| AdminAttendancePage.StudentsOnlyCount | pages/admin/AdminAttendancePage.tsx:54 | the filter keeps each student as often as they occur, and nobody else |
| AdminAttendancePage.InitialRows | pages/admin/AdminAttendancePage.tsx:107-110 | one row per student, in student order, each PRESENT |
| AdminAttendancePage.WithStatus | pages/admin/AdminAttendancePage.tsx:120-127 | only rows with the given user id take the new status; length, order and every other row are unchanged |
| AdminAttendancePage.UnknownStudentUnchanged | pages/admin/AdminAttendancePage.tsx:123-125 | an id on no row changes nothing |
| AdminAttendancePage.LastChoiceWins | pages/admin/AdminAttendancePage.tsx:120-127 | after two choices for the same student, the second one stays |
| AdminAttendancePage.ChoicesCommute | pages/admin/AdminAttendancePage.tsx:120-127 | choices for two different students can be made in either order |
| AdminAttendancePage.AnyFailed | pages/admin/AdminAttendancePage.tsx:152-155 | some result failed exactly when not every result succeeded; an empty batch has no failure |
| AdminAttendancePage.MarkRequests | pages/admin/AdminAttendancePage.tsx:143-150 | one request per row, carrying that row's user id and status plus the sheet's course and date |
| AdminAttendancePage.MarkedSheetRequests | pages/admin/AdminAttendancePage.tsx:107-150 | a sheet opened for the students and changed for one student requests one call per student: that status for that student, PRESENT for the rest |
| AdminAttendancePage.AttendancePage.constructor | pages/admin/AdminAttendancePage.tsx:14-33 | the initial page state, with today as the filter and sheet date |
| AdminAttendancePage.AttendancePage.FetchInitialData | pages/admin/AdminAttendancePage.tsx:45-64 | students become the filtered student list when they carry data; courses are replaced likewise; the course failure message wins over the student one; loading ends |
| AdminAttendancePage.AttendancePage.OpenMarkAttendanceModal | pages/admin/AdminAttendancePage.tsx:101-118 | without a course filter or date, only the error is set; otherwise the sheet is the parsed course, the filter date and one PRESENT row per student, and the modal opens |
| AdminAttendancePage.AttendancePage.HandleAttendanceFormChange | pages/admin/AdminAttendancePage.tsx:120-127 | only the sheet rows of that user change status |
| AdminAttendancePage.AttendancePage.HandleMarkAttendanceSubmit | pages/admin/AdminAttendancePage.tsx:129-163 | without course or date, an error and no calls; otherwise exactly one call per row. Any failure leaves an error and the modal as it was; full success sets the message, closes the modal and refetches; loading ends |

## Left out

- Rendering, styling, modals as components, alerts, `window.confirm` and `alert`. A confirmation is a boolean parameter, and an alert is the absence of a payload.
- The HTTP services and the backend. Each call is a function parameter, or the response value it returns.
- `JSON.parse` and `JSON.stringify` internals; `parse` is an abstract option-returning function.
- JSON that parses to `null` or to a non-user value. The model treats every successful parse as a user record.
- Async scheduling, `Promise.all` and React re-render batching. Every handler is one atomic step, and in-flight races such as a logout during a login are not modelled.
- A refetch triggered by a handler is a returned flag. The refetch's own run is the separate `Fetch` method. The attendance page's record fetch (`fetchAttendanceRecords`) and its filter effect are not modelled beyond that flag.
- Locale rules of `localeCompare`: start times are compared as plain strings, character by character.
- `useAuth` outside a provider throws. This is framework misuse.
- Case-insensitive matching and trailing slashes in React Router. A path is matched segment by segment, exactly.
- Single-field form setters and the attendance filters' inputs. These are plain assignments.
- The dashboard statistics, which use randomness and floating point, and the student, public, settings and users pages.
- The "No timetable entries" and "No classes scheduled" texts: the model yields empty buckets instead.
- `getCourseTitle` on the preview page falls back to the same text as the admin page. It is modelled once, as `Timetable.CourseTitle`.
- App.FirstMatch: React Router ranks all matching routes by specificity; the model takes the first match in declaration order. The two agree for this table because no two of its patterns match the same path (the `:id` and `:courseId` routes have lengths and literal segments no other route shares), but that disjointness is not stated as a lemma.
- Timetable.SortEntries: does not state stability (entries that compare equal keep their order), which `Array.prototype.sort` also guarantees. The model proves ordering and permutation only.
- Timetable.GroupByDay: a day named like an `Object.prototype` member (for example `constructor`) would reach the guard at `pages/public/TimetablePreviewPage.tsx:70` as a truthy function and make `push` throw. The model treats the dictionary as holding only the seven weekday keys.
- AuthContext.AuthProvider.Login: the intermediate state while the call is pending (loading set, user unchanged) is not stated. Only the final state is stated. AuthContext.AuthProvider.Register is the same.

## Findings

| source | as written | input that shows it | evidently intended | confidence | as-written member | corrected member |
|---|---|---|---|---|---|---|
| pages/admin/AdminDashboardPage.tsx:123 | the Settings quick link is rendered for every admin, but `/admin/settings` is guarded for super admins only (`App.tsx:107-109`) | a loaded staff user opens the admin dashboard and follows "Settings"; the guard redirects them to `/` | gate Settings like Manage Users, so every quick link shown to staff leads to a page | medium, not executed | AdminDashboardPage.StaffSettingsLinkBounces | AdminDashboardPage.QuickActionLinksReachable |
