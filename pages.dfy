/**
 * The redirect and render decisions of three pages: the dashboard entry that
 * sends each role to its own area, the administrator's page, and the `src`
 * home page that needs a session and a `users` row.
 */
module Pages {
  import opened Common
  import opened LibSchema
  import LibAuth
  import SrcSchema
  import Middleware

  // ----- app/dashboard/page.tsx -----

  /** The area the dashboard entry sends a role to; an unknown role goes to the shipper's. */
  function RoleHome(role: string): (path: string)
    ensures role in UserRoles ==> path == "/dashboard/" + role
    ensures role !in UserRoles ==> path == "/dashboard/shipper"
  {
    if role == "shipper" then "/dashboard/shipper"
    else if role == "carrier" then "/dashboard/carrier"
    else if role == "admin" then "/dashboard/admin"
    else "/dashboard/shipper"
  }

  /** The navigation of the entry page: none while loading or without both user and profile. */
  function DashboardRedirect(loading: bool, user: Option<string>, profile: Option<Profile>): (target: Option<string>)
    ensures target.None? <==> loading || user.None? || profile.None?
    ensures target.Some? ==> target.value == RoleHome(profile.value.role)
  {
    if !loading && user.Some? && profile.Some? then Some(RoleHome(profile.value.role)) else None
  }

  datatype EntryView = LoadingSpinner | RedirectingSpinner

  /** The entry page shows "Загрузка..." while loading and "Перенаправление..." otherwise. */
  function DashboardView(loading: bool): (v: EntryView)
    ensures v == LoadingSpinner <==> loading
  {
    if loading then LoadingSpinner else RedirectingSpinner
  }

  /** Each known role lands in an area the middleware lets that role enter. */
  lemma RoleHomeAdmitted(userId: string, role: string)
    requires role in UserRoles
    ensures Middleware.Guard(Some(Middleware.Session(userId, Some(role))), RoleHome(role)) == Middleware.Pass
  {
    Middleware.OwnAreaAdmitted(userId, role, "");
    assert "/dashboard/" + role + "" == RoleHome(role);
  }

  /**
   * When the middleware found no profile but the page did, the page sends the
   * user to a role area and the middleware sends it back to the entry page,
   * which sends it on again.
   */
  lemma NoServerRoleBouncesBack(userId: string, profile: Profile)
    ensures var target := RoleHome(profile.role);
            && Middleware.Guard(Some(Middleware.Session(userId, None)), target) ==
                 Middleware.Redirect(Middleware.DashboardPath, None)
            && DashboardRedirect(false, Some(userId), Some(profile)) == Some(target)
  {
    var area := if profile.role in UserRoles then "/dashboard/" + profile.role else "/dashboard/shipper";
    Middleware.NoProfileNoRole(userId, "");
    assert RoleHome(profile.role) == area;
    if profile.role in UserRoles {
      assert area == "/dashboard/" + profile.role + "";
    } else {
      assert area == "/dashboard/shipper" + "";
    }
  }

  // ----- app/dashboard/admin/page.tsx -----

  /** `profile?.role === 'admin'`. */
  predicate IsAdmin(profile: Option<Profile>) {
    profile.Some? && profile.value.role == "admin"
  }

  /** The administrator page sends away, once loaded, anyone who is not a signed-in administrator. */
  function AdminRedirect(loading: bool, user: Option<string>, profile: Option<Profile>): (target: Option<string>)
    ensures target.Some? <==> !loading && (user.None? || !IsAdmin(profile))
    ensures target.Some? ==> target.value == "/dashboard"
  {
    if !loading && (user.None? || !IsAdmin(profile)) then Some("/dashboard") else None
  }

  datatype AdminView = AdminLoading | NothingRendered | AdminPanel(greeting: string)

  /** What the administrator page renders; the header shows the full name, else the email. */
  function AdminViewOf(loading: bool, user: Option<string>, profile: Option<Profile>): (v: AdminView)
    ensures v == AdminLoading <==> loading
    ensures v.AdminPanel? ==> IsAdmin(profile) && user.Some?
    ensures v.AdminPanel? && profile.value.fullName.Some? && profile.value.fullName.value != "" ==>
              v.greeting == profile.value.fullName.value
    ensures v.AdminPanel? && (profile.value.fullName.None? || profile.value.fullName.value == "") ==>
              v.greeting == profile.value.email
  {
    if loading then AdminLoading
    else if user.None? || !IsAdmin(profile) then NothingRendered
    else
      var name := profile.value.fullName;
      AdminPanel(if name.Some? && name.value != "" then name.value else profile.value.email)
  }

  /** Nothing is rendered exactly when the page navigates away. */
  lemma AdminRenderMatchesRedirect(loading: bool, user: Option<string>, profile: Option<Profile>)
    ensures AdminViewOf(loading, user, profile) == NothingRendered <==> AdminRedirect(loading, user, profile).Some?
  {
  }

  /** `handleSignOut`: back to the start page only when the sign-out succeeded. */
  function AfterSignOut(result: LibAuth.AuthResult): (target: Option<string>)
    ensures target.Some? <==> result == LibAuth.AuthOk
    ensures target.Some? ==> target.value == "/"
  {
    if result.AuthOk? then Some("/") else None
  }

  // ----- src/app/page.tsx -----

  datatype Home = RedirectTo(path: string) | ExecutorDashboard(user: SrcSchema.User)

  /**
   * The home page: sign in first, then complete the profile. `lookupOk` is
   * false when the `users` query reports an error.
   */
  function HomePage(sessionUser: Option<string>, users: map<string, SrcSchema.User>, lookupOk: bool): (h: Home)
    ensures sessionUser.None? ==> h == RedirectTo("/auth")
    ensures sessionUser.Some? && (!lookupOk || sessionUser.value !in users) ==> h == RedirectTo("/onboarding")
    ensures h.ExecutorDashboard? <==> sessionUser.Some? && lookupOk && sessionUser.value in users
    ensures h.ExecutorDashboard? ==> h.user == users[sessionUser.value]
  {
    if sessionUser.None? then RedirectTo("/auth")
    else if !lookupOk || sessionUser.value !in users then RedirectTo("/onboarding")
    else ExecutorDashboard(users[sessionUser.value])
  }

  /** With rows keyed by their ids, the dashboard is always given the session's own row. */
  lemma HomeShowsOwnRow(sessionUser: Option<string>, users: map<string, SrcSchema.User>, lookupOk: bool)
    requires forall k :: k in users ==> users[k].id == k
    requires HomePage(sessionUser, users, lookupOk).ExecutorDashboard?
    ensures HomePage(sessionUser, users, lookupOk).user.id == sessionUser.value
  {
  }
}
