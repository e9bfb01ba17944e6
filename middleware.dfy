/**
 * The request middleware: a session built from the two auth cookies, and the
 * redirect decision for protected, role-specific and authentication routes.
 * Route matching is plain string prefix.
 */
module Middleware {
  import opened Common

  /** The session the middleware derives: the user, and the profile's role when a profile row was found. */
  datatype Session = Session(userId: string, role: Option<string>)

  /** The reply of `auth.getUser(accessToken)`. */
  datatype UserReply = UserOk(userId: string) | UserMissing | UserThrew

  /** The reply of the profile lookup: the row's role, no row, or an exception. */
  datatype ProfileReply = ProfileRow(role: string) | ProfileMissing | ProfileThrew

  const ProtectedRoutes: seq<string> := ["/dashboard"]
  const AdminRoutes: seq<string> := ["/dashboard/admin"]
  const ShipperRoutes: seq<string> := ["/dashboard/shipper"]
  const CarrierRoutes: seq<string> := ["/dashboard/carrier"]
  const AuthRoutes: seq<string> := ["/auth/signin", "/auth/signup", "/auth/forgot-password", "/auth/reset-password"]

  const SignInPath := "/auth/signin"
  const DashboardPath := "/dashboard"

  /**
   * The session as the middleware builds it. The backend replies are
   * parameters; the profile lookup is made only after the user was found.
   */
  method BuildSession(accessToken: Option<string>, refreshToken: Option<string>, user: UserReply, profile: ProfileReply)
    returns (session: Option<Session>)
    ensures !(Filled(accessToken) && Filled(refreshToken)) ==> session == None
    ensures Filled(accessToken) && Filled(refreshToken) ==>
              session == if user.UserOk? then
                           Some(Session(user.userId, if profile.ProfileRow? then Some(profile.role) else None))
                         else None
  {
    session := None;
    if Filled(accessToken) && Filled(refreshToken) {
      // try { ... } catch: an exception leaves whatever was assigned so far.
      if user.UserOk? {
        session := Some(Session(user.userId, None));
        if profile.ProfileRow? {
          session := Some(session.value.(role := Some(profile.role)));
        }
      }
    }
  }

  /** What the middleware answers: pass the request on, or redirect. */
  datatype Decision = Pass | Redirect(path: string, redirectTo: Option<string>)

  /** Under a role area without the matching role. */
  predicate RoleBlocked(pathname: string, role: Option<string>) {
    || (StartsWith(pathname, "/dashboard/admin") && role != Some("admin"))
    || (StartsWith(pathname, "/dashboard/shipper") && role != Some("shipper"))
    || (StartsWith(pathname, "/dashboard/carrier") && role != Some("carrier"))
  }

  /** The rules of the middleware, in their order. */
  function Guard(session: Option<Session>, pathname: string): (d: Decision)
    ensures session.None? ==>
              d == if StartsWith(pathname, "/dashboard") then Redirect(SignInPath, Some(pathname)) else Pass
    ensures session.Some? && AnyPrefix(AuthRoutes, pathname) ==> d == Redirect(DashboardPath, None)
    ensures session.Some? && !AnyPrefix(AuthRoutes, pathname) ==>
              d == if StartsWith(pathname, "/dashboard") && RoleBlocked(pathname, session.value.role)
                   then Redirect(DashboardPath, None) else Pass
  {
    SingleRoute("/dashboard", pathname);
    SingleRoute("/dashboard/admin", pathname);
    SingleRoute("/dashboard/shipper", pathname);
    SingleRoute("/dashboard/carrier", pathname);
    if session.None? && AnyPrefix(ProtectedRoutes, pathname) then
      Redirect(SignInPath, Some(pathname))
    else if session.Some? && AnyPrefix(AuthRoutes, pathname) then
      Redirect(DashboardPath, None)
    else if session.Some? && AnyPrefix(ProtectedRoutes, pathname) then
      var role := session.value.role;
      if AnyPrefix(AdminRoutes, pathname) && role != Some("admin") then Redirect(DashboardPath, None)
      else if AnyPrefix(ShipperRoutes, pathname) && role != Some("shipper") then Redirect(DashboardPath, None)
      else if AnyPrefix(CarrierRoutes, pathname) && role != Some("carrier") then Redirect(DashboardPath, None)
      else Pass
    else Pass
  }

  lemma SingleRoute(r: string, pathname: string)
    ensures AnyPrefix([r], pathname) <==> StartsWith(pathname, r)
  {
    if StartsWith(pathname, r) {
      assert [r][0] == r;
    }
  }

  lemma AuthRoutesAvoidDashboard(pathname: string)
    requires AnyPrefix(AuthRoutes, pathname)
    ensures !StartsWith(pathname, "/dashboard")
  {
    var i :| 0 <= i < |AuthRoutes| && StartsWith(pathname, AuthRoutes[i]);
    assert pathname[1] == AuthRoutes[i][1];
  }

  /** Every redirect leads to a path the same session passes: the middleware never loops. */
  lemma NoRedirectLoop(session: Option<Session>, pathname: string)
    requires Guard(session, pathname).Redirect?
    ensures Guard(session, Guard(session, pathname).path) == Pass
  {
    var target := Guard(session, pathname).path;
    if session.None? {
      assert target == SignInPath;
      assert !StartsWith(target, "/dashboard") by {
        assert target[1] != "/dashboard"[1];
      }
    } else {
      assert target == DashboardPath;
      if AnyPrefix(AuthRoutes, target) {
        AuthRoutesAvoidDashboard(target);
        assert false;
      }
      assert !StartsWith(target, "/dashboard/admin") && !StartsWith(target, "/dashboard/shipper")
             && !StartsWith(target, "/dashboard/carrier");
    }
  }

  /** A session without a profile is sent back from every role area but admitted to the dashboard itself. */
  lemma NoProfileNoRole(userId: string, rest: string)
    ensures var s := Some(Session(userId, None));
            && Guard(s, "/dashboard/admin" + rest) == Redirect(DashboardPath, None)
            && Guard(s, "/dashboard/shipper" + rest) == Redirect(DashboardPath, None)
            && Guard(s, "/dashboard/carrier" + rest) == Redirect(DashboardPath, None)
            && Guard(s, DashboardPath) == Pass
  {
    var s := Some(Session(userId, None));
    forall area | area in ["/dashboard/admin", "/dashboard/shipper", "/dashboard/carrier"]
      ensures Guard(s, area + rest) == Redirect(DashboardPath, None)
    {
      var p := area + rest;
      assert StartsWith(p, area);
      assert StartsWith(p, "/dashboard") by {
        assert p[..10] == area[..10];
      }
      if AnyPrefix(AuthRoutes, p) {
        AuthRoutesAvoidDashboard(p);
      }
    }
    if AnyPrefix(AuthRoutes, DashboardPath) {
      AuthRoutesAvoidDashboard(DashboardPath);
    }
  }

  /** A role holder is admitted to its own area. */
  lemma OwnAreaAdmitted(userId: string, role: string, rest: string)
    requires role in {"admin", "shipper", "carrier"}
    ensures Guard(Some(Session(userId, Some(role))), "/dashboard/" + role + rest) == Pass
  {
    var p := "/dashboard/" + role + rest;
    assert StartsWith(p, "/dashboard") by {
      assert p[..10] == "/dashboard";
    }
    if AnyPrefix(AuthRoutes, p) {
      AuthRoutesAvoidDashboard(p);
    }
    assert !RoleBlocked(p, Some(role)) by {
      if role == "admin" {
        assert p[11] == 'a';
        assert !StartsWith(p, "/dashboard/shipper") && !StartsWith(p, "/dashboard/carrier");
        assert StartsWith(p, "/dashboard/admin") by {
          assert p[..16] == "/dashboard/admin";
        }
      } else if role == "shipper" {
        assert p[11] == 's';
        assert !StartsWith(p, "/dashboard/admin") && !StartsWith(p, "/dashboard/carrier");
      } else {
        assert p[11] == 'c';
        assert !StartsWith(p, "/dashboard/admin") && !StartsWith(p, "/dashboard/shipper");
      }
    }
  }

  /** Prefix matching makes any path that merely begins with "/dashboard" protected, "/dashboardX" included. */
  lemma PrefixMatchIsLoose()
    ensures Guard(None, "/dashboardX") == Redirect(SignInPath, Some("/dashboardX"))
  {
    assert StartsWith("/dashboardX", "/dashboard");
  }
}
