/** The page guard that runs before the role dashboards: it sends visitors
    without a session to the login page and users of the wrong role to
    their own dashboard. */
module RouteGuard {
  import opened Domain

  datatype ProtectedRoute = ProtectedRoute(path: string, role: Role)

  const ProtectedRoutes: seq<ProtectedRoute> := [
    ProtectedRoute("/manager/dashboard", MANAGER),
    ProtectedRoute("/staff/shifts", STAFF),
    ProtectedRoute("/admin", ADMIN)
  ]

  /** The exact paths the guard is registered for. */
  const Matcher: seq<string> := ["/manager/dashboard", "/staff/shifts", "/admin"]

  datatype Decision = Next | Redirect(to: string)

  predicate StartsWith(s: string, prefix: string)
  {
    |prefix| <= |s| && s[..|prefix|] == prefix
  }

  /** Some protected prefix starts `path`. */
  predicate IsProtected(path: string)
  {
    exists k :: 0 <= k < |ProtectedRoutes| && StartsWith(path, ProtectedRoutes[k].path)
  }

  /** Some protected prefix of `path` belongs to a role other than the
      claimed one (an unrecognised role differs from all three). */
  predicate Mismatched(path: string, claimed: ClaimedRole)
  {
    exists k :: 0 <= k < |ProtectedRoutes| && StartsWith(path, ProtectedRoutes[k].path)
                && claimed != Claims(ProtectedRoutes[k].role)
  }

  /** The dashboard of the claimed role; anything but ADMIN and MANAGER is
      sent to the staff page. */
  function HomeOf(claimed: ClaimedRole): (home: string)
    ensures claimed == Claims(ADMIN) ==> home == "/admin"
    ensures claimed == Claims(MANAGER) ==> home == "/manager/dashboard"
    ensures claimed != Claims(ADMIN) && claimed != Claims(MANAGER) ==> home == "/staff/shifts"
  {
    if claimed == Claims(ADMIN) then "/admin"
    else if claimed == Claims(MANAGER) then "/manager/dashboard"
    else "/staff/shifts"
  }

  /** The `for ... of` over the protected routes: the first route whose
      prefix matches and whose role differs ends the loop with a redirect. */
  function CheckRoutes(routes: seq<ProtectedRoute>, path: string, claimed: ClaimedRole): (d: Decision)
    ensures d == Next <==>
              forall k :: 0 <= k < |routes| && StartsWith(path, routes[k].path) ==> claimed == Claims(routes[k].role)
    ensures d.Redirect? ==> d.to == HomeOf(claimed)
  {
    if |routes| == 0 then Next
    else if StartsWith(path, routes[0].path) && claimed != Claims(routes[0].role) then Redirect(HomeOf(claimed))
    else
      var rest := CheckRoutes(routes[1..], path, claimed);
      assert forall k :: 1 <= k < |routes| ==> routes[k] == routes[1..][k - 1];
      rest
  }

  /** The guard's decision for a request to `path` with `session`. */
  function Middleware(path: string, session: Session): (d: Decision)
    ensures session.NoSession? ==> (d == Redirect("/login") <==> IsProtected(path)) && (d == Next <==> !IsProtected(path))
    ensures session.InvalidSession? ==> d == Redirect("/login")
    ensures session.LoggedIn? ==> (d == Next <==> !Mismatched(path, session.claimed))
    ensures session.LoggedIn? && d.Redirect? ==> d.to == HomeOf(session.claimed)
  {
    match session
    case NoSession => if IsProtected(path) then Redirect("/login") else Next
    case InvalidSession => Redirect("/login")
    case LoggedIn(_, claimed) => CheckRoutes(ProtectedRoutes, path, claimed)
  }

  /** Only the registered paths reach the guard; every other request goes
      through untouched. */
  function Route(path: string, session: Session): (d: Decision)
    ensures path !in Matcher ==> d == Next
    ensures path in Matcher ==> d == Middleware(path, session)
  {
    if path in Matcher then Middleware(path, session) else Next
  }

  /** Which protected prefixes each dashboard path starts with. */
  lemma DashboardPrefixes()
    ensures StartsWith("/admin", "/admin")
    ensures !StartsWith("/admin", "/manager/dashboard") && !StartsWith("/admin", "/staff/shifts")
    ensures StartsWith("/manager/dashboard", "/manager/dashboard")
    ensures !StartsWith("/manager/dashboard", "/admin") && !StartsWith("/manager/dashboard", "/staff/shifts")
    ensures StartsWith("/staff/shifts", "/staff/shifts")
    ensures !StartsWith("/staff/shifts", "/admin") && !StartsWith("/staff/shifts", "/manager/dashboard")
  {
    assert "/admin"[1] == 'a' && "/manager/dashboard"[1] == 'm' && "/staff/shifts"[1] == 's';
  }

  /** For the three known roles, the page a redirect sends the user to is
      let through, so the guard never redirects in a loop. */
  lemma RedirectTargetPasses(path: string, session: Session)
    requires session.LoggedIn? && session.claimed.Claims?
    requires Middleware(path, session).Redirect?
    ensures Middleware(Middleware(path, session).to, session) == Next
  {
    DashboardPrefixes();
    var home := HomeOf(session.claimed);
    forall k | 0 <= k < |ProtectedRoutes| && StartsWith(home, ProtectedRoutes[k].path)
      ensures session.claimed == Claims(ProtectedRoutes[k].role)
    {
      match session.claimed.role
      case ADMIN => assert home == "/admin";
      case MANAGER => assert home == "/manager/dashboard";
      case STAFF => assert home == "/staff/shifts";
    }
  }

  /** A role the application does not know is sent to the staff page and
      redirected from there again. */
  lemma UnknownRoleRedirectedAgain(actorId: int)
    ensures Middleware("/staff/shifts", LoggedIn(actorId, Unrecognised)) == Redirect("/staff/shifts")
  {
    DashboardPrefixes();
    assert StartsWith("/staff/shifts", ProtectedRoutes[1].path);
  }

  /** Prefix matching: a path that only begins with "/admin" is guarded as
      the admin dashboard. */
  lemma AdminPrefixCoversLongerPaths(path: string, actorId: int)
    requires StartsWith(path, "/admin")
    ensures Middleware(path, NoSession) == Redirect("/login")
    ensures Middleware(path, LoggedIn(actorId, Claims(STAFF))) == Redirect("/staff/shifts")
    ensures Middleware(path, LoggedIn(actorId, Claims(MANAGER))) == Redirect("/manager/dashboard")
  {
    assert StartsWith(path, ProtectedRoutes[2].path);
  }

  lemma AdministratorIsGuardedAsAdmin(actorId: int)
    ensures Middleware("/administrator", LoggedIn(actorId, Claims(STAFF))) == Redirect("/staff/shifts")
    ensures Route("/administrator", LoggedIn(actorId, Claims(STAFF))) == Next
  {
    assert StartsWith("/administrator", "/admin") by {
      assert "/administrator"[..6] == "/admin";
    }
    AdminPrefixCoversLongerPaths("/administrator", actorId);
  }
}
