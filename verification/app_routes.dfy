/**
 The route gate of the application: what `ProtectedRoute` and the index route
 show for a given session, as a pure decision.
 */
module AppRoutes {
  import opened Wrappers
  import opened AuthModel
  import Seqs

  /** What a route element renders: the login form, a redirect, the routed page, or the not-found page. */
  datatype View = LoginForm | Redirect(to: string) | Page | NotFound

  /** The home route of each role. */
  function RoleHome(role: Role): (path: string)
    ensures |path| > 1 && path[0] == '/'
  {
    match role
    case Admin => "/admin"
    case Junta => "/junta"
    case Owner => "/owner"
  }

  /** `ProtectedRoute`: administrators must also have a building selected. */
  function ProtectedRoute(user: Option<User>, building: Option<Building>, allowedRoles: seq<Role>): (v: View)
    ensures user.None? ==> v == LoginForm
    ensures user.Some? && user.value.role == Admin && building.None? ==> v == LoginForm
    ensures v == LoginForm <==> user.None? || (user.value.role == Admin && building.None?)
    ensures v != LoginForm ==> (v == Page <==> user.value.role in allowedRoles)
    ensures v != LoginForm ==> (v == Redirect(RoleHome(user.value.role)) <==> user.value.role !in allowedRoles)
  {
    match user
    case None => LoginForm
    case Some(u) =>
      if u.role == Admin && building.None? then LoginForm
      else if u.role !in allowedRoles then Redirect(RoleHome(u.role))
      else Page
  }

  /** The index route: the login form, or a redirect to the user's home. */
  function IndexRoute(user: Option<User>, building: Option<Building>): (v: View)
    ensures v == LoginForm || (user.Some? && v == Redirect(RoleHome(user.value.role)))
  {
    match user
    case None => LoginForm
    case Some(u) =>
      if u.role == Admin && building.None? then LoginForm
      else Redirect(RoleHome(u.role))
  }

  datatype Route = Route(path: string, allowedRoles: seq<Role>)

  const AdminRoutes: seq<Route> := [
    Route("/admin", [Admin]),
    Route("/admin/announcements", [Admin]),
    Route("/admin/communication", [Admin]),
    Route("/admin/buildings", [Admin])
  ]

  const OwnerRoutes: seq<Route> := [
    Route("/owner", [Owner]),
    Route("/owner/announcements", [Owner]),
    Route("/owner/communication", [Owner])
  ]

  const JuntaRoutes: seq<Route> := [
    Route("/junta", [Junta]),
    Route("/junta/announcements", [Junta]),
    Route("/junta/communication", [Junta])
  ]

  /** The protected routes of the routing table, in declaration order. */
  const ProtectedRoutes: seq<Route> := AdminRoutes + OwnerRoutes + JuntaRoutes

  /** The lookup predicate `route => route.path === path`. */
  function PathIs(path: string): Route -> bool
  {
    (route: Route) => route.path == path
  }

  /** The routing table lookup for `path`. */
  function FindRoute(path: string): (r: Option<Route>)
    ensures r.Some? ==> r.value in ProtectedRoutes && r.value.path == path
    ensures r.None? <==> forall route :: route in ProtectedRoutes ==> route.path != path
  {
    Seqs.Find(PathIs(path), ProtectedRoutes)
  }

  /** Routes a path: the index, a protected route, or the catch-all not-found page. */
  function Resolve(path: string, user: Option<User>, building: Option<Building>): (v: View)
    ensures path == "/" ==> v == IndexRoute(user, building)
    ensures path != "/" && FindRoute(path).Some? ==> v == ProtectedRoute(user, building, FindRoute(path).value.allowedRoles)
    ensures v == NotFound <==> path != "/" && forall route :: route in ProtectedRoutes ==> route.path != path
    ensures v == Page ==> path != "/" && user.Some? && exists route :: route in ProtectedRoutes && route.path == path && user.value.role in route.allowedRoles
  {
    if path == "/" then IndexRoute(user, building)
    else
      match FindRoute(path)
      case Some(route) => ProtectedRoute(user, building, route.allowedRoles)
      case None => NotFound
  }

  /** The route with path `path`, looked up group by group. */
  lemma FindRouteByGroup(path: string)
    ensures FindRoute(path) ==
      var p := PathIs(path);
      var inAdmin := Seqs.Find(p, AdminRoutes);
      var inOwner := Seqs.Find(p, OwnerRoutes);
      if inAdmin.Some? then inAdmin else if inOwner.Some? then inOwner else Seqs.Find(p, JuntaRoutes)
  {
    var p := PathIs(path);
    Seqs.FindAppend(p, AdminRoutes + OwnerRoutes, JuntaRoutes);
    Seqs.FindAppend(p, AdminRoutes, OwnerRoutes);
  }

  /** No administrator route is an owner or board path. */
  lemma NotAnAdminPath()
    ensures Seqs.Find(PathIs("/owner"), AdminRoutes) == None
    ensures Seqs.Find(PathIs("/junta"), AdminRoutes) == None
  {
    assert forall route :: route in AdminRoutes ==> route.path[1] == 'a';
  }

  /** No owner route is a board path. */
  lemma NotAnOwnerPath()
    ensures Seqs.Find(PathIs("/junta"), OwnerRoutes) == None
  {
    assert forall route :: route in OwnerRoutes ==> route.path[1] == 'o';
  }

  /** Each role's home is the first route of its group. */
  lemma HomesLeadTheirGroups()
    ensures Seqs.Find(PathIs("/admin"), AdminRoutes) == Some(Route("/admin", [Admin]))
    ensures Seqs.Find(PathIs("/owner"), OwnerRoutes) == Some(Route("/owner", [Owner]))
    ensures Seqs.Find(PathIs("/junta"), JuntaRoutes) == Some(Route("/junta", [Junta]))
  {
  }

  lemma AdminHomeRoute()
    ensures FindRoute("/admin") == Some(Route("/admin", [Admin]))
  {
    FindRouteByGroup("/admin");
    HomesLeadTheirGroups();
  }

  lemma OwnerHomeRoute()
    ensures FindRoute("/owner") == Some(Route("/owner", [Owner]))
  {
    FindRouteByGroup("/owner");
    NotAnAdminPath();
    HomesLeadTheirGroups();
  }

  lemma JuntaHomeRoute()
    ensures FindRoute("/junta") == Some(Route("/junta", [Junta]))
  {
    FindRouteByGroup("/junta");
    NotAnAdminPath();
    NotAnOwnerPath();
    HomesLeadTheirGroups();
  }

  /** Different roles have different homes. */
  lemma RoleHomeInjective(a: Role, b: Role)
    ensures RoleHome(a) == RoleHome(b) <==> a == b
  {
  }

  /** The home route of every role is a protected route that admits exactly that role. */
  lemma RoleHomeAdmitsRole(role: Role)
    ensures FindRoute(RoleHome(role)) == Some(Route(RoleHome(role), [role]))
  {
    match role
    case Admin => AdminHomeRoute();
    case Owner => OwnerHomeRoute();
    case Junta => JuntaHomeRoute();
  }

  /** Following a redirect of the gate always lands on a page: a second gating step renders. */
  lemma RedirectLandsOnPage(path: string, user: Option<User>, building: Option<Building>)
    requires Resolve(path, user, building).Redirect?
    ensures Resolve(Resolve(path, user, building).to, user, building) == Page
  {
    var u := user.value;
    assert Resolve(path, user, building).to == RoleHome(u.role);
    assert RoleHome(u.role) != "/";
    RoleHomeAdmitsRole(u.role);
    assert u.role in [u.role];
  }

  /** The index route decides like a protected route that admits no role. */
  lemma IndexIsGateWithNoRoles(user: Option<User>, building: Option<Building>)
    ensures IndexRoute(user, building) == ProtectedRoute(user, building, [])
  {
  }

  /** Users other than administrators are never gated on the building selection. */
  lemma OnlyAdminsNeedBuilding(u: User, b: Option<Building>, b': Option<Building>, allowedRoles: seq<Role>)
    requires u.role != Admin
    ensures ProtectedRoute(Some(u), b, allowedRoles) == ProtectedRoute(Some(u), b', allowedRoles)
    ensures IndexRoute(Some(u), b) == IndexRoute(Some(u), b')
  {
  }
}
