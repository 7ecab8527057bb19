/**
 * Role-based navigation of the SvelteKit frontend (src/lib/navigation/routes.ts):
 * the route table, the permission test on one route, the recursive filter
 * of the table, the public-path rule, route lookup and breadcrumbs.
 * Permissions and admin levels are the strings the frontend passes around.
 */
module NavRoutes {
  import opened Common

  datatype Route = Route(path: string, title: string, permissions: seq<string>, adminLevels: seq<string>,
                         icon: Option<string>, children: Children)

  /** `children?: RouteConfig[]`: absent, or a (possibly empty) list. */
  datatype Children = Absent | Present(routes: seq<Route>)

  datatype NavItem = NavItem(title: string, url: string, icon: Option<string>, permissions: seq<string>,
                             adminLevels: seq<string>, children: NavChildren)

  datatype NavChildren = NoItems | Items(items: seq<NavItem>)

  const AllAdmins: seq<string> := ["RegularAdmin", "FacultyAdmin", "SuperAdmin"]
  const OrganizationAdmins: seq<string> := ["FacultyAdmin", "SuperAdmin"]
  const SuperAdmins: seq<string> := ["SuperAdmin"]

  function Leaf(path: string, title: string, permissions: seq<string>, adminLevels: seq<string>, icon: string): Route {
    Route(path, title, permissions, adminLevels, Some(icon), Absent)
  }

  /** `ROUTES` */
  const Routes: seq<Route> := [
    Route("/", "หน้าแรก", [], [], None, Absent),
    Route("/login", "เข้าสู่ระบบ", [], [], None, Absent),
    Route("/register", "สมัครสมาชิก", [], [], None, Absent),
    Route("/unauthorized", "ไม่มีสิทธิ์เข้าถึง", [], [], None, Absent),
    Leaf("/dashboard", "แดชบอร์ด", ["ViewPersonalQR"], [], "dashboard"),
    Leaf("/qr", "QR Code ของฉัน", ["ViewPersonalQR"], [], "qr_code"),
    Leaf("/activities", "กิจกรรมของฉัน", ["ViewPersonalHistory"], [], "event"),
    Leaf("/profile", "โปรไฟล์", [], [], "person"),
    Leaf("/admin/scanner", "สแกน QR Code", ["ScanQRCodes"], AllAdmins, "qr_code_scanner"),
    Leaf("/admin/assigned-activities", "กิจกรรมที่รับผิดชอบ", ["ViewAssignedActivities"], AllAdmins, "assignment"),
    Leaf("/admin/sessions", "เซสชันของฉัน", ["ViewPersonalSessions"], AllAdmins, "devices"),
    Route("/admin/organization", "จัดการหน่วยงาน", ["ViewOrganizationUsers", "ManageOrganizationActivities"],
      OrganizationAdmins, Some("school"), Present([
        Leaf("/admin/organization/dashboard", "แดชบอร์ดหน่วยงาน", ["ViewOrganizationAnalytics"], OrganizationAdmins, "analytics"),
        Leaf("/admin/organization/students", "จัดการนักศึกษา", ["ViewOrganizationUsers", "CreateOrganizationUsers"],
          OrganizationAdmins, "group"),
        Leaf("/admin/organization/activities", "จัดการกิจกรรม", ["ManageOrganizationActivities"], OrganizationAdmins, "event"),
        Leaf("/admin/organization/reports", "รายงาน", ["ViewOrganizationAnalytics"], OrganizationAdmins, "assessment"),
        Leaf("/admin/organization/sessions", "จัดการเซสชัน", ["ViewOrganizationSessions", "ManageOrganizationSessions"],
          OrganizationAdmins, "security")])),
    Route("/admin/system", "จัดการระบบ", ["ViewSystemAnalytics"], SuperAdmins, Some("admin_panel_settings"), Present([
        Leaf("/admin/system/dashboard", "ภาพรวมระบบ", ["ViewSystemAnalytics"], SuperAdmins, "analytics"),
        Leaf("/admin/system/organizations", "จัดการหน่วยงาน", ["ViewAllOrganizations", "CreateOrganizations"],
          SuperAdmins, "account_balance"),
        Leaf("/admin/system/users", "จัดการผู้ใช้", ["ViewAllUsers", "CreateUsers"], SuperAdmins, "people"),
        Leaf("/admin/system/admins", "จัดการผู้ดูแลระบบ", ["ViewAllUsers", "CreateUsers"], SuperAdmins, "admin_panel_settings"),
        Leaf("/admin/system/sessions", "จัดการเซสชัน", ["ViewAllSessions", "ManageAllSessions"], SuperAdmins, "security"),
        Leaf("/admin/system/settings", "ตั้งค่าระบบ", ["ViewSystemAnalytics"], SuperAdmins, "settings")]))
  ]

  // ---------------------------------------------------------------------
  // Permission test and filtering

  /** The admin-level part of the test: no levels listed, or a truthy listed level. */
  predicate LevelAdmits(route: Route, adminLevel: Option<string>) {
    |route.adminLevels| == 0 || (Truthy(adminLevel) && adminLevel.value in route.adminLevels)
  }

  /** `hasRoutePermission` */
  function HasRoutePermission(route: Route, userPermissions: seq<string>, adminLevel: Option<string>): (ok: bool)
    ensures |route.adminLevels| > 0 && !Truthy(adminLevel) ==> !ok
    ensures |route.adminLevels| > 0 && adminLevel.Some? && adminLevel.value !in route.adminLevels ==> !ok
    ensures LevelAdmits(route, adminLevel) && |route.permissions| == 0 ==> ok
    ensures LevelAdmits(route, adminLevel) && |route.permissions| > 0 ==>
      (ok <==> exists p :: p in route.permissions && p in userPermissions)
  {
    if |route.adminLevels| > 0 && !Truthy(adminLevel) then false
    else if |route.adminLevels| > 0 && adminLevel.value !in route.adminLevels then false
    else if |route.permissions| == 0 then true
    else AnyHeld(route.permissions, userPermissions)
  }

  /** A route is kept by the filter only if it had no children or some child survives. */
  predicate NotEmptied(route: Route) {
    route.children.Absent? || |route.children.routes| > 0
  }

  /** The `.map` step of `filterRoutesByPermissions`: a route with its children filtered in turn. */
  function FilterOne(route: Route, userPermissions: seq<string>, adminLevel: Option<string>): (f: Route)
    ensures f == route.(children := f.children)
    ensures f.children.Present? <==> route.children.Present?
    decreases route, 1
  {
    route.(children :=
      if route.children.Present? then Present(FilterRoutes(route.children.routes, userPermissions, adminLevel))
      else Absent)
  }

  /**
   * `filterRoutesByPermissions`: exactly the permitted routes, each with its
   * children filtered, that are not left with an empty child list.
   */
  function FilterRoutes(routes: seq<Route>, userPermissions: seq<string>, adminLevel: Option<string>): (kept: seq<Route>)
    ensures |kept| <= |routes|
    ensures forall k :: 0 <= k < |kept| ==>
      HasRoutePermission(kept[k], userPermissions, adminLevel) && NotEmptied(kept[k])
    ensures forall r :: r in kept <==>
      exists r0 :: r0 in routes && HasRoutePermission(r0, userPermissions, adminLevel)
        && r == FilterOne(r0, userPermissions, adminLevel) && NotEmptied(r)
    decreases routes, 0
  {
    if |routes| == 0 then []
    else
      var route := routes[0];
      var rest := FilterRoutes(routes[1..], userPermissions, adminLevel);
      if !HasRoutePermission(route, userPermissions, adminLevel) then rest
      else
        var filtered := FilterOne(route, userPermissions, adminLevel);
        if NotEmptied(filtered) then [filtered] + rest else rest
  }

  /** Filtering already filtered routes changes nothing. */
  lemma {:induction false} FilterIdempotent(routes: seq<Route>, userPermissions: seq<string>, adminLevel: Option<string>)
    ensures FilterRoutes(FilterRoutes(routes, userPermissions, adminLevel), userPermissions, adminLevel)
         == FilterRoutes(routes, userPermissions, adminLevel)
    decreases routes
  {
    if |routes| > 0 {
      var route := routes[0];
      var rest := FilterRoutes(routes[1..], userPermissions, adminLevel);
      FilterIdempotent(routes[1..], userPermissions, adminLevel);
      if HasRoutePermission(route, userPermissions, adminLevel) {
        if route.children.Present? {
          FilterIdempotent(route.children.routes, userPermissions, adminLevel);
        }
        var filtered := FilterOne(route, userPermissions, adminLevel);
        if NotEmptied(filtered) {
          var once := [filtered] + rest;
          assert once[0] == filtered && once[1..] == rest;
        }
      }
    }
  }

  /** A route with its children's contents forgotten (their presence kept). */
  function Shell(route: Route): Route {
    route.(children := if route.children.Present? then Present([]) else Absent)
  }

  function Shells(routes: seq<Route>): (s: seq<Route>)
    ensures |s| == |routes| && forall k :: 0 <= k < |routes| ==> s[k] == Shell(routes[k])
  {
    seq(|routes|, k requires 0 <= k < |routes| => Shell(routes[k]))
  }

  /** The filter keeps routes in their order; it never invents or reorders them. */
  lemma {:induction false} FilterKeepsOrder(routes: seq<Route>, userPermissions: seq<string>, adminLevel: Option<string>)
    ensures IsSubsequence(Shells(FilterRoutes(routes, userPermissions, adminLevel)), Shells(routes))
    decreases routes
  {
    if |routes| > 0 {
      var route := routes[0];
      var rest := FilterRoutes(routes[1..], userPermissions, adminLevel);
      FilterKeepsOrder(routes[1..], userPermissions, adminLevel);
      ShellsTail(routes);
      var filtered := FilterOne(route, userPermissions, adminLevel);
      if HasRoutePermission(route, userPermissions, adminLevel) && NotEmptied(filtered) {
        ShellsTail([filtered] + rest);
        assert ([filtered] + rest)[1..] == rest;
      } else {
        SubsequenceOfTail(Shells(rest), Shells(routes));
      }
    }
  }

  lemma ShellsTail(routes: seq<Route>)
    requires |routes| > 0
    ensures Shells(routes)[0] == Shell(routes[0]) && Shells(routes)[1..] == Shells(routes[1..])
  {
    assert Shells(routes)[1..] == Shells(routes[1..]);
  }

  // ---------------------------------------------------------------------
  // Navigation items

  function ToNavItem(route: Route): NavItem
    decreases route
  {
    NavItem(route.title, route.path, route.icon, route.permissions, route.adminLevels,
      if route.children.Present? then Items(ToNavItems(route.children.routes)) else NoItems)
  }

  function ToNavItems(routes: seq<Route>): (items: seq<NavItem>)
    ensures |items| == |routes|
    ensures forall k :: 0 <= k < |routes| ==> items[k] == ToNavItem(routes[k]) && items[k].url == routes[k].path
    decreases routes
  {
    if |routes| == 0 then [] else [ToNavItem(routes[0])] + ToNavItems(routes[1..])
  }

  /** The items of a list of routes are exactly the conversions of its routes. */
  lemma ItemsOfRoutes(routes: seq<Route>)
    ensures forall item :: item in ToNavItems(routes) <==> exists r :: r in routes && item == ToNavItem(r)
  {
    var items := ToNavItems(routes);
    forall item | item in items
      ensures exists r :: r in routes && item == ToNavItem(r)
    {
      var k :| 0 <= k < |items| && items[k] == item;
      assert routes[k] in routes && item == ToNavItem(routes[k]);
    }
    forall r | r in routes
      ensures ToNavItem(r) in items
    {
      var k :| 0 <= k < |routes| && routes[k] == r;
      assert items[k] == ToNavItem(r);
    }
  }

  /** The paths `getNavigationItems` keeps out of the menu. */
  predicate MenuPath(path: string) {
    path != "/" && !Contains(path, "login") && !Contains(path, "register") && !Contains(path, "unauthorized")
  }

  /** The menu filter keeps each menu route as often as the table lists it. */
  lemma {:induction false} MenuKeepsCounts(routes: seq<Route>)
    ensures forall r :: multiset(MenuRoutes(routes))[r] == if MenuPath(r.path) then multiset(routes)[r] else 0
    decreases |routes|
  {
    if |routes| > 0 {
      MenuKeepsCounts(routes[1..]);
      assert routes == [routes[0]] + routes[1..];
    }
  }

  /** The `.filter` of `getNavigationItems`: exactly the menu routes, in their order. */
  function MenuRoutes(routes: seq<Route>): (menu: seq<Route>)
    ensures |menu| <= |routes|
    ensures forall r :: r in menu <==> r in routes && MenuPath(r.path)
    ensures IsSubsequence(menu, routes)
  {
    if |routes| == 0 then []
    else
      var rest := MenuRoutes(routes[1..]);
      if MenuPath(routes[0].path) then
        assert ([routes[0]] + rest)[1..] == rest;
        [routes[0]] + rest
      else
        SubsequenceOfTail(rest, routes);
        rest
  }

  /**
   * `getNavigationItems`: one item for each permitted top-level route (as the
   * filter leaves it) that is not home or an auth page, and no other item.
   */
  function GetNavigationItems(userPermissions: seq<string>, adminLevel: Option<string>): (items: seq<NavItem>)
    ensures forall k :: 0 <= k < |items| ==> MenuPath(items[k].url)
  {
    ToNavItems(MenuRoutes(FilterRoutes(Routes, userPermissions, adminLevel)))
  }

  /** `getNavigationItems` yields one item per permitted menu route and no other. */
  lemma NavigationItemsExactly(userPermissions: seq<string>, adminLevel: Option<string>)
    ensures forall item :: item in GetNavigationItems(userPermissions, adminLevel) <==>
      exists route :: route in FilterRoutes(Routes, userPermissions, adminLevel) && MenuPath(route.path)
        && item == ToNavItem(route)
  {
    FilteredMenuItems(Routes, userPermissions, adminLevel);
  }

  /** The menu items of any filtered table are the conversions of its permitted menu routes. */
  lemma FilteredMenuItems(routes: seq<Route>, userPermissions: seq<string>, adminLevel: Option<string>)
    ensures forall item :: item in ToNavItems(MenuRoutes(FilterRoutes(routes, userPermissions, adminLevel))) <==>
      exists route :: route in FilterRoutes(routes, userPermissions, adminLevel) && MenuPath(route.path)
        && item == ToNavItem(route)
  {
    MenuItemsOf(FilterRoutes(routes, userPermissions, adminLevel));
  }

  /** The items of the menu routes are the conversions of the routes with menu paths. */
  lemma MenuItemsOf(routes: seq<Route>)
    ensures forall item :: item in ToNavItems(MenuRoutes(routes)) <==>
      exists route :: route in routes && MenuPath(route.path) && item == ToNavItem(route)
  {
    var menu := MenuRoutes(routes);
    ItemsOfRoutes(menu);
    forall item | item in ToNavItems(menu)
      ensures exists route :: route in routes && MenuPath(route.path) && item == ToNavItem(route)
    {
      var r :| r in menu && item == ToNavItem(r);
      assert r in routes && MenuPath(r.path);
    }
    forall route | route in routes && MenuPath(route.path)
      ensures ToNavItem(route) in ToNavItems(menu)
    {
      assert route in menu;
    }
  }

  // ---------------------------------------------------------------------
  // Public paths

  const PublicPaths: seq<string> := ["/", "/login", "/register", "/unauthorized"]

  /** `isPublicRoute` (navigation version): exact paths, plus bare prefixes. */
  predicate IsPublicRoute(path: string) {
    path in PublicPaths || StartsWith(path, "/api") || StartsWith(path, "/_app") || StartsWith(path, "/favicon")
  }

  function RequiresAuthentication(path: string): (r: bool)
    ensures r <==> !IsPublicRoute(path)
  {
    !IsPublicRoute(path)
  }

  /** The prefixes here are plain text prefixes, so '/apix' counts as public; '/login/' does not. */
  lemma PublicRouteExamples()
    ensures IsPublicRoute("/api/x") && IsPublicRoute("/apix") && IsPublicRoute("/favicon.ico")
    ensures !IsPublicRoute("/login/") && !IsPublicRoute("/dashboard") && !IsPublicRoute("")
  {
    assert "/api/x"[..4] == "/api";
    assert "/apix"[..4] == "/api";
    assert "/favicon.ico"[..8] == "/favicon";
    assert "/login/" !in PublicPaths;
    DiffersAt("/login/", "/api", 1);
    DiffersAt("/login/", "/_app", 1);
    DiffersAt("/login/", "/favicon", 1);
    DiffersAt("/dashboard", "/api", 1);
    DiffersAt("/dashboard", "/_app", 1);
    DiffersAt("/dashboard", "/favicon", 1);
  }

  lemma DiffersAt(s: string, p: string, i: nat)
    requires i < |s| && i < |p| && s[i] != p[i]
    ensures !StartsWith(s, p)
  {
    if |p| <= |s| {
      assert s[..|p|][i] == s[i];
    }
  }

  // ---------------------------------------------------------------------
  // Route lookup

  /** `children.find(child => child.path === path)` */
  function FindWithPath(routes: seq<Route>, path: string): (found: Option<Route>)
    ensures found.Some? ==> found.value.path == path && found.value in routes
  {
    if |routes| == 0 then None
    else if routes[0].path == path then Some(routes[0])
    else FindWithPath(routes[1..], path)
  }

  /** `find` gives nothing exactly when no route has the path, and otherwise the first one that does. */
  lemma {:induction false} FindWithPathFirst(routes: seq<Route>, path: string)
    ensures FindWithPath(routes, path).None? <==> forall r :: r in routes ==> r.path != path
    ensures FindWithPath(routes, path).Some? ==>
      exists k :: 0 <= k < |routes| && routes[k] == FindWithPath(routes, path).value
        && (forall j :: 0 <= j < k ==> routes[j].path != path)
    decreases |routes|
  {
    if |routes| > 0 && routes[0].path != path {
      var tail := routes[1..];
      FindWithPathFirst(tail, path);
      assert forall r :: r in routes ==> r == routes[0] || r in tail;
      if FindWithPath(tail, path).Some? {
        var k :| 0 <= k < |tail| && tail[k] == FindWithPath(tail, path).value
          && (forall j :: 0 <= j < k ==> tail[j].path != path);
        assert routes[k + 1] == tail[k];
        assert forall j :: 0 <= j < k + 1 ==> routes[j].path != path by {
          forall j | 0 <= j < k + 1 ensures routes[j].path != path {
            if j > 0 { assert routes[j] == tail[j - 1]; }
          }
        }
      }
    }
  }

  /** The search order of `findRouteByPath`: each top-level route, then its direct children. */
  function Candidates(routes: seq<Route>): seq<Route> {
    if |routes| == 0 then []
    else [routes[0]] + (if routes[0].children.Present? then routes[0].children.routes else []) + Candidates(routes[1..])
  }

  /** The lookup the loop in `findRouteByPath` performs. */
  function FindRoute(routes: seq<Route>, path: string): (found: Option<Route>)
    ensures found.Some? ==> found.value.path == path
  {
    if |routes| == 0 then None
    else if routes[0].path == path then Some(routes[0])
    else if routes[0].children.Present? && FindWithPath(routes[0].children.routes, path).Some? then
      FindWithPath(routes[0].children.routes, path)
    else FindRoute(routes[1..], path)
  }

  lemma {:induction false} FindWithPathAppend(xs: seq<Route>, ys: seq<Route>, path: string)
    ensures FindWithPath(xs + ys, path)
         == if FindWithPath(xs, path).Some? then FindWithPath(xs, path) else FindWithPath(ys, path)
    decreases |xs|
  {
    if |xs| > 0 {
      assert (xs + ys)[1..] == xs[1..] + ys;
      FindWithPathAppend(xs[1..], ys, path);
    } else {
      assert xs + ys == ys;
    }
  }

  /** The lookup returns the first route with that path, in search order. */
  lemma {:induction false} FindRouteIsFirstCandidate(routes: seq<Route>, path: string)
    ensures FindRoute(routes, path) == FindWithPath(Candidates(routes), path)
    decreases |routes|
  {
    if |routes| > 0 {
      var r := routes[0];
      var kids := if r.children.Present? then r.children.routes else [];
      var tail := Candidates(routes[1..]);
      var all := Candidates(routes);
      FindRouteIsFirstCandidate(routes[1..], path);
      assert all == [r] + (kids + tail);
      assert all[0] == r && all[1..] == kids + tail;
      if r.path != path {
        assert FindWithPath(all, path) == FindWithPath(kids + tail, path);
        FindWithPathAppend(kids, tail, path);
        if !r.children.Present? {
          assert FindWithPath(kids, path) == None;
        }
      }
    }
  }

  /** `findRouteByPath` over `ROUTES`. */
  method FindRouteByPath(path: string) returns (found: Option<Route>)
    ensures found == FindRoute(Routes, path)
  {
    var i := 0;
    while i < |Routes|
      invariant 0 <= i <= |Routes|
      invariant FindRoute(Routes, path) == FindRoute(Routes[i..], path)
    {
      var route := Routes[i];
      assert Routes[i..][1..] == Routes[i + 1..];
      if route.path == path {
        return Some(route);
      }
      if route.children.Present? {
        var child := FindWithPath(route.children.routes, path);
        if child.Some? {
          return child;
        }
      }
      i := i + 1;
    }
    return None;
  }

  /** `getRequiredPermissions` */
  function GetRequiredPermissions(path: string): (ps: seq<string>)
    ensures FindRoute(Routes, path).None? ==> ps == []
    ensures FindRoute(Routes, path).Some? ==> ps == FindRoute(Routes, path).value.permissions
  {
    match FindRoute(Routes, path)
    case None => []
    case Some(route) => route.permissions
  }

  /** `getRequiredAdminLevels` */
  function GetRequiredAdminLevels(path: string): (ls: seq<string>)
    ensures FindRoute(Routes, path).None? ==> ls == []
    ensures FindRoute(Routes, path).Some? ==> ls == FindRoute(Routes, path).value.adminLevels
  {
    match FindRoute(Routes, path)
    case None => []
    case Some(route) => route.adminLevels
  }

  // ---------------------------------------------------------------------
  // Breadcrumbs

  /** `.filter(Boolean)` keeps each non-empty piece as often as it occurs. */
  lemma {:induction false} NonEmptyKeepsCounts(parts: seq<string>)
    ensures forall s :: multiset(NonEmpty(parts))[s] == if s != "" then multiset(parts)[s] else 0
    decreases |parts|
  {
    if |parts| > 0 {
      NonEmptyKeepsCounts(parts[1..]);
      assert parts == [parts[0]] + parts[1..];
    }
  }

  /** `.filter(Boolean)` on the pieces: exactly the non-empty ones, in their order. */
  function NonEmpty(parts: seq<string>): (r: seq<string>)
    ensures |r| <= |parts| && forall k :: 0 <= k < |r| ==> r[k] != ""
    ensures forall s :: s in r <==> s in parts && s != ""
    ensures IsSubsequence(r, parts)
  {
    if |parts| == 0 then []
    else
      var rest := NonEmpty(parts[1..]);
      if parts[0] != "" then
        assert ([parts[0]] + rest)[1..] == rest;
        [parts[0]] + rest
      else
        SubsequenceOfTail(rest, parts);
        rest
  }

  /** `path.split('/').filter(Boolean)` */
  function Segments(path: string): seq<string> {
    NonEmpty(Split(path, '/'))
  }

  function Crumb(route: Route): NavItem {
    NavItem(route.title, route.path, route.icon, route.permissions, route.adminLevels, NoItems)
  }

  /** The crumbs found while extending `prefix` by the remaining segments. */
  function CrumbsFrom(prefix: string, segments: seq<string>): seq<NavItem>
    decreases |segments|
  {
    if |segments| == 0 then []
    else
      var current := prefix + "/" + segments[0];
      (match FindRoute(Routes, current) case Some(route) => [Crumb(route)] case None => [])
      + CrumbsFrom(current, segments[1..])
  }

  /** `getBreadcrumbs` */
  method GetBreadcrumbs(path: string) returns (crumbs: seq<NavItem>)
    ensures crumbs == CrumbsFrom("", Segments(path))
  {
    var segments := Segments(path);
    crumbs := [];
    var current := "";
    var i := 0;
    while i < |segments|
      invariant 0 <= i <= |segments|
      invariant crumbs + CrumbsFrom(current, segments[i..]) == CrumbsFrom("", segments)
    {
      CrumbsStep(current, segments[i..]);
      assert segments[i..][0] == segments[i] && segments[i..][1..] == segments[i + 1..];
      current := current + "/" + segments[i];
      var route := FindRouteByPath(current);
      if route.Some? {
        crumbs := crumbs + [Crumb(route.value)];
      }
      i := i + 1;
    }
    assert segments[i..] == [];
  }

  /** The first segment contributes the crumb of its route, if it has one. */
  lemma CrumbsStep(prefix: string, segments: seq<string>)
    requires |segments| > 0
    ensures FindRoute(Routes, prefix + "/" + segments[0]).None? ==>
      CrumbsFrom(prefix, segments) == CrumbsFrom(prefix + "/" + segments[0], segments[1..])
    ensures FindRoute(Routes, prefix + "/" + segments[0]).Some? ==>
      CrumbsFrom(prefix, segments)
      == [Crumb(FindRoute(Routes, prefix + "/" + segments[0]).value)] + CrumbsFrom(prefix + "/" + segments[0], segments[1..])
  {
  }

  /** At most one crumb per segment. */
  lemma {:induction false} CrumbsBound(prefix: string, segments: seq<string>)
    ensures |CrumbsFrom(prefix, segments)| <= |segments|
    decreases |segments|
  {
    if |segments| > 0 {
      CrumbsBound(prefix + "/" + segments[0], segments[1..]);
    }
  }

  /**
   * Every crumb extends the prefix by a slash, and each crumb's url is a
   * proper prefix of every later one's.
   */
  lemma {:induction false} CrumbsOrdered(prefix: string, segments: seq<string>)
    ensures forall k :: 0 <= k < |CrumbsFrom(prefix, segments)| ==>
      StartsWith(CrumbsFrom(prefix, segments)[k].url, prefix + "/")
    ensures forall i, j :: 0 <= i < j < |CrumbsFrom(prefix, segments)| ==>
      |CrumbsFrom(prefix, segments)[i].url| < |CrumbsFrom(prefix, segments)[j].url|
      && StartsWith(CrumbsFrom(prefix, segments)[j].url, CrumbsFrom(prefix, segments)[i].url)
    decreases |segments|
  {
    if |segments| > 0 {
      var current := prefix + "/" + segments[0];
      var rest := CrumbsFrom(current, segments[1..]);
      CrumbsOrdered(current, segments[1..]);
      var cs := CrumbsFrom(prefix, segments);
      forall k | 0 <= k < |rest|
        ensures StartsWith(rest[k].url, prefix + "/") && StartsWith(rest[k].url, current)
        ensures |rest[k].url| > |current|
      {
        assert StartsWith(rest[k].url, current + "/");
        assert rest[k].url[..|current|] == (current + "/")[..|current|];
        assert rest[k].url[..|prefix + "/"|] == current[..|prefix + "/"|];
      }
      match FindRoute(Routes, current)
      case None =>
        assert cs == rest;
      case Some(route) =>
        assert cs == [Crumb(route)] + rest;
        assert cs[0].url == current;
        assert current[..|prefix + "/"|] == prefix + "/";
        forall i, j | 0 <= i < j < |cs|
          ensures |cs[i].url| < |cs[j].url| && StartsWith(cs[j].url, cs[i].url)
        {
          assert cs[j] == rest[j - 1];
          if i > 0 {
            assert cs[i] == rest[i - 1];
          }
        }
    }
  }

  /** The path that `segments` spell below `prefix`. */
  function Spelled(prefix: string, segments: seq<string>): string
    decreases |segments|
  {
    if |segments| == 0 then prefix else Spelled(prefix + "/" + segments[0], segments[1..])
  }

  lemma {:induction false} SpelledExtends(prefix: string, segments: seq<string>)
    ensures StartsWith(Spelled(prefix, segments), prefix)
    decreases |segments|
  {
    if |segments| > 0 {
      var current := prefix + "/" + segments[0];
      SpelledExtends(current, segments[1..]);
      assert Spelled(prefix, segments)[..|prefix|] == current[..|prefix|];
    }
  }

  /** On a path spelled out by its segments, every crumb's url is a prefix of the path. */
  lemma {:induction false} CrumbsArePrefixes(prefix: string, segments: seq<string>)
    ensures forall k :: 0 <= k < |CrumbsFrom(prefix, segments)| ==>
      StartsWith(Spelled(prefix, segments), CrumbsFrom(prefix, segments)[k].url)
    decreases |segments|
  {
    if |segments| > 0 {
      var current := prefix + "/" + segments[0];
      CrumbsArePrefixes(current, segments[1..]);
      SpelledExtends(current, segments[1..]);
      var cs := CrumbsFrom(prefix, segments);
      var rest := CrumbsFrom(current, segments[1..]);
      assert Spelled(prefix, segments) == Spelled(current, segments[1..]);
      if FindRoute(Routes, current).Some? {
        assert cs == [Crumb(FindRoute(Routes, current).value)] + rest;
        forall k | 0 <= k < |cs|
          ensures StartsWith(Spelled(prefix, segments), cs[k].url)
        {
          if k > 0 {
            assert cs[k] == rest[k - 1];
          }
        }
      } else {
        assert cs == rest;
      }
    }
  }

  // ---------------------------------------------------------------------
  // PermissionRouter

  /** `PermissionRouter`: the caller's permissions and admin level, fixed at construction. */
  datatype PermissionRouter = PermissionRouter(userPermissions: seq<string>, adminLevel: Option<string>) {

    /** `canAccess`: unknown paths are refused. */
    function CanAccess(path: string): (ok: bool)
      ensures FindRoute(Routes, path).None? ==> !ok
      ensures FindRoute(Routes, path).Some? ==>
        (ok <==> HasRoutePermission(FindRoute(Routes, path).value, userPermissions, adminLevel))
    {
      match FindRoute(Routes, path)
      case None => false
      case Some(route) => HasRoutePermission(route, userPermissions, adminLevel)
    }

    /** `getDefaultRoute` */
    function GetDefaultRoute(): (path: string)
      ensures adminLevel == Some("SuperAdmin") ==> path == "/admin/system/dashboard"
      ensures adminLevel == Some("FacultyAdmin") ==> path == "/admin/organization/dashboard"
      ensures adminLevel == Some("RegularAdmin") ==> path == "/admin/scanner"
      ensures adminLevel !in {Some("SuperAdmin"), Some("FacultyAdmin"), Some("RegularAdmin")} ==> path == "/dashboard"
    {
      if adminLevel == Some("SuperAdmin") then "/admin/system/dashboard"
      else if adminLevel == Some("FacultyAdmin") then "/admin/organization/dashboard"
      else if adminLevel == Some("RegularAdmin") then "/admin/scanner"
      else "/dashboard"
    }

    /** `getAvailableRoutes`: the permitted routes of the table, as the filter leaves them. */
    function GetAvailableRoutes(): (routes: seq<Route>)
      ensures forall k :: 0 <= k < |routes| ==> HasRoutePermission(routes[k], userPermissions, adminLevel)
      ensures forall r :: r in routes <==>
        exists r0 :: r0 in Routes && HasRoutePermission(r0, userPermissions, adminLevel)
          && r == FilterOne(r0, userPermissions, adminLevel) && NotEmptied(r)
    {
      FilterRoutes(Routes, userPermissions, adminLevel)
    }

    /** `getNavigationItems` for this router: one item per available menu route. */
    function NavigationItems(): (items: seq<NavItem>)
      ensures forall k :: 0 <= k < |items| ==> MenuPath(items[k].url)
      ensures forall item :: item in items <==>
        exists route :: route in GetAvailableRoutes() && MenuPath(route.path) && item == ToNavItem(route)
    {
      NavigationItemsExactly(userPermissions, adminLevel);
      GetNavigationItems(userPermissions, adminLevel)
    }
  }

  /** Without an admin level, no route that lists admin levels is ever offered. */
  lemma NoLevelNoAdminRoutes(userPermissions: seq<string>, route: Route)
    requires route in FilterRoutes(Routes, userPermissions, None)
    ensures route.adminLevels == []
  {
  }
}
