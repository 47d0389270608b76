/**
 * The application's route table and how a URL resolves to a parent route
 * and a child, with the guards that decide whether navigation proceeds.
 */
module AppRoutes {
  import opened Wrappers
  import ClientAuth
  import AuthGuard

  const DashboardPath: string := "/dashboard"

  /** `authGuard`, or the inline guard on the login route. */
  datatype Guard = RequireToken | RequireNoToken

  datatype ChildRoute = ChildRoute(path: string, component: string, canActivate: seq<Guard>)

  datatype Route = Route(path: string, component: string, canActivate: seq<Guard>, children: seq<ChildRoute>)

  /** `routes`. */
  const Routes: seq<Route> := [
    Route("login", "Login", [RequireNoToken], []),
    Route("register", "Register", [], []),
    Route("dashboard", "Dashboard", [RequireToken], [
      ChildRoute("", "Home", []),
      ChildRoute("products", "Product", [RequireToken]),
      ChildRoute("categories", "Categories", [RequireToken]),
      ChildRoute("users", "Users", [RequireToken]),
      ChildRoute("orders", "Orders", [RequireToken])
    ])
  ]

  /** The inline guard of the login route: open without a token, otherwise off to the dashboard. */
  function LoginGuard(loggedIn: bool): (d: AuthGuard.GuardDecision)
    ensures d.allowed <==> !loggedIn
    ensures d.redirect.Some? <==> loggedIn
    ensures d.redirect.Some? ==> d.redirect.value == DashboardPath
    ensures !d.reloadUser
  {
    if loggedIn then AuthGuard.GuardDecision(false, Some(DashboardPath), false)
    else AuthGuard.GuardDecision(true, None, false)
  }

  function GuardAllows(g: Guard, loggedIn: bool, userLoaded: bool): bool {
    match g
    case RequireToken => AuthGuard.Decide(loggedIn, userLoaded).allowed
    case RequireNoToken => LoginGuard(loggedIn).allowed
  }

  /** The route a URL resolved to: a top-level route and, when it has children, one of them. */
  datatype Match = Match(route: Route, child: Option<ChildRoute>)

  function FindRoute(routes: seq<Route>, path: string): (r: Option<Route>)
    ensures r.Some? ==> r.value in routes && r.value.path == path
    ensures r.None? ==> forall i :: 0 <= i < |routes| ==> routes[i].path != path
  {
    if routes == [] then None
    else if routes[0].path == path then Some(routes[0])
    else FindRoute(routes[1..], path)
  }

  function FindChild(children: seq<ChildRoute>, path: string): (r: Option<ChildRoute>)
    ensures r.Some? ==> r.value in children && r.value.path == path
    ensures r.None? ==> forall i :: 0 <= i < |children| ==> children[i].path != path
  {
    if children == [] then None
    else if children[0].path == path then Some(children[0])
    else FindChild(children[1..], path)
  }

  /**
   * Resolution of a URL's segments: the first segment picks a top-level
   * route; a parent with children needs a second segment naming a child, or
   * none at all for the empty-path child. A trailing empty segment matches nothing.
   */
  function Resolve(segments: seq<string>): (r: Option<Match>)
    ensures r.Some? ==> 1 <= |segments| <= 2 && r.value.route in Routes && r.value.route.path == segments[0]
    ensures r.Some? ==> (r.value.child.Some? <==> r.value.route.children != [])
    ensures r.Some? && r.value.child.Some? ==> r.value.child.value in r.value.route.children
    ensures r.Some? && r.value.child.Some? ==> r.value.child.value.path == (if |segments| == 2 then segments[1] else "")
    ensures r.Some? && r.value.child.None? ==> |segments| == 1
  {
    if |segments| == 0 || |segments| > 2 || segments[|segments| - 1] == "" then None
    else
      match FindRoute(Routes, segments[0])
      case None => None
      case Some(route) =>
        if route.children == [] then
          if |segments| == 1 then Some(Match(route, None)) else None
        else
          var childPath := if |segments| == 1 then "" else segments[1];
          match FindChild(route.children, childPath)
          case None => None
          case Some(child) => Some(Match(route, Some(child)))
  }

  /** The guards that run for a match, parent's first. */
  function GuardsOf(m: Match): seq<Guard> {
    m.route.canActivate + (if m.child.Some? then m.child.value.canActivate else [])
  }

  /** Navigation proceeds when every guard on the way allows it. */
  predicate CanActivate(m: Match, loggedIn: bool, userLoaded: bool) {
    forall i :: 0 <= i < |GuardsOf(m)| ==> GuardAllows(GuardsOf(m)[i], loggedIn, userLoaded)
  }

  /** The route table's lookups, unfolded once. */
  lemma TableLookups()
    ensures FindRoute(Routes, "login") == Some(Routes[0])
    ensures FindRoute(Routes, "register") == Some(Routes[1])
    ensures FindRoute(Routes, "dashboard") == Some(Routes[2])
    ensures FindChild(Routes[2].children, "") == Some(Routes[2].children[0])
    ensures FindChild(Routes[2].children, "products") == Some(Routes[2].children[1])
    ensures FindChild(Routes[2].children, "categories") == Some(Routes[2].children[2])
    ensures FindChild(Routes[2].children, "users") == Some(Routes[2].children[3])
    ensures FindChild(Routes[2].children, "orders") == Some(Routes[2].children[4])
  {
  }

  /** Every URL that resolves is one of the table's. */
  lemma ResolvedUrlsKnown(segments: seq<string>)
    requires Resolve(segments).Some?
    ensures segments in {["login"], ["register"], ["dashboard"], ["dashboard", "products"], ["dashboard", "categories"],
                         ["dashboard", "users"], ["dashboard", "orders"]}
  {
    var m := Resolve(segments).value;
    if |segments| == 2 {
      assert segments == [segments[0], segments[1]];
      assert m.route == Routes[2];
      assert m.child.value in Routes[2].children;
    } else {
      assert segments == [segments[0]];
    }
  }

  /** Every URL of the table resolves. */
  lemma KnownUrlsResolve()
    ensures Resolve(["login"]).Some? && Resolve(["register"]).Some? && Resolve(["dashboard"]).Some?
    ensures Resolve(["dashboard", "products"]).Some? && Resolve(["dashboard", "categories"]).Some?
    ensures Resolve(["dashboard", "users"]).Some? && Resolve(["dashboard", "orders"]).Some?
  {
    assert Resolve(["login"]).Some? by {
      assert FindRoute(Routes, "login") == Some(Routes[0]);
    }
    assert Resolve(["register"]).Some? by {
      assert FindRoute(Routes, "register") == Some(Routes[1]);
    }
    DashboardUrlResolves("", 0);
    DashboardUrlResolves("products", 1);
    DashboardUrlResolves("categories", 2);
    DashboardUrlResolves("users", 3);
    DashboardUrlResolves("orders", 4);
  }

  /** A URL under the dashboard resolves when the dashboard has a child of that path. */
  lemma DashboardUrlResolves(child: string, i: nat)
    requires i < |Routes[2].children| && Routes[2].children[i].path == child
    ensures Resolve(if child == "" then ["dashboard"] else ["dashboard", child]).Some?
  {
    assert FindRoute(Routes, "dashboard") == Some(Routes[2]);
    FindChildFinds(Routes[2].children, child, i);
  }

  /** A child present in the list is found, perhaps an earlier one of the same path. */
  lemma {:induction false} FindChildFinds(children: seq<ChildRoute>, path: string, i: nat)
    requires i < |children| && children[i].path == path
    ensures FindChild(children, path).Some?
    decreases i
  {
    if children[0].path != path {
      assert children[1..][i - 1] == children[i];
      FindChildFinds(children[1..], path, i - 1);
    }
  }

  /**
   * Who may go where: the login page only without a token, the register page
   * always, the dashboard and each of its pages only with one.
   */
  lemma AccessRules(m: Match, loggedIn: bool, userLoaded: bool)
    requires m.route in Routes && (m.child.Some? ==> m.child.value in m.route.children)
    ensures m.route.path == "login" ==> (CanActivate(m, loggedIn, userLoaded) <==> !loggedIn)
    ensures m.route.path == "register" ==> CanActivate(m, loggedIn, userLoaded)
    ensures m.route.path == "dashboard" ==> (CanActivate(m, loggedIn, userLoaded) <==> loggedIn)
  {
    if m.route == Routes[2] {
      assert GuardsOf(m)[0] == RequireToken;
      assert forall i :: 0 <= i < |GuardsOf(m)| ==> GuardsOf(m)[i] == RequireToken;
    } else if m.route == Routes[0] {
      assert m.child.None?;
      assert GuardsOf(m) == [RequireNoToken];
      SingleGuard(m, RequireNoToken, loggedIn, userLoaded);
    } else {
      assert GuardsOf(m) == [];
    }
  }

  /** A match with a single guard may be entered exactly when that guard allows it. */
  lemma SingleGuard(m: Match, g: Guard, loggedIn: bool, userLoaded: bool)
    requires GuardsOf(m) == [g]
    ensures CanActivate(m, loggedIn, userLoaded) <==> GuardAllows(g, loggedIn, userLoaded)
  {
    assert GuardsOf(m)[0] == g;
  }

  /** The home page has no guard of its own and is covered by the dashboard's. */
  lemma HomeReliesOnParentGuard()
    ensures Resolve(["dashboard"]).Some?
    ensures Resolve(["dashboard"]).value.child == Some(ChildRoute("", "Home", []))
    ensures GuardsOf(Resolve(["dashboard"]).value) == [RequireToken]
  {
    assert FindRoute(Routes, "dashboard") == Some(Routes[2]);
    assert FindChild(Routes[2].children, "") == Some(Routes[2].children[0]);
  }

  /** For every token state the login guard and `authGuard` answer opposite ways. */
  lemma GuardsAreOpposite(loggedIn: bool, userLoaded: bool)
    ensures LoginGuard(loggedIn).allowed != AuthGuard.Decide(loggedIn, userLoaded).allowed
  {
  }
}
