/** The route table of src/App.tsx as a resolver from a path to what the router
    renders, with the guard of ProtectedRoute applied and `<Navigate>` followed.
    Paths are compared exactly; react-router's case-insensitive and
    trailing-slash matching is not modelled. */
module AppRoutes {
  import opened Common
  import ProtectedRoute
  import AuthContext

  datatype Page = LoginPage | RegisterPage | DashboardPage | SiswaPage | GlobalChatPage

  /** A route's element: a page as is, a page inside `<ProtectedRoute>`, or `<Navigate to replace>`. */
  datatype Element = Plain(page: Page) | Guarded(page: Page) | NavigateTo(to: string, replace: bool)

  datatype Route = Route(path: string, element: Element)

  const CATCH_ALL := "*"
  const DASHBOARD_PATH := "/dashboard"

  const ROUTES: seq<Route> := [
    Route("/login", Plain(LoginPage)),
    Route("/register", Plain(RegisterPage)),
    Route("/dashboard", Guarded(DashboardPage)),
    Route("/siswa", Guarded(SiswaPage)),
    Route("/", NavigateTo(DASHBOARD_PATH, true)),
    Route(CATCH_ALL, NavigateTo(DASHBOARD_PATH, true))
  ]

  /** The element of the first non-catch-all route whose path is `path`. */
  function Match(routes: seq<Route>, path: string): (e: Option<Element>)
    ensures e.Some? ==> exists i :: 0 <= i < |routes| && routes[i].path == path && routes[i].element == e.value
    ensures (forall i :: 0 <= i < |routes| ==> routes[i].path != path) ==> e.None?
  {
    if routes == [] then None
    else if routes[0].path == path && path != CATCH_ALL then Some(routes[0].element)
    else
      var e := Match(routes[1..], path);
      assert e.Some? ==> exists i :: 0 <= i < |routes| - 1 && routes[1..][i].path == path && routes[1..][i].element == e.value;
      e
  }

  /** The element the router picks: an exact match, or the catch-all route. */
  function Resolve(path: string): Element
  {
    match Match(ROUTES, path)
    case Some(e) => e
    case None => ROUTES[5].element
  }

  /** The first route with the path decides. */
  lemma {:induction false} MatchFirst(routes: seq<Route>, path: string, i: nat)
    requires i < |routes| && routes[i].path == path && path != CATCH_ALL
    requires forall j :: 0 <= j < i ==> routes[j].path != path
    ensures Match(routes, path) == Some(routes[i].element)
    decreases i
  {
    if i > 0 {
      MatchFirst(routes[1..], path, i - 1);
    }
  }

  /** /login and /register render unguarded. */
  lemma PublicRoutes()
    ensures Resolve("/login") == Plain(LoginPage)
    ensures Resolve("/register") == Plain(RegisterPage)
  {
    MatchFirst(ROUTES, "/login", 0);
    MatchFirst(ROUTES, "/register", 1);
  }

  /** /dashboard and /siswa are wrapped in the guard. */
  lemma GuardedRoutes()
    ensures Resolve("/dashboard") == Guarded(DashboardPage)
    ensures Resolve("/siswa") == Guarded(SiswaPage)
  {
    assert ROUTES[0].path == "/login" && ROUTES[1].path == "/register";
    MatchFirst(ROUTES, "/dashboard", 2);
    assert ROUTES[2].path == "/dashboard";
    MatchFirst(ROUTES, "/siswa", 3);
  }

  /** / redirects to the dashboard with replace. */
  lemma RootRoute()
    ensures Resolve("/") == NavigateTo(DASHBOARD_PATH, true)
  {
    MatchFirst(ROUTES, "/", 4);
  }

  /** Every other path, /chat among them, is sent to the dashboard with replace. */
  lemma {:induction false} OtherPathsGoToDashboard(path: string)
    requires path !in {"/login", "/register", "/dashboard", "/siswa"}
    ensures Resolve(path) == NavigateTo(DASHBOARD_PATH, true)
  {
    var m := Match(ROUTES, path);
    if m.Some? {
      var i :| 0 <= i < |ROUTES| && ROUTES[i].path == path && ROUTES[i].element == m.value;
      assert i == 4 || i == 5;
    }
  }

  /** No path renders the global chat page: it is not in the table. */
  lemma {:induction false} ChatIsUnreachable(path: string)
    ensures Resolve(path).NavigateTo? || Resolve(path).page != GlobalChatPage
  {
    var m := Match(ROUTES, path);
    if m.Some? {
      var i :| 0 <= i < |ROUTES| && ROUTES[i].path == path && ROUTES[i].element == m.value;
      assert i < 6;
    }
  }

  /** What the client shows for a path after one render. */
  datatype View = Shows(page: Page) | Loading | Redirected(to: string)

  function Render(path: string, isLoading: bool, isAuthenticated: bool): View
  {
    match Resolve(path)
    case Plain(p) => Shows(p)
    case NavigateTo(to, _) => Redirected(to)
    case Guarded(p) =>
      match ProtectedRoute.Guard(isLoading, isAuthenticated, p)
      case LoadingScreen => Loading
      case Redirect(to, _) => Redirected(to)
      case Children(q) => Shows(q)
  }

  /** Follows at most `hops` redirects. */
  function Settle(path: string, isLoading: bool, isAuthenticated: bool, hops: nat): View
    decreases hops
  {
    match Render(path, isLoading, isAuthenticated)
    case Redirected(to) =>
      if hops == 0 then Redirected(to) else Settle(to, isLoading, isAuthenticated, hops - 1)
    case v => v
  }

  /** Once the session is known, every path settles on a page within two
      redirects: a signed-out visitor only ever sees the login or register
      page, a signed-in one sees the page at a public or guarded path and the
      dashboard everywhere else. While loading, guarded paths show the loading screen. */
  lemma {:induction false} EveryPathSettles(path: string, isAuthenticated: bool)
    ensures !isAuthenticated ==> Settle(path, false, false, 2) in {Shows(LoginPage), Shows(RegisterPage)}
    ensures isAuthenticated && path !in {"/login", "/register", "/siswa"} ==>
              Settle(path, false, true, 2) == Shows(DashboardPage)
    ensures path in {"/dashboard", "/siswa"} ==> Render(path, true, isAuthenticated) == Loading
  {
    PublicRoutes();
    GuardedRoutes();
    assert Render("/login", false, false) == Shows(LoginPage);
    assert Render("/dashboard", false, false) == Redirected(ProtectedRoute.LOGIN_PATH);
    assert Settle("/login", false, false, 0) == Shows(LoginPage);
    assert Settle("/login", false, false, 1) == Shows(LoginPage);
    assert Settle("/dashboard", false, false, 1) == Shows(LoginPage);
    assert Render("/dashboard", false, true) == Shows(DashboardPage);
    assert Settle("/dashboard", false, true, 1) == Shows(DashboardPage);
    if path !in {"/login", "/register", "/dashboard", "/siswa"} {
      OtherPathsGoToDashboard(path);
      assert Render(path, false, false) == Redirected(DASHBOARD_PATH);
      assert Render(path, false, true) == Redirected(DASHBOARD_PATH);
    }
  }

  /** The component tree of App: AuthProvider around the router. */
  datatype Tree = AuthProviderNode(child: Tree) | RouterNode(routes: seq<Route>)

  const APP: Tree := AuthProviderNode(RouterNode(ROUTES))

  /** Whether an element is the element of one of a tree's routes. */
  predicate InTree(t: Tree, e: Element)
  {
    match t
    case RouterNode(routes) => exists i :: 0 <= i < |routes| && routes[i].element == e
    case AuthProviderNode(child) => InTree(child, e)
  }

  /** The context `useAuth` finds for an element rendered in a tree: the value
      of an AuthProvider above the element, or none. */
  function ContextAt<C>(t: Tree, e: Element, ctx: C): Option<C>
  {
    match t
    case RouterNode(_) => None
    case AuthProviderNode(child) => if InTree(child, e) then Some(ctx) else None
  }

  /** Whatever path is visited, the element the router renders (a page, the
      guard around a page, or a redirect) sits under the provider, so `useAuth`
      in it returns the provider's value; the same router without the provider
      would make it throw. */
  lemma RoutedPagesSeeContext<C>(path: string, ctx: C)
    ensures ContextAt(APP, Resolve(path), ctx) == Some(ctx)
    ensures AuthContext.UseAuth(ContextAt(APP, Resolve(path), ctx)) == AuthContext.Context(ctx)
    ensures AuthContext.UseAuth(ContextAt(RouterNode(ROUTES), Resolve(path), ctx)).Thrown?
  {
    if Match(ROUTES, path).None? {
      assert ROUTES[5].element == Resolve(path);
    }
  }
}
