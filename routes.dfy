/** The static route table and the `Routes` component that renders it. */
module Routes {
  import opened Common
  import opened AuthProvider
  import opened ProtectedRoute
  import opened AuthRedirect

  datatype Page = MainPage | LoginPage | RegisterPage | AdminPage | LibrarianPage

  /** The element a route renders: a bare page, a page behind one of the two
      wrappers, or a `<Navigate>`. */
  datatype Element =
    | Plain(page: Page)
    | RedirectIfAuthenticated(page: Page)
    | RequireRole(page: Page, role: Role)
    | NavigateTo(to: string, replace: bool)

  datatype Route = Route(path: string, element: Element)

  /** The path pattern that matches every path no other route matches. */
  const CatchAll: string := "*"

  const RouteTable: seq<Route> := [
    Route("/", Plain(MainPage)),
    Route("/login", RedirectIfAuthenticated(LoginPage)),
    Route("/register", RedirectIfAuthenticated(RegisterPage)),
    Route("/admin", RequireRole(AdminPage, Admin)),
    Route("/librarian", RequireRole(LibrarianPage, Librarian)),
    Route(CatchAll, NavigateTo("/", true))
  ]

  /** The element of the first route whose path is exactly `path`. */
  function FindRoute(table: seq<Route>, path: string): (r: Option<Element>)
    ensures r.Some? <==> exists i :: 0 <= i < |table| && table[i].path == path
    ensures r.Some? ==> exists i :: 0 <= i < |table| && table[i] == Route(path, r.value)
  {
    if table == [] then None
    else if table[0].path == path then Some(table[0].element)
    else
      var r := FindRoute(table[1..], path);
      assert forall i :: 1 <= i < |table| ==> table[i] == table[1..][i - 1];
      r
  }

  /** The route matching `path`: an exact path wins, and anything else falls
      to the catch-all. */
  function Match(path: string): Element {
    match FindRoute(RouteTable, path)
    case Some(e) => e
    case None => NavigateTo("/", true)
  }

  /** The table binds each listed path to its element. */
  lemma MatchTable()
    ensures Match("/") == Plain(MainPage)
    ensures Match("/login") == RedirectIfAuthenticated(LoginPage)
    ensures Match("/register") == RedirectIfAuthenticated(RegisterPage)
    ensures Match("/admin") == RequireRole(AdminPage, Admin)
    ensures Match("/librarian") == RequireRole(LibrarianPage, Librarian)
  {
    var t0 := RouteTable;
    var t1 := t0[1..];
    var t2 := t1[1..];
    var t3 := t2[1..];
    var t4 := t3[1..];
    assert t1[0] == Route("/login", RedirectIfAuthenticated(LoginPage));
    assert t2[0] == Route("/register", RedirectIfAuthenticated(RegisterPage));
    assert t3[0] == Route("/admin", RequireRole(AdminPage, Admin));
    assert t4[0] == Route("/librarian", RequireRole(LibrarianPage, Librarian));
    assert FindRoute(t0, "/login") == FindRoute(t1, "/login");
    assert FindRoute(t0, "/register") == FindRoute(t1, "/register") == FindRoute(t2, "/register");
    assert FindRoute(t0, "/admin") == FindRoute(t1, "/admin") == FindRoute(t2, "/admin") == FindRoute(t3, "/admin");
    assert FindRoute(t0, "/librarian") == FindRoute(t1, "/librarian") == FindRoute(t2, "/librarian")
        == FindRoute(t3, "/librarian") == FindRoute(t4, "/librarian");
  }

  /** What the screen shows. `Blank` is the null a wrapper renders. */
  datatype Screen = LoadingPlaceholder | Shows(page: Page) | Blank | Redirected(to: string, replace: bool)

  function RenderElement(e: Element, user: Option<User>): Screen {
    match e
    case Plain(p) => Shows(p)
    case RedirectIfAuthenticated(p) => if RendersPage(user) then Shows(p) else Blank
    case RequireRole(p, role) =>
      (match Protect(user, Some(role))
       case Render => Shows(p)
       case Redirect(to, replace) => Redirected(to, replace))
    case NavigateTo(to, replace) => Redirected(to, replace)
  }

  /** `Routes`: the placeholder while `isLoading` is truthy, else the element
      of the matching route under the current user. */
  function Render(isLoading: bool, path: string, user: Option<User>): (s: Screen)
    ensures isLoading ==> s == LoadingPlaceholder
    ensures !isLoading ==> s != LoadingPlaceholder
  {
    if isLoading then LoadingPlaceholder else RenderElement(Match(path), user)
  }

  /** "/" renders the main page for everybody. */
  lemma HomeIsOpen(user: Option<User>)
    ensures Render(false, "/", user) == Shows(MainPage)
  {
    MatchTable();
  }

  /** "/admin" is shown exactly to users whose role is "admin"; anonymous
      visitors go to "/login" and everybody else to "/". */
  lemma AdminIsGated(user: Option<User>)
    ensures Render(false, "/admin", user) == Shows(AdminPage) <==> user.Some? && user.value.role == "admin"
    ensures user.None? ==> Render(false, "/admin", user) == Redirected("/login", true)
    ensures user.Some? && user.value.role != "admin" ==> Render(false, "/admin", user) == Redirected("/", true)
  {
    MatchTable();
  }

  /** "/librarian" is shown exactly to users whose role is "librarian". */
  lemma LibrarianIsGated(user: Option<User>)
    ensures Render(false, "/librarian", user) == Shows(LibrarianPage) <==> user.Some? && user.value.role == "librarian"
    ensures user.None? ==> Render(false, "/librarian", user) == Redirected("/login", true)
  {
    MatchTable();
  }

  /** "/login" and "/register" show their forms only to anonymous visitors. */
  lemma SignInPagesRedirectWhenAuthenticated(user: Option<User>)
    ensures Render(false, "/login", user) == if user.None? then Shows(LoginPage) else Blank
    ensures Render(false, "/register", user) == if user.None? then Shows(RegisterPage) else Blank
  {
    MatchTable();
  }

  /** Any path outside the table redirects to "/", replacing the entry. */
  lemma {:induction false} UnknownPathGoesHome(path: string, user: Option<User>)
    requires path !in {"/", "/login", "/register", "/admin", "/librarian"}
    ensures Render(false, path, user) == Redirected("/", true)
  {
    match FindRoute(RouteTable, path)
    case None =>
    case Some(e) =>
      var i :| 0 <= i < |RouteTable| && RouteTable[i] == Route(path, e);
      assert i == 5;
  }
}
