/**
 * The application's routes and their guards. A guard decides, from the authentication
 * state, whether a route shows a loading spinner, redirects, or shows its page.
 */
module Routing {
  import opened Optional
  import opened Text

  datatype User = User(id: string, role: string)

  /** What the authentication context provides to the guards. */
  datatype AuthState = AuthState(isLoading: bool, isAuthenticated: bool, user: Option<User>)

  datatype Page =
    | AuthPage
    | ClientDashboard | ClientProfile | ClientOrders | ClientReviews | ClientPayments
    | ClientSettings | NewOrderPage
    | InternDashboard | InternTasksPage | InternEarningsPage
    | AdminDashboard

  /** What a route renders. */
  datatype Screen = Spinner | Redirect(to: string) | Show(page: Page)

  /** The dashboard a role is sent to; the roles the application knows are exactly these three. */
  function DashboardOf(role: string): Option<string> {
    if role == "admin" then Some("/admin")
    else if role == "client" then Some("/client")
    else if role == "intern" then Some("/intern")
    else None
  }

  predicate KnownRole(role: string) {
    DashboardOf(role).Some?
  }

  /** The guard in front of every signed-in page (`requiredRole` defaults to `[]`). */
  function ProtectedRoute(auth: AuthState, element: Page, requiredRole: seq<string>): Screen {
    if auth.isLoading then Spinner
    else if !auth.isAuthenticated then Redirect("/login")
    else if |requiredRole| > 0 && auth.user.Some? && auth.user.value.role !in requiredRole then
      match DashboardOf(auth.user.value.role)
      case Some(home) => Redirect(home)
      case None => Show(element)
    else Show(element)
  }

  /** The guard in front of the sign-in and registration pages. */
  function PublicRoute(auth: AuthState, element: Page): Screen {
    if auth.isLoading then Spinner
    else if auth.isAuthenticated && auth.user.Some? && KnownRole(auth.user.value.role) then
      Redirect(DashboardOf(auth.user.value.role).value)
    else Show(element)
  }

  /** What a path in the route table is bound to. */
  datatype RouteElement =
    | Public(page: Page)
    | Protected(page: Page, requiredRole: seq<string>)
    | NavigateTo(target: string)

  /** The route table: the element bound to each path, in the order the table lists them;
      the catch-all `*` route sends every other path to `/login`. */
  function Lookup(path: string): RouteElement {
    if path == "/login" then Public(AuthPage)
    else if path == "/register" then Public(AuthPage)
    else if path == "/client" then Protected(ClientDashboard, ["client"])
    else if path == "/client/profile" then Protected(ClientProfile, ["client"])
    else if path == "/client/orders" then Protected(ClientOrders, ["client"])
    else if path == "/client/reviews" then Protected(ClientReviews, ["client"])
    else if path == "/client/payments" then Protected(ClientPayments, ["client"])
    else if path == "/client/settings" then Protected(ClientSettings, ["client"])
    else if path == "/client/orders/new" then Protected(NewOrderPage, ["client"])
    else if path == "/intern" then Protected(InternDashboard, ["intern"])
    else if path == "/intern/tasks" then Protected(InternTasksPage, ["intern"])
    else if path == "/intern/earnings" then Protected(InternEarningsPage, ["intern"])
    else if path == "/admin" then Protected(AdminDashboard, ["admin"])
    else if path == "/" then NavigateTo("/login")
    else NavigateTo("/login")
  }

  /** The paths the table names. */
  const RoutePaths: set<string> := {
    "/login", "/register",
    "/client", "/client/profile", "/client/orders", "/client/reviews", "/client/payments",
    "/client/settings", "/client/orders/new",
    "/intern", "/intern/tasks", "/intern/earnings",
    "/admin", "/"
  }

  /** The screen a path shows in a given authentication state. */
  function Render(path: string, auth: AuthState): Screen {
    match Lookup(path)
    case Public(page) => PublicRoute(auth, page)
    case Protected(page, roles) => ProtectedRoute(auth, page, roles)
    case NavigateTo(target) => Redirect(target)
  }

  lemma LoadingShowsSpinner(auth: AuthState, element: Page, requiredRole: seq<string>)
    requires auth.isLoading
    ensures ProtectedRoute(auth, element, requiredRole) == Spinner
    ensures PublicRoute(auth, element) == Spinner
  {
  }

  lemma SignedOutGoesToLogin(auth: AuthState, element: Page, requiredRole: seq<string>)
    requires !auth.isLoading && !auth.isAuthenticated
    ensures ProtectedRoute(auth, element, requiredRole) == Redirect("/login")
  {
  }

  /** A signed-in user with a known role sees the page iff the route admits every role or
      names theirs; otherwise they are sent to their own dashboard. */
  lemma ProtectedAdmitsExactlyRequiredRoles(auth: AuthState, element: Page, requiredRole: seq<string>)
    requires !auth.isLoading && auth.isAuthenticated && auth.user.Some?
    requires KnownRole(auth.user.value.role)
    ensures ProtectedRoute(auth, element, requiredRole) == Show(element)
            <==> |requiredRole| == 0 || auth.user.value.role in requiredRole
    ensures !(|requiredRole| == 0 || auth.user.value.role in requiredRole) ==>
              ProtectedRoute(auth, element, requiredRole) == Redirect(DashboardOf(auth.user.value.role).value)
  {
  }

  /** There is no else branch after the three role redirects: a signed-in user with any other role,
      or a signed-in state without a user record, sees every guarded page. */
  lemma UnknownRoleFallsThrough(auth: AuthState, element: Page, requiredRole: seq<string>)
    requires !auth.isLoading && auth.isAuthenticated
    requires auth.user.None? || !KnownRole(auth.user.value.role)
    ensures ProtectedRoute(auth, element, requiredRole) == Show(element)
  {
  }

  /** The sign-in page sends a signed-in user with a known role home and shows itself to everyone else. */
  lemma PublicRouteSendsKnownUsersHome(auth: AuthState, element: Page)
    requires !auth.isLoading
    ensures (auth.isAuthenticated && auth.user.Some? && KnownRole(auth.user.value.role)) ==>
              PublicRoute(auth, element) == Redirect(DashboardOf(auth.user.value.role).value)
    ensures !(auth.isAuthenticated && auth.user.Some? && KnownRole(auth.user.value.role)) ==>
              PublicRoute(auth, element) == Show(element)
  {
  }

  /** A route element only a user of `role` may see, or the catch-all redirect to `/login`. */
  predicate ReservedFor(e: RouteElement, role: string) {
    e == NavigateTo("/login") || (e.Protected? && e.requiredRole == [role])
  }

  /** Every `/client…` path is for clients only, every `/intern…` path for interns only
      (or, when the table does not name it, goes to `/login`). */
  lemma RolePrefixesAreReserved(path: string)
    ensures StartsWith(path, "/client") ==> ReservedFor(Lookup(path), "client")
    ensures StartsWith(path, "/intern") ==> ReservedFor(Lookup(path), "intern")
  {
    if path == "/login" || path == "/register" {
      assert !StartsWith("/login", "/client") && !StartsWith("/register", "/client");
      assert !StartsWith("/login", "/intern") && !StartsWith("/register", "/intern");
    } else if path in {"/client", "/client/profile", "/client/orders", "/client/reviews"} {
      assert !StartsWith("/client", "/intern") && !StartsWith("/client/profile", "/intern");
      assert !StartsWith("/client/orders", "/intern") && !StartsWith("/client/reviews", "/intern");
    } else if path in {"/client/payments", "/client/settings", "/client/orders/new"} {
      assert !StartsWith("/client/payments", "/intern") && !StartsWith("/client/settings", "/intern");
      assert !StartsWith("/client/orders/new", "/intern");
    } else if path in {"/intern", "/intern/tasks", "/intern/earnings"} {
      assert !StartsWith("/intern", "/client") && !StartsWith("/intern/tasks", "/client");
      assert !StartsWith("/intern/earnings", "/client");
    } else if path == "/admin" {
      assert !StartsWith("/admin", "/client") && !StartsWith("/admin", "/intern");
    }
  }

  /** `/admin` is for admins only; `/` and every path the table does not name go to `/login`. */
  lemma AdminAndFallbackRoutes(path: string)
    ensures Lookup("/admin") == Protected(AdminDashboard, ["admin"])
    ensures path == "/" || path !in RoutePaths ==> Lookup(path) == NavigateTo("/login")
  {
  }

  /** Only the two authentication paths are public. */
  lemma OnlyAuthPagesArePublic(path: string)
    ensures Lookup(path).Public? <==> path == "/login" || path == "/register"
  {
  }

  /** A signed-in user of one known role who opens another role's page lands on their own dashboard. */
  lemma CrossRoleVisitRedirectsHome(path: string, auth: AuthState)
    requires !auth.isLoading && auth.isAuthenticated && auth.user.Some?
    requires Lookup(path).Protected? && |Lookup(path).requiredRole| > 0
    requires KnownRole(auth.user.value.role) && auth.user.value.role !in Lookup(path).requiredRole
    ensures Render(path, auth) == Redirect(DashboardOf(auth.user.value.role).value)
  {
  }

  /** The orders table links each order to `/client/orders/<id>`, which no route matches: the
      catch-all sends it to `/login`, and the sign-in page sends a signed-in client on to `/client`. */
  lemma OrderDetailLinkFallsBackToDashboard(id: string, auth: AuthState)
    requires id != "" && id != "new"
    requires !auth.isLoading && auth.isAuthenticated && auth.user.Some? && auth.user.value.role == "client"
    ensures Render("/client/orders/" + id, auth) == Redirect("/login")
    ensures Render("/login", auth) == Redirect("/client")
  {
    var path := "/client/orders/" + id;
    assert |path| >= 16 && path[1] == 'c' && path[8] == 'o';
    assert path[15..] == id && "/client/orders/new"[15..] == "new";
    assert Lookup(path) == NavigateTo("/login");
  }
}
