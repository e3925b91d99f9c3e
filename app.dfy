/** The application shell: the configuration gate and the path table, each
    path wrapped in one of the two guards. Composed with the guards'
    settled decisions it is a small redirect system. */
module App {
  import opened Auth
  import ProtectedRoute
  import PublicRoute

  datatype View = Login | DashboardView | PharmaciesView | ProductsView | ReportsView

  /** What the shell renders: the configuration error screen, or a path's
      view behind a guard (the protected views inside the page layout). */
  datatype Element = ConfigError | Public(view: View) | Protected(view: View)

  /** The element for a path. Without a client no route is evaluated. */
  function RouteElement(configured: bool, path: string): (e: Element)
    ensures !configured <==> e == ConfigError
    ensures configured && path == "/dashboard" ==> e == Protected(DashboardView)
    ensures configured && path == "/pharmacies" ==> e == Protected(PharmaciesView)
    ensures configured && path == "/products" ==> e == Protected(ProductsView)
    ensures configured && path == "/reports" ==> e == Protected(ReportsView)
    ensures configured && !IsProtectedPath(path) ==> e == Public(Login)
  {
    if !configured then ConfigError
    else if path == "/dashboard" then Protected(DashboardView)
    else if path == "/pharmacies" then Protected(PharmaciesView)
    else if path == "/products" then Protected(ProductsView)
    else if path == "/reports" then Protected(ReportsView)
    else Public(Login)
  }

  predicate IsProtectedPath(path: string) {
    path == "/dashboard" || path == "/pharmacies" || path == "/products" || path == "/reports"
  }

  /** Every element's guard is the one its path calls for: the four page
      paths are protected, `/` and every other path show the login page. */
  lemma RouteTableGuards(path: string)
    ensures RouteElement(true, path).Protected? <==> IsProtectedPath(path)
    ensures RouteElement(true, path).Public? ==> RouteElement(true, path).view == Login
    ensures RouteElement(true, "/") == Public(Login)
  {
  }

  /** The screen a visit settles on once the guard has stopped loading. */
  datatype Screen = ConfigScreen | Shows(view: View) | Redirects(to: string)

  function Visit(configured: bool, path: string, authenticated: bool): (s: Screen)
    ensures !configured ==> s == ConfigScreen
  {
    match RouteElement(configured, path)
    case ConfigError => ConfigScreen
    case Public(v) => Settle(PublicRoute.Decision(false, authenticated), v)
    case Protected(v) => Settle(ProtectedRoute.Decision(false, authenticated), v)
  }

  function Settle(r: Render, v: View): Screen {
    match r
    case Navigate(to) => Redirects(to)
    case _ => Shows(v)
  }

  /** Redirects settle after at most one hop: the target of a redirect is
      always shown. */
  lemma {:induction false} OneHop(path: string, authenticated: bool)
    requires Visit(true, path, authenticated).Redirects?
    ensures Visit(true, Visit(true, path, authenticated).to, authenticated).Shows?
  {
    if IsProtectedPath(path) {
      assert !authenticated;
      assert Visit(true, path, authenticated).to == ProtectedRoute.LoginPath;
      assert RouteElement(true, "/") == Public(Login);
    } else {
      assert authenticated;
      assert Visit(true, path, authenticated).to == PublicRoute.HomePath;
      assert RouteElement(true, "/dashboard") == Protected(DashboardView);
    }
  }

  /** Signed out, a page path lands on `/`, which shows the login page;
      signed in, `/` and every unknown path land on `/dashboard`, which
      shows the dashboard. */
  lemma RedirectTargets(path: string)
    ensures IsProtectedPath(path) ==>
      Visit(true, path, false) == Redirects("/") && Visit(true, "/", false) == Shows(Login)
    ensures !IsProtectedPath(path) ==>
      Visit(true, path, true) == Redirects("/dashboard") && Visit(true, "/dashboard", true) == Shows(DashboardView)
    ensures Visit(true, path, IsProtectedPath(path)) == Shows(RouteElement(true, path).view)
  {
  }
}
