/**
 * The application shell (src/App.jsx): the light/dark colour mode kept in
 * storage, and the route table with its public login route, the five
 * guarded pages and the fallback to `/`.
 */
module App {
  import opened Wrappers
  import opened Js
  import opened Platform
  import opened ApiClient
  import opened AuthContext
  import LoginPage
  import Sidebar

  const ThemeKey := "themeMode"
  const Light := "light"
  const Dark := "dark"

  /** `prev === "light" ? "dark" : "light"`. */
  function Toggled(prev: string): (r: string)
    ensures r == Dark <==> prev == Light
    ensures r == Light <==> prev != Light
  {
    if prev == Light then Dark else Light
  }

  /**
   * Toggling twice is the identity on the two modes; any other stored value
   * is normalised to `light` by the first toggle.
   */
  lemma ToggleTwice(mode: string)
    ensures mode == Light || mode == Dark ==> Toggled(Toggled(mode)) == mode
    ensures mode != Light && mode != Dark ==> Toggled(mode) == Light && Toggled(Toggled(mode)) == Dark
  {
  }

  /** The mode after start-up: the saved one if it is non-empty, else `light`. */
  function RestoredMode(storage: map<string, string>): (r: string)
    ensures Truthy(GetItem(storage, ThemeKey)) ==> r == storage[ThemeKey]
    ensures !Truthy(GetItem(storage, ThemeKey)) ==> r == Light
  {
    var saved := GetItem(storage, ThemeKey);
    if Truthy(saved) then saved.value else Light
  }

  /** The colour mode state and the storage it is persisted to. */
  class ColorMode {
    const browser: Browser
    var mode: string

    /** The mode is persisted under `themeMode`. */
    ghost predicate Persisted()
      reads this, browser
    {
      ThemeKey in browser.storage && browser.storage[ThemeKey] == mode
    }

    /**
     * Mounting: the mode starts as `light`; the restore effect reads the
     * saved mode before the persist effect first writes `light`; once the
     * restored mode is rendered the persist effect writes it.
     */
    constructor (browser: Browser)
      modifies browser
      ensures this.browser == browser
      ensures mode == RestoredMode(old(browser.storage))
      ensures browser.storage == old(browser.storage)[ThemeKey := mode]
      ensures browser.href == old(browser.href)
      ensures Persisted()
    {
      this.browser := browser;
      mode := Light;
      new;
      var saved := GetItem(browser.storage, ThemeKey);
      browser.SetItem(ThemeKey, mode);
      if Truthy(saved) {
        mode := saved.value;
        browser.SetItem(ThemeKey, mode);
      }
    }

    /** `toggleColorMode`, followed by the persist effect. */
    method Toggle()
      modifies this, browser
      ensures mode == Toggled(old(mode))
      ensures browser.storage == old(browser.storage)[ThemeKey := mode]
      ensures browser.href == old(browser.href)
      ensures Persisted()
    {
      mode := Toggled(mode);
      browser.SetItem(ThemeKey, mode);
    }
  }

  datatype Page = DashboardPage | LoansPage | CustomersPage | PaymentsPage | AdminPage

  /** The guarded routes, each rendered inside `RequireAuth`. */
  const GuardedRoutes: seq<(string, Page)> := [
    ("/", DashboardPage),
    ("/loans", LoansPage),
    ("/customers", CustomersPage),
    ("/payments", PaymentsPage),
    ("/admin", AdminPage)
  ]

  /** The guarded page whose path is exactly `pathname`, if any. */
  function MatchGuarded(pathname: string): (r: Option<Page>)
    ensures r.Some? <==> exists p :: (pathname, p) in GuardedRoutes
    ensures r.Some? ==> (pathname, r.value) in GuardedRoutes
  {
    if pathname == "/" then Some(DashboardPage)
    else if pathname == "/loans" then Some(LoansPage)
    else if pathname == "/customers" then Some(CustomersPage)
    else if pathname == "/payments" then Some(PaymentsPage)
    else if pathname == "/admin" then Some(AdminPage)
    else None
  }

  /** What the router shows at a location. */
  datatype Screen = LoginScreen | PageScreen(page: Page) | Redirect(nav: Navigation)

  /**
   * `<Routes>`: `/login` is public, the five pages render only through
   * `RequireAuth`, and any other path is a replacing redirect to `/`.
   */
  function Route(location: Location, isAuthenticated: bool): (r: Screen)
    ensures r == LoginScreen <==> location.pathname == LoginPath
    ensures r.PageScreen? ==> isAuthenticated && MatchGuarded(location.pathname) == Some(r.page)
    ensures r.Redirect? && r.nav.to == LoginPath ==> !isAuthenticated
    ensures location.pathname != LoginPath && MatchGuarded(location.pathname).None? ==>
      r == Redirect(Navigation("/", true, None))
  {
    if location.pathname == LoginPath then LoginScreen
    else match MatchGuarded(location.pathname)
      case Some(page) =>
        (match RequireAuth(isAuthenticated, location)
         case RenderChildren => PageScreen(page)
         case RedirectTo(nav) => Redirect(nav))
      case None => Redirect(Navigation("/", true, None))
  }

  /**
   * The whole table: an authenticated user reaches each guarded page, an
   * anonymous one is sent to `/login` remembering where they were, and an
   * unknown path is sent to `/` either way.
   */
  lemma RouteSpec(location: Location, isAuthenticated: bool, page: Page)
    requires (location.pathname, page) in GuardedRoutes
    ensures isAuthenticated ==> Route(location, isAuthenticated) == PageScreen(page)
    ensures !isAuthenticated ==>
      Route(location, isAuthenticated) == Redirect(Navigation(LoginPath, true, Some(RouteState(Some(location)))))
  {
  }

  /**
   * An anonymous visit to an unknown path goes to `/`, the guard sends it on
   * to `/login` remembering `/`, and a login there resumes at `/`.
   */
  lemma UnknownPathAnonymous(pathname: string, state: Option<RouteState>)
    requires pathname != LoginPath && MatchGuarded(pathname).None?
    ensures var first := Route(Location(pathname, state), false);
      && first == Redirect(Navigation("/", true, None))
      && var second := Route(Location(first.nav.to, first.nav.state), false);
      && second.Redirect? && second.nav.to == LoginPath
      && LoginPage.Destination(Location(second.nav.to, second.nav.state)) == "/"
  {
  }

  /**
   * A signed-in visit to an unknown path is replaced by `/`, which shows the
   * dashboard.
   */
  lemma UnknownPathAuthenticated(pathname: string, state: Option<RouteState>)
    requires pathname != LoginPath && MatchGuarded(pathname).None?
    ensures var first := Route(Location(pathname, state), true);
      && first == Redirect(Navigation("/", true, None))
      && Route(Location(first.nav.to, first.nav.state), true) == PageScreen(DashboardPage)
  {
  }

  /** Every sidebar link leads to a guarded page of the route table. */
  lemma SidebarLinksRouted()
    ensures forall item :: item in Sidebar.MenuItems ==> MatchGuarded(item.path).Some?
  {
  }
}
