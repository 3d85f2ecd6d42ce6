/** The application shell: while the auth layer is loading only a placeholder
    is shown; afterwards the route table picks a page, sending visitors
    without a session to the login page and signed-in visitors of `/` to the
    dashboard their role calls for. */
module Routing {
  import opened Wrappers
  import opened Domain

  /** The entries of the route table, in the order they are declared. */
  datatype Route =
    | LoginRoute
    | RootRoute
    | DashboardRoute
    | AdminRoute
    | ProjectRoute(id: string)
    | PortfolioRoute
    | CalculatorRoute
    | FallbackRoute

  datatype Page =
    | LoginPage
    | BuyerDashboardPage
    | AdminDashboardPage
    | ProjectDetailPage(id: string)
    | PortfolioPage
    | CalculatorPage

  /** What the shell produces: the loading placeholder, a page, or a redirect. */
  datatype Screen = Initializing | Render(page: Page) | Redirect(to: string)

  const ProjectPrefix := "/project/"

  /** The location of the detail page of project `id`. */
  function ProjectPath(id: string): (p: string)
    ensures |p| == |ProjectPrefix| + |id| && p[..|ProjectPrefix|] == ProjectPrefix
  {
    ProjectPrefix + id
  }

  /** Which route a location selects; `:id` is one non-empty path segment. */
  function MatchPath(path: string): Route
  {
    if path == "/login" then LoginRoute
    else if path == "/" then RootRoute
    else if path == "/dashboard" then DashboardRoute
    else if path == "/admin" then AdminRoute
    else if path == "/portfolio" then PortfolioRoute
    else if path == "/calculator" then CalculatorRoute
    else if |path| > |ProjectPrefix| && path[..|ProjectPrefix|] == ProjectPrefix
            && '/' !in path[|ProjectPrefix|..] then
      ProjectRoute(path[|ProjectPrefix|..])
    else FallbackRoute
  }

  /** A project id that fits in one path segment selects its detail route. */
  lemma ProjectPathSelectsProject(id: string)
    ensures id != [] && '/' !in id ==> MatchPath(ProjectPath(id)) == ProjectRoute(id)
  {
    var p := ProjectPath(id);
    assert p[|ProjectPrefix|..] == id;
    assert p[1] == 'p' && p[2] == 'r';
    assert p != "/login" && p != "/" && p != "/dashboard" && p != "/admin";
    assert p != "/portfolio" && p != "/calculator";
  }

  /** Where `/` sends a signed-in user: administrators and aggregators to the
      admin panel, everyone else, including a user whose profile has not
      loaded, to the buyer dashboard. */
  function HomeRedirect(profile: Option<Profile>): (to: string)
    ensures to == "/admin" <==> profile.Some? && (profile.value.role == PlatformAdmin || profile.value.role == Aggregator)
    ensures to == "/dashboard" <==> profile.None? || profile.value.role == Buyer
  {
    assert |"/admin"| != |"/dashboard"|;
    match profile
    case Some(Profile(PlatformAdmin)) => "/admin"
    case Some(Profile(Aggregator)) => "/admin"
    case _ => "/dashboard"
  }

  /** Page of a route that needs a session. */
  function ProtectedPage(r: Route): (p: Page)
    requires r != LoginRoute && r != RootRoute && r != FallbackRoute
    ensures p == BuyerDashboardPage <==> r == DashboardRoute
    ensures p == AdminDashboardPage <==> r == AdminRoute
    ensures p == PortfolioPage <==> r == PortfolioRoute
    ensures p == CalculatorPage <==> r == CalculatorRoute
    ensures p.ProjectDetailPage? <==> r.ProjectRoute?
    ensures r.ProjectRoute? ==> p == ProjectDetailPage(r.id)
  {
    match r
    case DashboardRoute => BuyerDashboardPage
    case AdminRoute => AdminDashboardPage
    case ProjectRoute(id) => ProjectDetailPage(id)
    case PortfolioRoute => PortfolioPage
    case CalculatorRoute => CalculatorPage
  }

  /** The shell at location `path`. */
  function App(loading: bool, session: Option<Session>, profile: Option<Profile>, path: string): (s: Screen)
    // nothing is routed while the auth layer is loading
    ensures s == Initializing <==> loading
    // the login page is there with or without a session
    ensures !loading && MatchPath(path) == LoginRoute ==> s == Render(LoginPage)
    // unknown locations go to `/`
    ensures !loading && MatchPath(path) == FallbackRoute ==> s == Redirect("/")
    // every other route needs a session and sends visitors without one to the login page
    ensures !loading && session.None? && MatchPath(path) != LoginRoute && MatchPath(path) != FallbackRoute
            ==> s == Redirect("/login")
    // a page other than the login page is rendered only with a session
    ensures s.Render? && s.page != LoginPage ==> session.Some?
    // `/` with a session is the role redirect
    ensures !loading && session.Some? && MatchPath(path) == RootRoute ==> s == Redirect(HomeRedirect(profile))
    // the admin panel checks the session only, never the role
    ensures !loading && session.Some? && MatchPath(path) == AdminRoute ==> s == Render(AdminDashboardPage)
    // with a session, every protected route renders its own page
    ensures !loading && session.Some? && MatchPath(path) != LoginRoute && MatchPath(path) != RootRoute && MatchPath(path) != FallbackRoute
            ==> s == Render(ProtectedPage(MatchPath(path)))
  {
    if loading then Initializing
    else
      match MatchPath(path)
      case LoginRoute => Render(LoginPage)
      case FallbackRoute => Redirect("/")
      case RootRoute => if session.Some? then Redirect(HomeRedirect(profile)) else Redirect("/login")
      case r => if session.Some? then Render(ProtectedPage(r)) else Redirect("/login")
  }

  /** The screen reached from `path` after following at most `hops` redirects. */
  function Follow(session: Option<Session>, profile: Option<Profile>, path: string, hops: nat): Screen
    decreases hops
  {
    var s := App(false, session, profile, path);
    if hops > 0 && s.Redirect? then Follow(session, profile, s.to, hops - 1) else s
  }

  /** Once loading is over every location settles on a page within three
      redirects; without a session that page is the login page, and with one
      it is the login page only when the login page was asked for. */
  lemma {:induction false} NavigationSettles(session: Option<Session>, profile: Option<Profile>, path: string)
    ensures Follow(session, profile, path, 3).Render?
    ensures session.None? ==> Follow(session, profile, path, 3) == Render(LoginPage)
    ensures session.Some? && MatchPath(path) != LoginRoute ==> Follow(session, profile, path, 3) != Render(LoginPage)
  {
    assert MatchPath("/") == RootRoute;
    assert MatchPath("/login") == LoginRoute;
    assert MatchPath("/admin") == AdminRoute;
    assert MatchPath("/dashboard") == DashboardRoute;
    var s := App(false, session, profile, path);
    if s.Redirect? {
      var s1 := App(false, session, profile, s.to);
      if s1.Redirect? {
        var s2 := App(false, session, profile, s1.to);
        assert !s2.Redirect?;
      }
    }
  }

  /** A signed-in administrator or aggregator arriving at `/` ends on the admin
      panel, and a buyer on the buyer dashboard. */
  lemma HomeLandsByRole(session: Session, role: Role)
    ensures role != Buyer ==> Follow(Some(session), Some(Profile(role)), "/", 1) == Render(AdminDashboardPage)
    ensures role == Buyer ==> Follow(Some(session), Some(Profile(role)), "/", 1) == Render(BuyerDashboardPage)
  {
    assert MatchPath("/") == RootRoute;
    assert MatchPath("/admin") == AdminRoute;
    assert MatchPath("/dashboard") == DashboardRoute;
  }

  /** Any signed-in user who types `/admin` gets the admin panel, a buyer too. */
  lemma AdminPanelOpenToEverySession(session: Session, profile: Option<Profile>)
    ensures Follow(Some(session), profile, "/admin", 3) == Render(AdminDashboardPage)
  {
    assert MatchPath("/admin") == AdminRoute;
  }
}
