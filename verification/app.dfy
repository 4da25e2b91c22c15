/**
 * The application shell (src/App.tsx): the signed-in role, which is the only state the app
 * holds, and the decision each route makes from it: render a page inside the layout, show
 * the login screen, or redirect.
 */
module App {
  import opened Wrappers

  /** `UserRole` without its `null`; the missing role is `None`. */
  datatype Role = Admin | Foreman | Owner

  /** The routes of the router; a path parameter is carried as a string. */
  datatype Route =
    | LoginRoute
    | Home
    | Jobs
    | JobDetail(id: string)
    | AppointmentOf(jobId: string)
    | FilesOf(jobId: string)
    | QuotationOf(jobId: string)
    | PaymentOf(jobId: string)
    | ForemanOf(jobId: string)

  /** The page components a route may place inside the layout. */
  datatype Page =
    | DashboardPage
    | JobListPage
    | JobDetailPage(id: string)
    | AppointmentPage(jobId: string)
    | FilesPage(jobId: string)
    | QuotationPage(jobId: string)
    | PaymentPage(jobId: string)
    | ForemanPage(jobId: string)

  /**
   * What a route's element evaluates to: the bare login screen, a page inside the layout
   * (which is handed the role), or a `Navigate` to another route.
   */
  datatype Outcome = LoginScreen | InLayout(role: Role, page: Page) | Redirect(to: Route)

  /** The element of a route guarded by `userRole ? … : <Navigate to="/login">`. */
  function SignedInOnly(userRole: Option<Role>, page: Page): Outcome {
    if userRole.Some? then InLayout(userRole.value, page) else Redirect(LoginRoute)
  }

  /** The element each route of the router yields for the current role. */
  function Resolve(route: Route, userRole: Option<Role>): (r: Outcome)
    ensures r.InLayout? ==> userRole == Some(r.role)
    ensures r.Redirect? ==> r.to == if route.LoginRoute? then Home else LoginRoute
    ensures r.LoginScreen? <==> route.LoginRoute? && userRole.None?
  {
    match route
    case LoginRoute => if userRole.Some? then Redirect(Home) else LoginScreen
    case Home => SignedInOnly(userRole, DashboardPage)
    case Jobs => SignedInOnly(userRole, JobListPage)
    case JobDetail(id) => SignedInOnly(userRole, JobDetailPage(id))
    case AppointmentOf(j) => SignedInOnly(userRole, AppointmentPage(j))
    case FilesOf(j) => SignedInOnly(userRole, FilesPage(j))
    case QuotationOf(j) => SignedInOnly(userRole, QuotationPage(j))
    case PaymentOf(j) => SignedInOnly(userRole, PaymentPage(j))
    case ForemanOf(j) =>
      if userRole == Some(Foreman) || userRole == Some(Admin) then InLayout(userRole.value, ForemanPage(j))
      else Redirect(LoginRoute)
  }

  /** The page a signed-in user with sufficient rights sees at a route; `/login` has none. */
  function PageAt(route: Route): Option<Page> {
    match route
    case LoginRoute => None
    case Home => Some(DashboardPage)
    case Jobs => Some(JobListPage)
    case JobDetail(id) => Some(JobDetailPage(id))
    case AppointmentOf(j) => Some(AppointmentPage(j))
    case FilesOf(j) => Some(FilesPage(j))
    case QuotationOf(j) => Some(QuotationPage(j))
    case PaymentOf(j) => Some(PaymentPage(j))
    case ForemanOf(j) => Some(ForemanPage(j))
  }

  /** Without a role every route but `/login` redirects to `/login`. */
  lemma SignedOutRedirectsToLogin(route: Route)
    requires !route.LoginRoute?
    ensures Resolve(route, None) == Redirect(LoginRoute)
  {
  }

  /** With any role, every route other than `/login` and the foreman page renders its page. */
  lemma SignedInRendersOrdinaryRoutes(route: Route, role: Role)
    requires !route.LoginRoute? && !route.ForemanOf?
    ensures Resolve(route, Some(role)) == InLayout(role, PageAt(route).value)
  {
  }

  /** The foreman page renders exactly for a foreman or an admin; anyone else goes to `/login`. */
  lemma ForemanPageGate(jobId: string, userRole: Option<Role>)
    ensures Resolve(ForemanOf(jobId), userRole).InLayout? <==> userRole == Some(Foreman) || userRole == Some(Admin)
    ensures !Resolve(ForemanOf(jobId), userRole).InLayout? ==> Resolve(ForemanOf(jobId), userRole) == Redirect(LoginRoute)
  {
  }

  /** `/login` shows the login screen only when signed out, and sends a signed-in user home. */
  lemma LoginRouteOutcome(userRole: Option<Role>)
    ensures Resolve(LoginRoute, userRole) == if userRole.Some? then Redirect(Home) else LoginScreen
  {
  }

  /** Whatever renders inside the layout is the page that belongs to the route. */
  lemma LayoutShowsTheRoutesPage(route: Route, userRole: Option<Role>)
    ensures Resolve(route, userRole).InLayout? ==> PageAt(route) == Some(Resolve(route, userRole).page)
  {
  }

  /** Follow `Navigate`s from a route, at most `hops` of them. */
  function Follow(route: Route, userRole: Option<Role>, hops: nat): (r: Outcome)
    ensures r.Redirect? ==> r.to == Home || r.to == LoginRoute
    ensures r.InLayout? ==> userRole == Some(r.role)
    decreases hops
  {
    var first := Resolve(route, userRole);
    if first.Redirect? && hops > 0 then Follow(first.to, userRole, hops - 1) else first
  }

  /**
   * Redirects never loop: from any route two hops reach a screen. Signed out, that screen
   * is the login screen; signed in, it is a page in the layout.
   */
  lemma {:induction false} RedirectsSettle(route: Route, userRole: Option<Role>)
    ensures !Follow(route, userRole, 2).Redirect?
    ensures userRole.None? ==> Follow(route, userRole, 2) == LoginScreen
    ensures userRole.Some? ==> Follow(route, userRole, 2).InLayout?
  {
    var first := Resolve(route, userRole);
    if first.Redirect? {
      var second := Resolve(first.to, userRole);
      assert Follow(route, userRole, 2) == Follow(first.to, userRole, 1);
      if second.Redirect? {
        assert Follow(first.to, userRole, 1) == Follow(second.to, userRole, 0);
        assert Follow(second.to, userRole, 0) == Resolve(second.to, userRole);
      }
    }
  }

  /** An owner who opens the foreman page bounces via `/login` onto the dashboard. */
  lemma OwnerAtForemanPageLandsOnDashboard(jobId: string)
    ensures Follow(ForemanOf(jobId), Some(Owner), 2) == InLayout(Owner, DashboardPage)
  {
    assert Follow(ForemanOf(jobId), Some(Owner), 2) == Follow(LoginRoute, Some(Owner), 1);
    assert Follow(LoginRoute, Some(Owner), 1) == Follow(Home, Some(Owner), 0);
  }

  /** The `userRole` state of `App`, set by the login page and cleared by the layout's logout. */
  class Session {
    var userRole: Option<Role>

    constructor ()
      ensures userRole == None
    {
      userRole := None;
    }

    /** The route's outcome under the current role. */
    function Current(route: Route): Outcome
      reads this
    {
      Resolve(route, userRole)
    }

    /** `onLogin={setUserRole}`. */
    method LogIn(role: Role)
      modifies this
      ensures userRole == Some(role)
      ensures Current(LoginRoute) == Redirect(Home)
    {
      userRole := Some(role);
    }

    /** `onLogout={() => setUserRole(null)}`: afterwards every protected route redirects to `/login`. */
    method LogOut()
      modifies this
      ensures userRole == None
      ensures forall route: Route :: !route.LoginRoute? ==> Current(route) == Redirect(LoginRoute)
    {
      userRole := None;
    }
  }
}
