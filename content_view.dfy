/** The root of the app in ContentView.swift: the screen shown for the session
    held by the store, and the screen each AuthRoute of AuthRoute.swift pushes. */
module ContentView {
  import opened Swift
  import opened Models
  import Transitions

  /** The screens the navigation stack can show. */
  datatype Screen =
    | CheckingAuthentication  // the "Checking authentication..." progress view
    | LandingPage
    | LoginView
    | SignupView
    | StudentDashboard
    | AdminDashboard
    | EngineerDashboard

  /** The routes pushed on the navigation path. */
  datatype AuthRoute = Login | Signup | AdminDashboardRoute | StudentDashboardRoute | EngineerDashboardRoute

  /** The dashboard of a role, when the role has one. */
  function RoleDashboard(role: string): (screen: Option<Screen>)
    ensures screen == Some(StudentDashboard) <==> role == "student"
    ensures screen == Some(AdminDashboard) <==> role == "admin"
    ensures screen == Some(EngineerDashboard) <==> role == "engineer"
    ensures screen.None? <==> role != "student" && role != "admin" && role != "engineer"
  {
    if role == "student" then Some(StudentDashboard)
    else if role == "admin" then Some(AdminDashboard)
    else if role == "engineer" then Some(EngineerDashboard)
    else None
  }

  /** The root of the stack: the progress view while the session is being
      checked, whatever else holds; then the dashboard of the signed-in user's
      role; the landing page when signed out, when no user is held, or when the
      role is none of the three. */
  function RootScreen(isCheckingAuth: bool, isAuthenticated: bool, user: Option<User>): (screen: Screen)
    ensures isCheckingAuth <==> screen == CheckingAuthentication
    ensures screen in {StudentDashboard, AdminDashboard, EngineerDashboard} ==>
      isAuthenticated && user.Some? && RoleDashboard(user.value.role) == Some(screen)
    ensures !isCheckingAuth && isAuthenticated && user.Some? && RoleDashboard(user.value.role).Some? ==>
      screen == RoleDashboard(user.value.role).value
    ensures !isCheckingAuth && !isAuthenticated ==> screen == LandingPage
    ensures screen != LoginView && screen != SignupView
  {
    if isCheckingAuth then CheckingAuthentication
    else if isAuthenticated then
      match user
      case Some(u) => RoleDashboard(u.role).GetOr(LandingPage)
      case None => LandingPage
    else LandingPage
  }

  /** The root screen for a store state. */
  function Root(s: Transitions.SessionState): Screen
  {
    RootScreen(s.isCheckingAuth, s.isAuthenticated, s.user)
  }

  /** The screen a pushed route shows. */
  function Destination(route: AuthRoute): (screen: Screen)
    ensures screen != CheckingAuthentication && screen != LandingPage
    ensures route == Login <==> screen == LoginView
    ensures route == Signup <==> screen == SignupView
    ensures route == AdminDashboardRoute <==> screen == AdminDashboard
    ensures route == StudentDashboardRoute <==> screen == StudentDashboard
    ensures route == EngineerDashboardRoute <==> screen == EngineerDashboard
  {
    match route
    case Login => LoginView
    case Signup => SignupView
    case AdminDashboardRoute => AdminDashboard
    case StudentDashboardRoute => StudentDashboard
    case EngineerDashboardRoute => EngineerDashboard
  }

  /** Different routes push different screens. */
  lemma DestinationInjective(a: AuthRoute, b: AuthRoute)
    requires Destination(a) == Destination(b)
    ensures a == b
  {
  }

  /** Every screen but the progress view and the landing page is pushed by
      some route. */
  lemma DestinationCoversScreens(screen: Screen)
    requires screen != CheckingAuthentication && screen != LandingPage
    ensures exists route :: Destination(route) == screen
  {
    var route := match screen
      case LoginView => Login
      case SignupView => Signup
      case AdminDashboard => AdminDashboardRoute
      case StudentDashboard => StudentDashboardRoute
      case _ => EngineerDashboardRoute;
    assert Destination(route) == screen;
  }

  /** The three dashboard routes push the dashboards the root picks for the
      "admin", "student" and "engineer" roles. */
  lemma DashboardRoutesMatchRoles()
    ensures Destination(AdminDashboardRoute) == RoleDashboard("admin").value
    ensures Destination(StudentDashboardRoute) == RoleDashboard("student").value
    ensures Destination(EngineerDashboardRoute) == RoleDashboard("engineer").value
  {
  }

  /** The app opens on the progress view. */
  lemma StartsCheckingAuthentication()
    ensures Root(Transitions.Initial()) == CheckingAuthentication
  {
  }

  /** When the session check ends, the root leaves the progress view: a reply
      that signs in opens the dashboard of the returned user's role (the landing
      page for any other role), anything else opens the landing page. */
  lemma RootAfterCheckAuth(s: Transitions.SessionState, reply: AuthReply)
    ensures var t := Transitions.CheckAuth(s, reply);
      Root(t) == if Accepted(reply) then RoleDashboard(reply.response.user.value.role).GetOr(LandingPage)
                 else LandingPage
  {
  }

  /** A login or signup that signs in, outside the session check, opens the
      dashboard of the new user's role; one that does not leaves the root as it
      was. */
  lemma RootAfterAuthenticate(s: Transitions.SessionState, reply: AuthReply, successMessage: string)
    requires !s.isCheckingAuth
    ensures var t := Transitions.Authenticate(s, reply, successMessage);
      && (Accepted(reply) ==> Root(t) == RoleDashboard(reply.response.user.value.role).GetOr(LandingPage))
      && (!Accepted(reply) ==> Root(t) == Root(s))
  {
  }

  /** A delivered logout, outside the session check, returns to the landing
      page; an undelivered one leaves the root as it was. */
  lemma RootAfterLogout(s: Transitions.SessionState, delivery: Delivery)
    requires !s.isCheckingAuth
    ensures var t := Transitions.Logout(s, delivery);
      Root(t) == if delivery == Delivered then LandingPage else Root(s)
  {
  }
}
