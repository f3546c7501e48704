/**
 The application store (`useAppStore` in App.jsx): the session, the route, the
 theme and the transient flags, together with one function per intent the store
 exposes and per timer callback it schedules.

 Each function is one atomic step: the handler's state updates, then the access
 guard effect settling. The effect runs after a commit that changes
 `currentRoute` or `user`. The model applies the guard after every intent that
 writes one of them, which is the same on states that satisfy the access rule,
 since the guard leaves exactly those states unchanged.
 */
module Session {
  import opened Wrappers
  import opened Routes

  datatype User = User(id: string, name: string, email: string, avatar: string)

  datatype Theme = Light | Dark

  /** Screen coordinates, modelled as integers. */
  datatype Point = Point(x: int, y: int)

  datatype State = State(
    user: Option<User>,
    theme: Theme,
    isSidebarOpen: bool,
    currentRoute: Route,
    isLoading: bool,
    isTransitioning: bool,
    transitionOrigin: Point,
    // login callbacks scheduled and not yet run, oldest first, each with the email it captured
    pendingLogins: seq<string>,
    // theme-transition callbacks scheduled and not yet run
    pendingClears: nat
  )

  /** The access rule: a guarded route is only ever current with a user signed in. */
  predicate Authorized(s: State) {
    IsGuarded(s.currentRoute) ==> s.user.Some?
  }

  /** What holds of every state the store can reach: the access rule, and each
      in-flight flag backed by a callback that will still clear it. */
  predicate Consistent(s: State) {
    && Authorized(s)
    && (s.isLoading ==> |s.pendingLogins| > 0)
    && (s.isTransitioning ==> s.pendingClears > 0)
  }

  /** The store's initial values (App.jsx lines 53-59); no callback is scheduled yet. */
  function Init(): (s: State)
    ensures Consistent(s)
    ensures s.user.None? && IsPublic(s.currentRoute)
    ensures s.currentRoute == LandingRoute && s.theme == Light && s.isSidebarOpen
    ensures !s.isLoading && !s.isTransitioning && s.transitionOrigin == Point(0, 0)
    ensures s.pendingLogins == [] && s.pendingClears == 0
  {
    State(None, Light, true, LandingRoute, false, false, Point(0, 0), [], 0)
  }

  /** The route-protection effect: redirect to the login route when a guarded
      route is current and nobody is signed in. */
  function Guard(s: State): (r: State)
    ensures Authorized(r)
    ensures r == s <==> Authorized(s)
    ensures r == s.(currentRoute := r.currentRoute)
    ensures r.currentRoute == s.currentRoute || r.currentRoute == LoginRoute
  {
    if IsGuarded(s.currentRoute) && s.user.None? then s.(currentRoute := LoginRoute) else s
  }

  lemma GuardIdempotent(s: State)
    ensures Guard(Guard(s)) == Guard(s)
  {
  }

  /** `setCurrentRoute(route)`, followed by the guard. */
  function SetCurrentRoute(s: State, route: Route): (r: State)
    ensures Authorized(r)
    ensures r == s.(currentRoute := r.currentRoute)
    ensures s.user.Some? || !IsGuarded(route) ==> r.currentRoute == route
    ensures s.user.None? && IsGuarded(route) ==> r.currentRoute == LoginRoute
    ensures Consistent(s) ==> Consistent(r)
  {
    Guard(s.(currentRoute := route))
  }

  /** `login(email)`: raises the loading flag and schedules the completion callback. */
  function Login(s: State, email: string): (r: State)
    ensures r.isLoading
    ensures r.user == s.user && r.currentRoute == s.currentRoute
    ensures r.pendingLogins == s.pendingLogins + [email]
    ensures r == s.(isLoading := r.isLoading, pendingLogins := r.pendingLogins)
    ensures Consistent(s) ==> Consistent(r)
  {
    s.(isLoading := true, pendingLogins := s.pendingLogins + [email])
  }

  /** The user record a completed login creates. */
  function SignedInUser(email: string): User {
    User("u1", "Naman Aggarwal", email, "NA")
  }

  /** The callback `login` scheduled, firing: the oldest pending one, carrying
      its captured email. It signs in, moves to the dashboard and lowers the
      loading flag in one step, whatever happened since it was scheduled. */
  function LoginTimeout(s: State, email: string): (r: State)
    requires |s.pendingLogins| > 0 && s.pendingLogins[0] == email
    ensures r.user == Some(User("u1", "Naman Aggarwal", email, "NA"))
    ensures r.currentRoute == DashboardRoute
    ensures !r.isLoading
    ensures r.pendingLogins == s.pendingLogins[1..]
    ensures r == s.(user := r.user, currentRoute := r.currentRoute, isLoading := false, pendingLogins := r.pendingLogins)
    ensures Consistent(s) ==> Consistent(r)
  {
    Guard(s.(user := Some(SignedInUser(email)), currentRoute := DashboardRoute,
             isLoading := false, pendingLogins := s.pendingLogins[1..]))
  }

  /** `logout()`: ends the session and returns to the landing page, from any route. */
  function Logout(s: State): (r: State)
    ensures r.user.None?
    ensures r.currentRoute == LandingRoute
    ensures r == s.(user := None, currentRoute := LandingRoute)
    ensures Consistent(s) ==> Consistent(r)
  {
    Guard(s.(user := None, currentRoute := LandingRoute))
  }

  /** JavaScript's `v || fallback` on a coordinate that may be missing: a missing or zero coordinate gives the fallback. */
  function OrElse(v: Option<int>, fallback: int): int {
    if v.Some? && v.value != 0 then v.value else fallback
  }

  /** `toggleTheme(e)`: swaps the theme, opens the transition window at the
      pointer (or the viewport centre) and schedules the callback closing it. */
  function ToggleTheme(s: State, pointer: Option<Point>, centre: Point): (r: State)
    ensures r.theme != s.theme
    ensures r.isTransitioning
    ensures r.pendingClears == s.pendingClears + 1
    ensures pointer.Some? && pointer.value.x != 0 ==> r.transitionOrigin.x == pointer.value.x
    ensures pointer.Some? && pointer.value.y != 0 ==> r.transitionOrigin.y == pointer.value.y
    ensures pointer.None? || pointer.value.x == 0 ==> r.transitionOrigin.x == centre.x
    ensures pointer.None? || pointer.value.y == 0 ==> r.transitionOrigin.y == centre.y
    ensures r == s.(theme := r.theme, isTransitioning := true, transitionOrigin := r.transitionOrigin,
                    pendingClears := r.pendingClears)
    ensures Consistent(s) ==> Consistent(r)
  {
    var x := OrElse(if pointer.Some? then Some(pointer.value.x) else None, centre.x);
    var y := OrElse(if pointer.Some? then Some(pointer.value.y) else None, centre.y);
    s.(transitionOrigin := Point(x, y),
       isTransitioning := true,
       theme := if s.theme == Light then Dark else Light,
       pendingClears := s.pendingClears + 1)
  }

  /** A callback `toggleTheme` scheduled, firing: it closes the transition
      window unconditionally, even when a later toggle opened it again. */
  function TransitionTimeout(s: State): (r: State)
    requires s.pendingClears > 0
    ensures !r.isTransitioning
    ensures r.pendingClears == s.pendingClears - 1
    ensures r == s.(isTransitioning := false, pendingClears := r.pendingClears)
    ensures Consistent(s) ==> Consistent(r)
  {
    s.(isTransitioning := false, pendingClears := s.pendingClears - 1)
  }

  /** `enterCore()`: the dashboard for a signed-in user, the login page
      otherwise, regardless of the current route. */
  function EnterCore(s: State): (r: State)
    ensures s.user.Some? ==> r.currentRoute == DashboardRoute
    ensures s.user.None? ==> r.currentRoute == LoginRoute
    ensures r == s.(currentRoute := r.currentRoute)
    ensures Consistent(s) ==> Consistent(r)
  {
    SetCurrentRoute(s, if s.user.Some? then DashboardRoute else LoginRoute)
  }

  /** The header button `setIsSidebarOpen(!isSidebarOpen)`. */
  function ToggleSidebar(s: State): (r: State)
    ensures r.isSidebarOpen != s.isSidebarOpen
    ensures r == s.(isSidebarOpen := r.isSidebarOpen)
    ensures Consistent(s) ==> Consistent(r)
  {
    s.(isSidebarOpen := !s.isSidebarOpen)
  }
}
