/**
 The store as a closed state machine: every way the state can change is an
 event, timer callbacks included. A timer event can only occur after its
 callback was scheduled, since neither `setTimeout` in the store is ever
 cancelled.
 */
module Machine {
  import opened Wrappers
  import opened Routes
  import S = Session

  datatype Event =
    | Navigate(route: Route)          // every `setCurrentRoute` call site
    | Login(email: string)
    | LoginTimerFired(email: string)
    | Logout
    | ToggleTheme(pointer: Option<S.Point>, centre: S.Point)
    | TransitionTimerFired
    | ToggleSidebar
    | EnterCore

  /** Whether the event can occur in state `s`: a timer fires only if it is pending,
      and login callbacks, sharing one delay, fire in the order they were scheduled. */
  predicate Enabled(s: S.State, e: Event) {
    match e
    case LoginTimerFired(email) => |s.pendingLogins| > 0 && s.pendingLogins[0] == email
    case TransitionTimerFired => s.pendingClears > 0
    case _ => true
  }

  function Step(s: S.State, e: Event): (r: S.State)
    requires Enabled(s, e)
    ensures S.Consistent(s) ==> S.Consistent(r)
    ensures e.Navigate? || e.LoginTimerFired? || e.Logout? || e.EnterCore? ==> S.Authorized(r)
    // only a completed login creates a session, only logout ends one
    ensures s.user.None? && r.user.Some? ==> e.LoginTimerFired?
    ensures s.user.Some? && r.user.None? ==> e.Logout?
    // only the route intents, a login completion and logout move the route
    ensures r.currentRoute != s.currentRoute ==> e.Navigate? || e.LoginTimerFired? || e.Logout? || e.EnterCore?
    // only a toggle changes the theme
    ensures r.theme != s.theme <==> e.ToggleTheme?
  {
    match e
    case Navigate(route) => S.SetCurrentRoute(s, route)
    case Login(email) => S.Login(s, email)
    case LoginTimerFired(email) => S.LoginTimeout(s, email)
    case Logout => S.Logout(s)
    case ToggleTheme(pointer, centre) => S.ToggleTheme(s, pointer, centre)
    case TransitionTimerFired => S.TransitionTimeout(s)
    case ToggleSidebar => S.ToggleSidebar(s)
    case EnterCore => S.EnterCore(s)
  }

  /** The state after the events in order, or None if one of them could not occur. */
  function Run(s: S.State, es: seq<Event>): (r: Option<S.State>)
    ensures S.Consistent(s) && r.Some? ==> S.Consistent(r.value)
    ensures |es| == 0 ==> r == Some(s)
    decreases |es|
  {
    if |es| == 0 then Some(s)
    else if Enabled(s, es[0]) then Run(Step(s, es[0]), es[1..])
    else None
  }

  /** Every state reachable from the initial one satisfies the access rule: a
      guarded route is current only with a user signed in. */
  lemma ReachableIsAuthorized(es: seq<Event>, t: S.State)
    requires Run(S.Init(), es) == Some(t)
    ensures IsGuarded(t.currentRoute) ==> t.user.Some?
    ensures t.isLoading ==> |t.pendingLogins| > 0
    ensures t.isTransitioning ==> t.pendingClears > 0
  {
  }

  /** A logout while a login is pending does not cancel it: the callback still
      signs the user in and moves to the dashboard. */
  lemma LogoutDoesNotCancelPendingLogin(s: S.State, email: string)
    requires s.pendingLogins == []
    ensures Run(s, [Login(email), Logout, LoginTimerFired(email)]).Some?
    ensures var t := Run(s, [Login(email), Logout, LoginTimerFired(email)]).value;
            && t.user == Some(S.User("u1", "Naman Aggarwal", email, "NA"))
            && t.currentRoute == DashboardRoute
            && !t.isLoading
  {
    var t1 := Step(s, Login(email));
    var t2 := Step(t1, Logout);
    assert t2.pendingLogins == [email];
    assert Run(s, [Login(email), Logout, LoginTimerFired(email)])
        == Run(t2, [LoginTimerFired(email)]);
  }

  /** Two toggles restore the theme, whatever the pointer and viewport. */
  lemma ToggleTwiceRestoresTheme(s: S.State, p1: Option<S.Point>, c1: S.Point, p2: Option<S.Point>, c2: S.Point)
    ensures Step(Step(s, ToggleTheme(p1, c1)), ToggleTheme(p2, c2)).theme == s.theme
  {
  }

  /** The callback of the first of two quick toggles closes the window the
      second one opened, while the second callback is still pending. */
  lemma StaleClearEndsNewerTransition(s: S.State, p1: Option<S.Point>, p2: Option<S.Point>, c: S.Point)
    requires s.pendingClears == 0
    ensures Run(s, [ToggleTheme(p1, c), ToggleTheme(p2, c), TransitionTimerFired]).Some?
    ensures var t := Run(s, [ToggleTheme(p1, c), ToggleTheme(p2, c), TransitionTimerFired]).value;
            && !t.isTransitioning
            && t.pendingClears == 1
            && t.theme == s.theme
  {
    var t2 := Step(Step(s, ToggleTheme(p1, c)), ToggleTheme(p2, c));
    assert Run(s, [ToggleTheme(p1, c), ToggleTheme(p2, c), TransitionTimerFired])
        == Run(t2, [TransitionTimerFired]);
  }
}
