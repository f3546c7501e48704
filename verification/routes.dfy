/**
 Route tokens of the single-page app and their static classification.
 A route is a plain string: the store accepts any token, and a token that is
 neither public nor developed falls through to the workspace placeholder.
 */
module Routes {

  type Route = string

  const LandingRoute: Route := "landing"
  const LoginRoute: Route := "login"
  const DashboardRoute: Route := "dashboard"

  /** Routes drawn inside the marketing chrome (App.jsx line 775). */
  const PublicRoutes: seq<Route> := ["landing", "documentation", "login", "about", "pricing"]

  /** Routes the access guard protects (App.jsx line 63). */
  const GuardedRoutes: seq<Route> := ["dashboard", "tasks", "boards", "calendar", "analytics", "team"]

  /** Internal routes that have a module of their own (App.jsx line 882). */
  const DevelopedRoutes: seq<Route> := ["dashboard", "tasks", "boards", "analytics", "team"]

  predicate IsPublic(r: Route) {
    r in PublicRoutes
  }

  predicate IsGuarded(r: Route) {
    r in GuardedRoutes
  }

  predicate IsDeveloped(r: Route) {
    r in DevelopedRoutes
  }

  /** The closed enumeration of tokens that some control of the app emits. */
  predicate IsKnown(r: Route) {
    IsPublic(r) || IsGuarded(r)
  }

  /** No token is both public and guarded. Since a known token is by definition
      public or guarded, it follows that every known token is exactly one of the two. */
  lemma ClassificationPartitionsKnownRoutes(r: Route)
    ensures !(IsPublic(r) && IsGuarded(r))
    ensures IsKnown(r) ==> (IsPublic(r) <==> !IsGuarded(r))
  {
  }

  /** Every developed module is a guarded route; "calendar" is the one guarded route without a module. */
  lemma DevelopedRoutesAreGuarded(r: Route)
    ensures IsDeveloped(r) ==> IsGuarded(r)
    ensures IsGuarded(r) && !IsDeveloped(r) <==> r == "calendar"
  {
  }
}
