/**
 Screen selection in `App` (App.jsx lines 775-894): which layout, which page or
 module, and whether the theme-transition overlay is drawn, as a pure function
 of the store's state.
 */
module Screens {
  import opened Wrappers
  import opened Routes
  import S = Session

  datatype PublicPage = LandingPage | AboutPage | PricingPage | DocumentationPage | LoginPage

  /** The workspace modules; `Placeholder` is the "under construction" fallback. */
  datatype Module = Overview | Worklist | Projects | Insights | TeamDirectory | Placeholder

  datatype Layout =
    | PublicLayout(page: PublicPage)   // marketing chrome with the top navigation
    | Workspace(content: Module)       // sidebar, header and one module
    | Blank                            // neither branch is rendered

  datatype View = View(layout: Layout, overlay: Option<S.Point>, dark: bool)

  /** The route token each public page answers to. */
  function PageRoute(p: PublicPage): Route {
    match p
    case LandingPage => "landing"
    case AboutPage => "about"
    case PricingPage => "pricing"
    case DocumentationPage => "documentation"
    case LoginPage => "login"
  }

  /** The route token each developed module answers to. */
  function ModuleRoute(m: Module): Route
    requires m != Placeholder
  {
    match m
    case Overview => "dashboard"
    case Worklist => "tasks"
    case Projects => "boards"
    case Insights => "analytics"
    case TeamDirectory => "team"
  }

  /** The public page drawn for a public route. */
  function PageFor(route: Route): (p: PublicPage)
    requires IsPublic(route)
    ensures PageRoute(p) == route
  {
    if route == "landing" then LandingPage
    else if route == "about" then AboutPage
    else if route == "pricing" then PricingPage
    else if route == "documentation" then DocumentationPage
    else LoginPage
  }

  /** The module drawn inside the workspace: the placeholder for every route
      that is not one of the five developed modules. */
  function ModuleFor(route: Route): (m: Module)
    ensures m == Placeholder <==> !IsDeveloped(route)
    ensures m != Placeholder ==> ModuleRoute(m) == route
  {
    if route == "dashboard" then Overview
    else if route == "tasks" then Worklist
    else if route == "boards" then Projects
    else if route == "analytics" then Insights
    else if route == "team" then TeamDirectory
    else Placeholder
  }

  function Render(s: S.State): (v: View)
    ensures v.layout.PublicLayout? <==> IsPublic(s.currentRoute)
    ensures v.layout.Workspace? <==> !IsPublic(s.currentRoute) && s.user.Some?
    ensures v.layout.Blank? <==> !IsPublic(s.currentRoute) && s.user.None?
    ensures v.layout.PublicLayout? ==> PageRoute(v.layout.page) == s.currentRoute
    ensures v.layout.Workspace? ==> (v.layout.content == Placeholder <==> !IsDeveloped(s.currentRoute))
    ensures v.layout.Workspace? && v.layout.content != Placeholder ==> ModuleRoute(v.layout.content) == s.currentRoute
    ensures v.overlay.Some? <==> s.isTransitioning
    ensures v.overlay.Some? ==> v.overlay.value == s.transitionOrigin
    ensures v.dark <==> s.theme == S.Dark
  {
    var layout :=
      if IsPublic(s.currentRoute) then PublicLayout(PageFor(s.currentRoute))
      else if s.user.Some? then Workspace(ModuleFor(s.currentRoute))
      else Blank;
    View(layout, if s.isTransitioning then Some(s.transitionOrigin) else None, s.theme == S.Dark)
  }

  /** Under the access rule, a known route is never rendered blank; calendar,
      the guarded route without a module, shows the placeholder. */
  lemma AuthorizedKnownRouteIsDrawn(s: S.State)
    requires S.Authorized(s) && IsKnown(s.currentRoute)
    ensures !Render(s).layout.Blank?
    ensures s.currentRoute == "calendar" ==> Render(s).layout == Workspace(Placeholder)
  {
  }
}
