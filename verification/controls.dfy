/**
 The controls through which the rendered screens call the store (the sidebar,
 the top navigation, the landing hero, the login card and the workspace
 header), which screen shows each of them, and the event each click raises.
 */
module Controls {
  import opened Wrappers
  import opened Routes
  import opened Machine
  import opened Screens
  import S = Session

  datatype Control =
    | SidebarLogo                                   // back to the landing page
    | SidebarItem(index: nat)                       // one entry of the sidebar menu
    | SignOut
    | SidebarToggle                                 // header button collapsing the sidebar
    | NavLogo
    | NavLink(caption: string)                        // About, Pricing, Documentation
    | Launch                                        // "Launch" / "Dashboard" button of the navigation
    | ThemeButton(pointer: Option<S.Point>, centre: S.Point)
    | EnterCoreButton
    | AboutButton
    | BypassLogin                                   // the login card's submit button
    | AbortLogin

  /** The sidebar's menu ids, in order. */
  const SidebarMenu: seq<Route> := ["dashboard", "tasks", "boards", "calendar", "analytics", "team"]

  /** The navigation's link labels; each link routes to its lower-cased caption. */
  const NavLabels: seq<string> := ["About", "Pricing", "Documentation"]

  /** The email the login card submits; the form's fields are never read. */
  const DemoEmail: string := "naman@syncro.io"

  function LowerChar(c: char): char {
    if 'A' <= c <= 'Z' then (c as int + 32) as char else c
  }

  /** `String.prototype.toLowerCase` on ASCII text: no upper-case letter is
      left, each upper-case letter becomes the lower-case letter at the same
      position in the alphabet, and every other character is kept. */
  function LowerAscii(s: string): (r: string)
    ensures |r| == |s|
    ensures forall i :: 0 <= i < |r| ==> !('A' <= r[i] <= 'Z')
    ensures forall i :: 0 <= i < |s| && 'A' <= s[i] <= 'Z' ==>
              'a' <= r[i] <= 'z' && r[i] as int - 'a' as int == s[i] as int - 'A' as int
    ensures forall i :: 0 <= i < |s| && !('A' <= s[i] <= 'Z') ==> r[i] == s[i]
  {
    seq(|s|, i requires 0 <= i < |s| => LowerChar(s[i]))
  }

  /** Whether the screen rendered for `s` shows the control: the sidebar and
      header controls belong to the workspace, the navigation to the public
      layout, the hero buttons to the landing page and the card to the login page. */
  function Visible(s: S.State, c: Control): (v: bool)
    ensures v ==> !Render(s).layout.Blank?
    ensures v && (c.SidebarLogo? || c.SidebarItem? || c.SignOut? || c.SidebarToggle?) ==>
              s.user.Some? && !IsPublic(s.currentRoute)
    ensures v && (c.NavLogo? || c.NavLink? || c.Launch?) ==> IsPublic(s.currentRoute)
    ensures v && (c.EnterCoreButton? || c.AboutButton?) ==> s.currentRoute == LandingRoute
    ensures v && (c.BypassLogin? || c.AbortLogin?) ==> s.currentRoute == LoginRoute
  {
    var layout := Render(s).layout;
    match c
    case SidebarLogo | SignOut | SidebarToggle => layout.Workspace?
    case SidebarItem(i) => layout.Workspace? && i < |SidebarMenu|
    case NavLogo | Launch => layout.PublicLayout?
    case NavLink(caption) => layout.PublicLayout? && caption in NavLabels
    case ThemeButton(_, _) => !layout.Blank?
    case EnterCoreButton | AboutButton => layout == PublicLayout(LandingPage)
    case BypassLogin | AbortLogin => layout == PublicLayout(LoginPage)
  }

  /** The event a click on a visible control raises. */
  function Intent(s: S.State, c: Control): (e: Event)
    requires Visible(s, c)
    ensures FromInterface(e)
    ensures e.Login? ==> e.email == DemoEmail
    ensures c.SidebarItem? ==> e == Navigate(SidebarMenu[c.index])
  {
    match c
    case SidebarLogo => Navigate(LandingRoute)
    case SidebarItem(i) => Navigate(SidebarMenu[i])
    case SignOut => Logout
    case SidebarToggle => ToggleSidebar
    case NavLogo => Navigate(LandingRoute)
    case NavLink(caption) => NavLinksArePublic(caption); Navigate(LowerAscii(caption))
    case Launch => Navigate(if s.user.Some? then DashboardRoute else LoginRoute)
    case ThemeButton(pointer, centre) => ToggleTheme(pointer, centre)
    case EnterCoreButton => EnterCore
    case AboutButton => Navigate("about")
    case BypassLogin => Login(DemoEmail)
    case AbortLogin => Navigate(LandingRoute)
  }

  /** The navigation links lead to the about, pricing and documentation pages. */
  lemma NavLinksArePublic(caption: string)
    requires caption in NavLabels
    ensures IsPublic(LowerAscii(caption))
    ensures LowerAscii(caption) in ["about", "pricing", "documentation"]
  {
    if caption == "About" {
      LowerAsciiOfLiteral("About", "about");
    } else if caption == "Pricing" {
      LowerAsciiOfLiteral("Pricing", "pricing");
    } else {
      LowerAsciiOfLiteral("Documentation", "documentation");
    }
  }

  lemma LowerAsciiOfLiteral(s: string, t: string)
    requires |s| == |t| && forall i :: 0 <= i < |s| ==> LowerChar(s[i]) == t[i]
    ensures LowerAscii(s) == t
  {
  }

  /** The sidebar offers exactly the guarded routes. */
  lemma SidebarMenuIsGuardedList()
    ensures forall r :: r in SidebarMenu <==> IsGuarded(r)
  {
  }

  /** The navigation's launch button behaves as `enterCore` does. */
  lemma LaunchIsEnterCore(s: S.State)
    requires Visible(s, Launch)
    ensures Step(s, Intent(s, Launch)) == Step(s, EnterCore)
  {
  }

  /** The sidebar is only drawn for a signed-in user, so its entries are never
      redirected: each one opens its own route inside the workspace. */
  lemma SidebarItemOpensItsRoute(s: S.State, i: nat)
    requires Visible(s, SidebarItem(i))
    ensures Step(s, Intent(s, SidebarItem(i))).currentRoute == SidebarMenu[i]
    ensures Render(Step(s, Intent(s, SidebarItem(i)))).layout.Workspace?
  {
  }

  /** Events the user interface raises: clicks route only to known tokens. */
  predicate FromInterface(e: Event) {
    e.Navigate? ==> IsKnown(e.route)
  }

  /** Interface events keep the current route within the known enumeration. */
  lemma {:induction false} InterfaceRunKeepsKnownRoute(s: S.State, es: seq<Event>)
    requires IsKnown(s.currentRoute)
    requires forall i :: 0 <= i < |es| ==> FromInterface(es[i])
    requires Run(s, es).Some?
    ensures IsKnown(Run(s, es).value.currentRoute)
    decreases |es|
  {
    if |es| > 0 {
      var t := Step(s, es[0]);
      assert IsKnown(t.currentRoute) by {
        match es[0]
        case Navigate(r) => assert FromInterface(es[0]);
        case _ =>
      }
      assert forall i :: 0 <= i < |es[1..]| ==> FromInterface(es[1..][i]) by {
        forall i | 0 <= i < |es[1..]| ensures FromInterface(es[1..][i]) {
          assert es[1..][i] == es[i + 1];
        }
      }
      InterfaceRunKeepsKnownRoute(t, es[1..]);
    }
  }

  /** Driven through its interface, the app never renders a blank screen. */
  lemma InterfaceNeverRendersBlank(es: seq<Event>, t: S.State)
    requires forall i :: 0 <= i < |es| ==> FromInterface(es[i])
    requires Run(S.Init(), es) == Some(t)
    ensures !Render(t).layout.Blank?
  {
    InterfaceRunKeepsKnownRoute(S.Init(), es);
  }

  /** Through the store itself, an unknown token is not guarded: without a user
      the route is kept and the app renders neither the public nor the internal branch. */
  lemma UnknownRouteRendersBlank(s: S.State, r: Route)
    requires s.user.None? && !IsKnown(r)
    ensures Step(s, Navigate(r)).currentRoute == r
    ensures Render(Step(s, Navigate(r))).layout.Blank?
  {
  }
}
