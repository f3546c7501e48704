# Syncro session and navigation controller, in Dafny

Syncro is a single-page React app: a marketing site (landing, about, pricing,
documentation, login) in front of a mock internal workspace (overview,
worklist, projects, insights, team). Its only real logic is the store hook
`useAppStore` and the screen selection in `App`, both in `App.jsx`. This
project models that logic as a closed state machine and proves its invariants.

- `Routes` (routes.dfy): route tokens; the public list, the guarded list and
  the developed-module list, as the source spells them.
- `Session` (session.dfy): the store's state, the access guard, and one
  function per intent: `setCurrentRoute`, `login`, `logout`, `toggleTheme`,
  `enterCore` and the sidebar toggle. The two timer callbacks are functions too.
  Each function is one atomic step, the handler followed by the guard effect.
  The effect runs after a commit that changes `currentRoute` or `user`. The
  model applies the guard after every intent that writes one of them. That is
  the same on states that satisfy the access rule, because the guard leaves
  exactly those states unchanged (`Session.Guard`).
- `Machine` (machine.dfy): the events, including timer firings, with `Step` and
  `Run`. `setTimeout` is never cancelled in the store, so the state counts the
  callbacks still pending. A timer event can occur only while one is pending.
  Login callbacks all use the same delay, so they fire in the order they were
  scheduled, and each carries the email it captured.
- `Screens` (screens.dfy): which layout, page or module, and which overlay the
  app draws for a state.
- `Controls` (controls.dfy): the buttons that call the store, which screen
  shows each one, and the event each click raises.

Two behaviours of `App.jsx` are worth knowing; the model reproduces both.

- Only the six routes listed at App.jsx:63 are guarded. With nobody signed in,
  navigating through the store to an unknown token renders neither layout
  (`Controls.UnknownRouteRendersBlank`). No control in the app emits such a
  token (`Controls.Intent`).
- The clear scheduled at App.jsx:89 is unconditional. Of two quick toggles, the
  first one's callback ends the second one's transition
  (`Machine.StaleClearEndsNewerTransition`).

## Model

| member | source | states |
|---|---|---|
| `Session.Init` | App.jsx:53-59 | The initial store has no user, route `landing` (a public route), theme light, the sidebar open, both flags false, origin (0, 0) and no pending callbacks. It satisfies the consistency invariant. |
| `Session.Guard` | App.jsx:62-67 | After the guard, a guarded route implies a user. The guard changes a state exactly when that state breaks the access rule. It changes only `currentRoute`, and only to `login`. |
| `Session.GuardIdempotent` | App.jsx:62-67 | Applying the guard twice gives the same result as applying it once. |
| `Session.SetCurrentRoute` | App.jsx:56-67 | Navigating changes only the route. The requested route is kept when a user is present or the route is not guarded. Otherwise the result is `login`. |
| `Session.Login` | App.jsx:69-71 | `login` raises `isLoading` and schedules one callback carrying the email. The user, the route and everything else are unchanged. |
| `Session.LoginTimeout` | App.jsx:71-75 | The login callback sets the user `{u1, Naman Aggarwal, email, NA}`, moves to `dashboard` and lowers `isLoading`, all in one step and whatever the route was. Theme, sidebar and transition are unchanged. |
| `Session.Logout` | App.jsx:78-81 | `logout` clears the user and lands on `landing` from any route, and the guard leaves it there. Nothing else changes. |
| `Session.ToggleTheme` | App.jsx:83-89 | `toggleTheme` swaps the theme, sets `isTransitioning` and schedules one clear. Each origin coordinate is the pointer's, or the viewport centre's when there is no event or that coordinate is 0. Nothing else changes. |
| `Session.TransitionTimeout` | App.jsx:89 | The transition callback sets `isTransitioning` to false unconditionally and consumes one pending callback. |
| `Session.EnterCore` | App.jsx:92-95 | `enterCore` goes to `dashboard` with a user and to `login` without one, whatever the prior route. Only the route changes. |
| `Session.ToggleSidebar` | App.jsx:853 | The header button flips `isSidebarOpen` and changes nothing else. |
| `Machine.Step` | App.jsx:52-102 | Every step preserves the consistency invariant. Route- and user-changing events settle the access rule. Only a login callback creates a session and only logout ends one. Only route intents, login completion and logout move the route. The theme changes exactly on a toggle. |
| `Machine.Run` | App.jsx:52-102 | Any run of enabled events from a consistent state ends in a consistent state. |
| `Machine.ReachableIsAuthorized` | App.jsx:62-67 | In every state reachable from the initial one, a guarded route implies a user. Loading implies a pending login, and transitioning implies a pending clear. |
| `Machine.LogoutDoesNotCancelPendingLogin` | App.jsx:69-81 | `login`, then `logout`, then the login callback ends signed in on `dashboard`. The logout does not cancel the pending login. |
| `Machine.ToggleTwiceRestoresTheme` | App.jsx:88 | Two toggles restore the original theme. |
| `Machine.StaleClearEndsNewerTransition` | App.jsx:83-89 | After two quick toggles, the first callback ends the second toggle's transition while the second callback is still pending. |
| `Routes.ClassificationPartitionsKnownRoutes` | App.jsx:775 | The public list (line 775) and the guarded list (line 63) are disjoint. Every known token is in exactly one of them. |
| `Routes.DevelopedRoutesAreGuarded` | App.jsx:882 | Every developed module is a guarded route. `calendar` is the only guarded route without a module. |
| `Screens.PageFor` | App.jsx:802-843 | The public page drawn for a public route answers to that route. |
| `Screens.ModuleFor` | App.jsx:875-888 | The workspace draws the placeholder exactly for routes outside the five developed modules. Any other module answers to its route. |
| `Screens.Render` | App.jsx:775-894 | The public layout is shown exactly for public routes. The workspace is shown exactly for a non-public route with a user, and nothing is drawn otherwise. The page or module matches the route. The overlay is drawn exactly while transitioning, at the recorded origin. The dark class follows the theme. |
| `Screens.AuthorizedKnownRouteIsDrawn` | App.jsx:798-848 | Under the access rule, a known route never renders blank, and `calendar` shows the placeholder. |
| `Controls.Visible` | App.jsx:798-857 | A visible control is never on a blank screen. Sidebar and header controls (lines 543-569, 853) appear only in the workspace, for a signed-in user on a non-public route. Navigation controls (lines 591-625) appear only on public routes. The hero buttons (lines 812, 816) appear only on `landing`, and the login card's buttons (lines 838-839) only on `login`. |
| `Controls.Intent` | App.jsx:541-857 | Every visible control raises an interface event: it navigates only to known tokens. The login card submits the fixed demo email. A sidebar entry navigates to its menu id. |
| `Controls.LowerAscii` | App.jsx:598 | Lower-casing keeps the length and leaves no upper-case letter. Each upper-case letter becomes the lower-case letter at the same alphabet position, and every other character is kept. |
| `Controls.NavLinksArePublic` | App.jsx:597-603 | The lower-cased navigation labels are `about`, `pricing` and `documentation`, all public. |
| `Controls.SidebarMenuIsGuardedList` | App.jsx:525-532 | The sidebar menu holds exactly the guarded routes. |
| `Controls.LaunchIsEnterCore` | App.jsx:625 | The navigation's Launch button has the same effect as `enterCore`. |
| `Controls.SidebarItemOpensItsRoute` | App.jsx:556 | The sidebar is drawn only for a signed-in user, so each entry opens its own route inside the workspace without a redirect. |
| `Controls.InterfaceRunKeepsKnownRoute` | App.jsx:52-102 | Runs of interface events keep the current route within the known tokens. |
| `Controls.InterfaceNeverRendersBlank` | App.jsx:798-848 | Driven through its controls, the app never renders a blank screen from the initial state. |
| `Controls.UnknownRouteRendersBlank` | App.jsx:63 | From any state with nobody signed in, navigating through the store to any unknown token keeps that token as the route and renders neither layout. The guard covers only its six listed routes. |

## Left out

- Presentation components (`MagneticButton`, `SmoothCard`, `Badge`, the workspace views, `AboutPage`, `PricingPage`, `FinalCreditFooter`): static markup with no state.
- `MagneticButton`'s cursor offsets, framer-motion springs, the clip-path sweep and CSS: rendering only.
- Timer durations (1000 ms, 900 ms): timers are events that may fire whenever their callback is pending. Wall-clock time is not modelled.
- `window.innerWidth / 2` and `innerHeight / 2`: the viewport centre is an integer point carried by the toggle event. A fractional half-pixel and a `NaN` coordinate are not modelled.
- `DocumentationPage`'s local `activeTab` state: UI-local, outside the store.
- The login form's inputs: they are never read, and the card submits a fixed email.
- React scheduling and commits: each handler plus the guard effect is one atomic step. The guard effect runs only after React commits the handler's state. So `setCurrentRoute('dashboard')` with nobody signed in first commits a render that draws neither layout, and only then redirects to `login`. That intermediate commit is folded into the step and is not modelled.
- A pointer event present but missing one coordinate (`clientX` or `clientY` undefined): the event is modelled as absent or as a point with both coordinates. A single undefined coordinate, which would also fall back to the viewport centre, is not represented.
- `Controls.LowerAscii`: models `toLowerCase` on ASCII letters only, which covers the three navigation labels.
- `setIsSidebarOpen` with an arbitrary argument: the only call site toggles the flag, and that toggle is what is modelled.
