# Scroll navigation controller of the Sharma Business site

The site is a single page of static sections (home, about, vision, mission, brands, contact).
Only one part of it has behaviour: the root component `App` and the navigation bar `Navbar`.
This project models that part in Dafny.

- **Scroll-spy.** On every scroll event the root sets two flags. `navbarBg` is true when the
  scroll offset is above 50. `showScrollTop` is true when it is above 400. The root then walks
  the six section ids in page order and skips ids with no rendered element. The first section
  whose half-open span `[offsetTop, offsetTop + offsetHeight)` contains `scrollY + 100` becomes
  the active section. If no section contains it, the active section stays as it was.
- **Commands of the root.** `toggleTheme` flips the theme. `scrollToSection` asks for a smooth
  scroll to `rectTop + pageYOffset - 80` when the element exists, and closes the menu in every
  case. `scrollToTop` asks for a scroll to 0.
- **The bar's own handlers.** The bar's `scrollToSection(id, isMobile)` returns at once when the
  element is missing. Otherwise it computes `rectTop + scrollY - 80`. It closes the menu only
  when called from the mobile menu. Deferred, it requests the scroll and calls
  `setActiveSection(id)`. `linkClasses` picks one of four styles from (is this the active
  section, is the theme dark). The hamburger button sets the menu flag to its negation.

Page geometry is not read from a DOM. It arrives as a `Dom.Viewport`: the scroll offset plus a
map from element id to its layout box (`offsetTop`, `offsetHeight`, and the viewport-relative
`rectTop`). `document.getElementById` is a lookup in that map. A scroll request is returned as a
value (`Option<int>` or `int`); the animation itself is not modelled.

Modules:

- `Wrappers`: `Option`.
- `Dom`: `Element`, `Viewport`.
- `ScrollSpy`: the generic rule "first rendered section containing the probe, else keep the
  current one", over a sequence of `Entry(id, span)`.
- `App`: the constants, the `State` value of the five state hooks, the specification functions
  `Scrolled`, `ThemeToggled` and `Navigated`, and the class `NavState`. Its fields are the five
  hooks and its methods change them. `HandleScroll`, `ToggleTheme` and `ScrollToSection` are
  proved against `Scrolled`, `ThemeToggled` and `Navigated`, and the lemmas are proved about
  those functions. The two setters and `ScrollToTop` state their effect directly.
- `Navbar`: the link list, `LinkClasses`, and the bar's handlers. The handlers act on the root's
  `NavState` through the setter props.

Which setters are live: the root passes `setIsMenuOpen` to the bar. It does not pass
`setActiveSection`, so the bar uses its default, a function that does nothing
(src/components/Navbar.tsx:22-23, src/App.tsx:65-73). `Navbar.SetterBindings` records which
setters are bound, and `Navbar.FromApp` is the wiring the root actually uses. Under that wiring
the bar's navigation closes the menu but never changes the active section
(`Navbar.FromAppKeepsActiveSection`). The root also passes a `scrollToSection` prop, but the
bar's props do not declare it, and the bar always uses its own handler.

`window.pageYOffset` (read by the root) and `window.scrollY` (read by the bar) are the same
value. Both are modelled as `Viewport.scrollY`.

The root's `scrollToSection` closes the menu even when the element is missing, whatever the
caller (src/App.tsx:49-57). Only the bar's handler is a complete no-op for a missing element
(src/components/Navbar.tsx:37-38).

## Model

| member | source | states |
|---|---|---|
| ScrollSpy.FirstHit | src/App.tsx:27-38 | None exactly when no rendered section's half-open span contains the probe; otherwise the index of a hit with no hit before it |
| ScrollSpy.Select | src/App.tsx:27-38 | the earliest hit section becomes active (earlier-declared wins on overlap); with no hit the current section is kept; the result is the current section or a hit section |
| ScrollSpy.AbsentSectionSkipped | src/App.tsx:28-29 | removing a section with no element from the list changes neither whether there is a hit nor which section is selected |
| ScrollSpy.SelectIdempotent | src/App.tsx:20-39 | selecting again at the same probe gives the same section |
| ScrollSpy.SelectForgetsHistory | src/App.tsx:27-36 | when some section is hit, the section that was active before has no influence on the result |
| App.SpanOf | src/App.tsx:28-31 | a span exists exactly when the element is rendered; it runs from offsetTop to offsetTop + offsetHeight |
| App.Layout | src/App.tsx:21-31 | the six sections in declaration order, each paired with its span or with absence |
| App.Scrolled | src/App.tsx:20-39 | navbarBg iff scrollY > 50; showScrollTop iff scrollY > 400; theme and menu unchanged; the earliest section containing scrollY + 100 becomes active; with no such section the active one is kept; an active section that is one of the six stays one of the six |
| App.Navigated | src/App.tsx:49-57 | after the root's navigation the menu is closed and nothing else in the state changes |
| App.ThemeToggled | src/App.tsx:45-47 | the theme flag is inverted and nothing else changes |
| App.ThemeToggledTwice | src/App.tsx:45-47 | toggling the theme twice restores the state |
| App.ScrolledIdempotent | src/App.tsx:20-39 | running the scroll handler twice on the same geometry and offset equals running it once |
| App.ScrolledForgetsHistory | src/App.tsx:24-36 | if some section contains the probe, two states that agree on theme and menu end up identical |
| App.AbsentNeverSelected | src/App.tsx:28-29 | a section without an element never becomes active through a scroll event |
| App.ThresholdExamples | src/App.tsx:24-25 | scrollY 50 gives both flags false, 51 only navbarBg, 401 both true |
| App.BoundaryExamples | src/App.tsx:22-36 | with spans [0,500) and [500,1000), a probe of 500 selects the second section; a probe of -100 keeps the previous section |
| App.NavigationLandsInSection | src/App.tsx:22-54 | assuming the smooth scroll ends exactly on the requested target (top - 80; a browser clamps targets to the scrollable range, so this cannot hold for a section at the very top of the page), the next scroll event (probe top + 20) activates that section when it is taller than 20 and no earlier section reaches into it |
| App.NavState.Snapshot | src/App.tsx:13-17 | the value of the five state hooks |
| App.NavState.Valid | src/App.tsx:15-21 | the active section is one of the six section ids |
| App.NavState.constructor | src/App.tsx:13-17 | the initial state: light theme, menu closed, "home" active, scroll-top button hidden, no navbar background; the invariant holds |
| App.NavState.HandleScroll | src/App.tsx:20-39 | the loop with early exit leaves exactly the state Scrolled describes and keeps the invariant |
| App.NavState.SetIsMenuOpen | src/App.tsx:14 | sets the menu flag and nothing else |
| App.NavState.SetActiveSection | src/App.tsx:15 | sets the active section and nothing else |
| App.NavState.ToggleTheme | src/App.tsx:45-47 | the new state is ThemeToggled of the old one |
| App.NavState.ScrollToSection | src/App.tsx:49-57 | a scroll to rectTop + pageYOffset - 80 is requested exactly when the element exists; the menu is closed in every case; nothing else changes |
| App.NavState.ScrollToTop | src/App.tsx:59-61 | requests a scroll to 0 and changes no state |
| Navbar.LinkClasses | src/components/Navbar.tsx:47-58 | each of the four styles is returned exactly for its combination of (linkId is active, theme is dark) |
| Navbar.StylesDistinct | src/components/Navbar.tsx:50-56 | the four styles are pairwise different |
| Navbar.LinkClassesDeterminedByActivityAndTheme | src/components/Navbar.tsx:47-58 | two links get equal styles exactly when they agree on being active and on the theme |
| Navbar.NavLinkIdsDistinct | src/components/Navbar.tsx:25-32 | the link ids are pairwise distinct |
| Navbar.AtMostOneActiveLink | src/components/Navbar.tsx:25-58 | whatever the active section, at most one link is styled as active |
| Navbar.NavLinksMatchSections | src/components/Navbar.tsx:25-32 | the bar's links are the scroll handler's sections, in the same order |
| Navbar.NavbarNavigated | src/components/Navbar.tsx:36-45 | missing element: state unchanged; otherwise a mobile call with a bound menu setter closes the menu and a non-mobile call leaves the menu alone, and the active section becomes the id only if setActiveSection is bound; theme and flags untouched |
| Navbar.FromAppKeepsActiveSection | src/App.tsx:65-73 | with the root's wiring the bar's navigation never changes the active section and keeps it one of the six |
| Navbar.MenuToggled | src/components/Navbar.tsx:109 | with a bound setter the menu flag is inverted; nothing else changes |
| Navbar.MenuToggledTwice | src/components/Navbar.tsx:109 | pressing the hamburger twice restores the state |
| Navbar.ScrollToSection | src/components/Navbar.tsx:36-45 | a scroll to rectTop + scrollY - 80 is requested exactly when the element exists; the new state is NavbarNavigated of the old one |
| Navbar.ToggleMenu | src/components/Navbar.tsx:109 | the new state is MenuToggled of the old one |

## Left out

- Rendering: the JSX structure, Tailwind class strings (except the four link styles) and
  framer-motion animations of every component.
- Hero, About, Vision, Mission, Brands, Contact, Footer and ScrollToTop are static content
  that receives props. ScrollToTop only shows its button while `showScrollTop` holds. The year
  in Footer is read from the clock.
- Registering and removing the scroll listener in `useEffect` (src/App.tsx:41-42). This is host
  event plumbing. Each scroll event is modelled as one call of `HandleScroll`.
- The smooth-scroll animation of `window.scrollTo`. Only the requested target is returned.
- The 50 ms / 0 ms `setTimeout` delay in the bar's handler. Its body runs right after the
  synchronous part, with no timing and with the same geometry.
- Browser geometry can be fractional. Here it is whole pixels (`int`).
- React's batching of state updates. Setter calls take effect immediately and in order.
