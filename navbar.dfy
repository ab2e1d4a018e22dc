/**
 * The navigation bar: its own list of links, its own navigate handler (which acts only
 * through the setter props it is given), the style choice for a link, and the hamburger
 * button that opens and closes the mobile menu.
 */
module Navbar {
  import opened Wrappers
  import opened Dom
  import App

  datatype NavLink = NavLink(id: string, caption: string)

  /** The links, in the order the bar renders them. */
  const NavLinks: seq<NavLink> := [
    NavLink("home", "Home"),
    NavLink("about", "About"),
    NavLink("vision", "Vision"),
    NavLink("mission", "Mission"),
    NavLink("brands", "Brands"),
    NavLink("contact", "Contact")
  ]

  /** Height of the fixed navbar that a navigation target must clear. */
  const Offset: int := 80

  /**
   * Which setter props are bound to the root's state. An unbound setter is the
   * component's default, a function that does nothing.
   */
  datatype SetterBindings = SetterBindings(setIsMenuOpen: bool, setActiveSection: bool)

  /** What the root passes: `setIsMenuOpen` is bound; `setActiveSection` is not passed, so it
      stays the do-nothing default. (The root also passes `scrollToSection`, which the bar's
      props do not declare; the bar always uses its own handler.) */
  const FromApp: SetterBindings := SetterBindings(true, false)

  /** Style of a link that is the active section, in the dark and in the light theme. Each
      style is written as its text-colour class followed by the rest of its class list. */
  const ActiveDark: string := "text-white" + " bg-orange-600 shadow-md border border-transparent transition-colors duration-500"
  const ActiveLight: string := "text-orange-700" + " bg-gray-200 shadow-md border border-orange-400 transition-colors duration-500"
  /** Style of any other link, in the dark and in the light theme. */
  const InactiveDark: string := "text-gray-300" + " hover:text-white hover:bg-gray-700/20 border border-transparent transition-colors duration-500"
  const InactiveLight: string := "text-gray-700" + " hover:text-black hover:bg-gray-200/50 border border-transparent transition-colors duration-500"

  /** The style for the link to `linkId`: one of four, chosen by whether it is the active
      section and by the theme. */
  function LinkClasses(activeSection: string, isDark: bool, linkId: string): (r: string)
    ensures r == ActiveDark <==> activeSection == linkId && isDark
    ensures r == ActiveLight <==> activeSection == linkId && !isDark
    ensures r == InactiveDark <==> activeSection != linkId && isDark
    ensures r == InactiveLight <==> activeSection != linkId && !isDark
  {
    StylesDistinct();
    var isActive := activeSection == linkId;
    if isActive then
      (if isDark then ActiveDark else ActiveLight)
    else
      (if isDark then InactiveDark else InactiveLight)
  }

  /** The four styles are pairwise different strings. */
  lemma StylesDistinct()
    ensures ActiveDark != ActiveLight && ActiveDark != InactiveDark && ActiveDark != InactiveLight
    ensures ActiveLight != InactiveDark && ActiveLight != InactiveLight
    ensures InactiveDark != InactiveLight
  {
    assert InactiveDark[..13] == "text-gray-300";
    assert InactiveLight[..13] == "text-gray-700";
  }

  /** Two links get the same style exactly when both are active or both inactive, in the same theme. */
  lemma LinkClassesDeterminedByActivityAndTheme(a1: string, d1: bool, x: string, a2: string, d2: bool, y: string)
    ensures LinkClasses(a1, d1, x) == LinkClasses(a2, d2, y) <==> ((a1 == x) == (a2 == y) && d1 == d2)
  {
  }

  /** No two links share an id. */
  lemma NavLinkIdsDistinct()
    ensures forall i, j :: 0 <= i < j < |NavLinks| ==> NavLinks[i].id != NavLinks[j].id
  {
  }

  /** Whatever section is active, at most one link is rendered in an active style. */
  lemma AtMostOneActiveLink(activeSection: string, isDark: bool)
    ensures forall i, j :: 0 <= i < j < |NavLinks| ==>
              !(LinkClasses(activeSection, isDark, NavLinks[i].id) in {ActiveDark, ActiveLight}
                && LinkClasses(activeSection, isDark, NavLinks[j].id) in {ActiveDark, ActiveLight})
  {
    NavLinkIdsDistinct();
    StylesDistinct();
  }

  /** The bar links to exactly the sections the scroll handler watches, in the same order. */
  lemma NavLinksMatchSections()
    ensures |NavLinks| == |App.Sections|
    ensures forall k :: 0 <= k < |NavLinks| ==> NavLinks[k].id == App.Sections[k]
  {
  }

  /** Root state after the bar's navigate handler, given which setters are bound. */
  function NavbarNavigated(s: App.State, vp: Viewport, id: string, isMobile: bool, props: SetterBindings): (t: App.State)
    ensures id !in vp.elements ==> t == s
    ensures t.isDark == s.isDark && t.showScrollTop == s.showScrollTop && t.navbarBg == s.navbarBg
    ensures id in vp.elements && isMobile && props.setIsMenuOpen ==> !t.isMenuOpen
    ensures !(isMobile && props.setIsMenuOpen) ==> t.isMenuOpen == s.isMenuOpen
    ensures t.activeSection == (if id in vp.elements && props.setActiveSection then id else s.activeSection)
  {
    if id !in vp.elements then s
    else
      var closed := if isMobile && props.setIsMenuOpen then s.(isMenuOpen := false) else s;
      if props.setActiveSection then closed.(activeSection := id) else closed
  }

  /** As wired by the root, the bar's navigate handler never changes the active section: the
      scroll handler alone decides it. */
  lemma FromAppKeepsActiveSection(s: App.State, vp: Viewport, id: string, isMobile: bool)
    ensures NavbarNavigated(s, vp, id, isMobile, FromApp).activeSection == s.activeSection
    ensures App.WellFormed(s) ==> App.WellFormed(NavbarNavigated(s, vp, id, isMobile, FromApp))
  {
  }

  /** Root state after the hamburger button, given which setters are bound. */
  function MenuToggled(s: App.State, props: SetterBindings): (t: App.State)
    ensures props.setIsMenuOpen ==> t.isMenuOpen != s.isMenuOpen
    ensures t.(isMenuOpen := s.isMenuOpen) == s
    ensures !props.setIsMenuOpen ==> t == s
  {
    if props.setIsMenuOpen then s.(isMenuOpen := !s.isMenuOpen) else s
  }

  /** Pressing the hamburger button twice restores the state. */
  lemma MenuToggledTwice(s: App.State, props: SetterBindings)
    ensures MenuToggled(MenuToggled(s, props), props) == s
  {
  }

  /**
   * The bar's navigate handler. Without an element for `id` it does nothing at all.
   * Otherwise it computes the target from the element's current position, closes the menu
   * when called from the mobile menu, and then, deferred, requests the smooth scroll and
   * marks `id` active.
   */
  method ScrollToSection(st: App.NavState, vp: Viewport, id: string, isMobile: bool, props: SetterBindings)
    returns (request: Option<int>)
    modifies st
    ensures request.Some? <==> id in vp.elements
    ensures request.Some? ==> request.value == vp.elements[id].rectTop + vp.scrollY - Offset
    ensures st.Snapshot() == NavbarNavigated(old(st.Snapshot()), vp, id, isMobile, props)
    ensures old(st.Valid()) && (props.setActiveSection ==> id in App.Sections) ==> st.Valid()
  {
    if id !in vp.elements {
      return None;
    }
    var y := vp.elements[id].rectTop + vp.scrollY - Offset;
    if isMobile && props.setIsMenuOpen {
      st.SetIsMenuOpen(false);
    }
    // The deferred part, run after the synchronous part with no timing modelled.
    request := Some(y);
    if props.setActiveSection {
      st.SetActiveSection(id);
    }
  }

  /** The hamburger button: set the menu flag to the negation of the current one. */
  method ToggleMenu(st: App.NavState, props: SetterBindings)
    modifies st
    ensures st.Snapshot() == MenuToggled(old(st.Snapshot()), props)
    ensures old(st.Valid()) ==> st.Valid()
  {
    if props.setIsMenuOpen {
      st.SetIsMenuOpen(!st.isMenuOpen);
    }
  }
}
