/**
 * The root component: five pieces of UI state, the scroll handler that keeps the active
 * section and the two scroll-dependent flags up to date, and the theme and navigation
 * commands handed down to the sections.
 */
module App {
  import opened Wrappers
  import opened Dom
  import opened ScrollSpy

  /** Section ids in page order, as the scroll handler walks them. */
  const Sections: seq<string> := ["home", "about", "vision", "mission", "brands", "contact"]

  /** Look-ahead added to the scroll offset before matching sections. */
  const ProbeLookahead: int := 100
  /** The navbar gets its background once the page is scrolled further than this. */
  const NavbarBgThreshold: int := 50
  /** The scroll-to-top button shows once the page is scrolled further than this. */
  const ScrollTopThreshold: int := 400
  /** Height of the fixed navbar that a navigation target must clear. */
  const HeaderOffset: int := 80

  /** The values of the five state hooks at one moment. */
  datatype State = State(
    isDark: bool,
    isMenuOpen: bool,
    activeSection: string,
    showScrollTop: bool,
    navbarBg: bool)

  /** The state on first render. */
  const Initial: State := State(false, false, "home", false, false)

  /** The active section always names one of the page's sections. */
  predicate WellFormed(s: State) {
    s.activeSection in Sections
  }

  /** The span of a section as the scroll handler sees it: absent when no element has that id. */
  function SpanOf(vp: Viewport, id: string): (s: Option<Span>)
    ensures s.Some? <==> id in vp.elements
    ensures s.Some? ==>
              s.value.top == vp.elements[id].offsetTop
              && s.value.top + s.value.height == vp.elements[id].offsetTop + vp.elements[id].offsetHeight
  {
    if id in vp.elements then Some(Span(vp.elements[id].offsetTop, vp.elements[id].offsetHeight)) else None
  }

  /** The page's sections, in order, with the spans the host reports for them. */
  function Layout(vp: Viewport): (layout: seq<Entry>)
    ensures |layout| == |Sections|
    ensures forall k :: 0 <= k < |layout| ==> layout[k].id == Sections[k] && layout[k].span == SpanOf(vp, Sections[k])
  {
    seq(|Sections|, k requires 0 <= k < |Sections| => Entry(Sections[k], SpanOf(vp, Sections[k])))
  }

  /** The state after one run of the scroll handler. */
  function Scrolled(s: State, vp: Viewport): (t: State)
    ensures t.navbarBg <==> vp.scrollY > NavbarBgThreshold
    ensures t.showScrollTop <==> vp.scrollY > ScrollTopThreshold
    ensures t.isDark == s.isDark && t.isMenuOpen == s.isMenuOpen
    ensures forall k :: 0 <= k < |Sections| ==>
              (Hits(Layout(vp)[k], vp.scrollY + ProbeLookahead)
               && forall j :: 0 <= j < k ==> !Hits(Layout(vp)[j], vp.scrollY + ProbeLookahead))
              ==> t.activeSection == Sections[k]
    ensures (forall k :: 0 <= k < |Sections| ==> !Hits(Layout(vp)[k], vp.scrollY + ProbeLookahead))
            ==> t.activeSection == s.activeSection
    ensures WellFormed(s) ==> WellFormed(t)
  {
    s.(navbarBg := vp.scrollY > NavbarBgThreshold,
       showScrollTop := vp.scrollY > ScrollTopThreshold,
       activeSection := Select(Layout(vp), vp.scrollY + ProbeLookahead, s.activeSection))
  }

  /** The state after a navigation command from the root: only the menu changes, it closes. */
  function Navigated(s: State): (t: State)
    ensures !t.isMenuOpen
    ensures t.(isMenuOpen := s.isMenuOpen) == s
  {
    s.(isMenuOpen := false)
  }

  /** The state after the theme is toggled. */
  function ThemeToggled(s: State): (t: State)
    ensures t.isDark != s.isDark
    ensures t.(isDark := s.isDark) == s
  {
    s.(isDark := !s.isDark)
  }

  /** Toggling the theme twice restores the state. */
  lemma ThemeToggledTwice(s: State)
    ensures ThemeToggled(ThemeToggled(s)) == s
  {
  }

  /** Running the scroll handler twice at the same offset and geometry is the same as once. */
  lemma ScrolledIdempotent(s: State, vp: Viewport)
    ensures Scrolled(Scrolled(s, vp), vp) == Scrolled(s, vp)
  {
    SelectIdempotent(Layout(vp), vp.scrollY + ProbeLookahead, s.activeSection);
  }

  /** When some rendered section contains the probe, the outcome does not depend on the
      section that was active before, nor on the previous threshold flags. */
  lemma ScrolledForgetsHistory(s1: State, s2: State, vp: Viewport)
    requires s1.isDark == s2.isDark && s1.isMenuOpen == s2.isMenuOpen
    requires exists k :: 0 <= k < |Sections| && Hits(Layout(vp)[k], vp.scrollY + ProbeLookahead)
    ensures Scrolled(s1, vp) == Scrolled(s2, vp)
  {
    SelectForgetsHistory(Layout(vp), vp.scrollY + ProbeLookahead, s1.activeSection, s2.activeSection);
  }

  /** A section whose element is not rendered is never made active by the scroll handler
      unless it already was. */
  lemma AbsentNeverSelected(s: State, vp: Viewport, id: string)
    requires id !in vp.elements && id != s.activeSection
    ensures Scrolled(s, vp).activeSection != id
  {
  }

  /** The threshold flags at the three offsets around the two thresholds. */
  lemma ThresholdExamples(s: State, elements: map<string, Element>)
    ensures !Scrolled(s, Viewport(50, elements)).navbarBg && !Scrolled(s, Viewport(50, elements)).showScrollTop
    ensures Scrolled(s, Viewport(51, elements)).navbarBg && !Scrolled(s, Viewport(51, elements)).showScrollTop
    ensures Scrolled(s, Viewport(401, elements)).navbarBg && Scrolled(s, Viewport(401, elements)).showScrollTop
  {
  }

  /** Two adjacent sections [0, 500) and [500, 1000): a probe on the shared edge selects the
      lower one; a probe above every section keeps the previous choice. */
  lemma BoundaryExamples(s: State)
    ensures Scrolled(s, Viewport(400, map["home" := Element(0, 500, -400), "about" := Element(500, 500, 100)])).activeSection == "about"
    ensures Scrolled(s, Viewport(-200, map["home" := Element(0, 500, 200), "about" := Element(500, 500, 700)])).activeSection == s.activeSection
  {
    var vp := Viewport(400, map["home" := Element(0, 500, -400), "about" := Element(500, 500, 100)]);
    assert !Hits(Layout(vp)[0], 500);
    assert Hits(Layout(vp)[1], 500);
    var vp' := Viewport(-200, map["home" := Element(0, 500, 200), "about" := Element(500, 500, 700)]);
    forall k | 0 <= k < |Sections|
      ensures !Hits(Layout(vp')[k], -100)
    {
    }
  }

  /** The look-ahead (100) exceeds the navbar offset (80): once a navigation to section `k`
      has scrolled to its target, the next scroll event makes section `k` active, provided the
      section is taller than the difference and no earlier section reaches 20 pixels into it.
      `target` assumes the smooth scroll ends exactly on the requested offset; a browser clamps
      it to the scrollable range, so for a section at the very top of the page (target below 0)
      or at the end of a short page this assumption does not hold. */
  lemma NavigationLandsInSection(s: State, vp: Viewport, k: nat, target: Viewport)
    requires k < |Sections| && Sections[k] in vp.elements
    requires vp.elements[Sections[k]].rectTop + vp.scrollY == vp.elements[Sections[k]].offsetTop
    requires vp.elements[Sections[k]].offsetHeight > ProbeLookahead - HeaderOffset
    requires target.elements == vp.elements
    requires target.scrollY == vp.elements[Sections[k]].rectTop + vp.scrollY - HeaderOffset
    requires forall j :: 0 <= j < k ==> !Hits(Layout(target)[j], target.scrollY + ProbeLookahead)
    ensures Scrolled(s, target).activeSection == Sections[k]
  {
    assert Hits(Layout(target)[k], target.scrollY + ProbeLookahead);
  }

  /** The root's UI state, one field per state hook. */
  class NavState {
    var isDark: bool
    var isMenuOpen: bool
    var activeSection: string
    var showScrollTop: bool
    var navbarBg: bool

    function Snapshot(): (s: State)
      reads this
      ensures s.activeSection == activeSection && s.isMenuOpen == isMenuOpen && s.isDark == isDark
      ensures s.showScrollTop == showScrollTop && s.navbarBg == navbarBg
    {
      State(isDark, isMenuOpen, activeSection, showScrollTop, navbarBg)
    }

    predicate Valid()
      reads this
      ensures Valid() <==> WellFormed(Snapshot())
    {
      activeSection in Sections
    }

    /** Initial render: light theme, menu closed, "home" active, button hidden, no navbar background. */
    constructor ()
      ensures Snapshot() == Initial && Valid()
    {
      isDark := false;
      isMenuOpen := false;
      activeSection := "home";
      showScrollTop := false;
      navbarBg := false;
    }

    /** The scroll listener: update both flags, then walk the sections and make the first
        rendered one containing the probe active. */
    method HandleScroll(vp: Viewport)
      modifies this
      ensures Snapshot() == Scrolled(old(Snapshot()), vp)
      ensures old(Valid()) ==> Valid()
    {
      var scrollPosition := vp.scrollY + ProbeLookahead;
      navbarBg := vp.scrollY > NavbarBgThreshold;
      showScrollTop := vp.scrollY > ScrollTopThreshold;
      ghost var layout := Layout(vp);
      for i := 0 to |Sections|
        invariant activeSection == old(activeSection)
        invariant forall j :: 0 <= j < i ==> !Hits(layout[j], scrollPosition)
      {
        var section := Sections[i];
        if section in vp.elements {
          var offsetTop := vp.elements[section].offsetTop;
          var offsetBottom := offsetTop + vp.elements[section].offsetHeight;
          if scrollPosition >= offsetTop && scrollPosition < offsetBottom {
            assert Hits(layout[i], scrollPosition);
            activeSection := section;
            break;
          }
        }
      }
    }

    /** The `setIsMenuOpen` setter. */
    method SetIsMenuOpen(open: bool)
      modifies this
      ensures Snapshot() == old(Snapshot()).(isMenuOpen := open)
    {
      isMenuOpen := open;
    }

    /** The `setActiveSection` setter. */
    method SetActiveSection(section: string)
      modifies this
      ensures Snapshot() == old(Snapshot()).(activeSection := section)
    {
      activeSection := section;
    }

    /** Flip between light and dark theme. */
    method ToggleTheme()
      modifies this
      ensures Snapshot() == ThemeToggled(old(Snapshot()))
      ensures old(Valid()) ==> Valid()
    {
      isDark := !isDark;
    }

    /** Navigate to a section from the root: request a smooth scroll that leaves the section's
        top just below the navbar when the element exists, and close the menu in any case. */
    method ScrollToSection(vp: Viewport, sectionId: string) returns (request: Option<int>)
      modifies this
      ensures request.Some? <==> sectionId in vp.elements
      ensures request.Some? ==> request.value == vp.elements[sectionId].rectTop + vp.scrollY - HeaderOffset
      ensures Snapshot() == Navigated(old(Snapshot()))
      ensures old(Valid()) ==> Valid()
    {
      request := None;
      if sectionId in vp.elements {
        var y := vp.elements[sectionId].rectTop + vp.scrollY - HeaderOffset;
        request := Some(y);
      }
      SetIsMenuOpen(false);
    }

    /** Request a smooth scroll back to the top of the page; the state is untouched. */
    method ScrollToTop() returns (request: int)
      ensures request == 0
    {
      request := 0;
    }
  }
}
