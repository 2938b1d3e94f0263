/** The site navigation bar, shared by both copies of the navigation
    component: what clicking a nav item does, which item is highlighted,
    and which home-page section the scroll position selects. Element
    lookups and `getBoundingClientRect` become a map from section id to
    its on-screen rectangle; a missing entry is a missing element. */
module Navigation {
  import opened Wrappers

  /** What a click on a nav item does besides closing the menus. */
  datatype NavAction =
    | Navigate(path: string)             // client-side route change
    | ScrollTo(id: string)               // smooth-scroll to the section on this page
    | NavigateThenScroll(id: string)     // go home, then scroll once it has rendered

  datatype NavItem = NavItem(id: string, itemLabel: string)

  /** The five items of the bar, in display order. */
  const NavItems: seq<NavItem> := [
    NavItem("hero", "Home"),
    NavItem("services", "Services"),
    NavItem("process", "Process"),
    NavItem("work", "Work"),
    NavItem("about", "About")
  ]

  /** The home-page sections the scroll position can select, in the order they are tried. */
  const TrackedSections: seq<string> := ["hero", "services", "work", "about", "contact"]

  /** The paths the router declares before its catch-all `*` (NotFound) route. */
  const Routes: seq<string> := ["/", "/services", "/process", "/about", "/work",
                                "/blog", "/documentation", "/support", "/faq"]

  /** The page a label is routed to, for the four labels that have their own page. */
  function PagePath(itemLabel: string): (r: Option<string>)
    ensures r.Some? <==> itemLabel in ["Services", "Process", "About", "Work"]
  {
    if itemLabel == "Services" then Some("/services")
    else if itemLabel == "Process" then Some("/process")
    else if itemLabel == "About" then Some("/about")
    else if itemLabel == "Work" then Some("/work")
    else None
  }

  /** `handleNavigation`'s choice of action: "hero" goes home, the four page
      labels go to their pages, anything else scrolls on the home page or
      goes home first from any other page. The first matching test wins. */
  function Decide(id: string, itemLabel: string, pathname: string): (r: NavAction)
    ensures id == "hero" ==> r == Navigate("/")
    ensures id != "hero" && PagePath(itemLabel).Some? ==> r == Navigate(PagePath(itemLabel).value)
    ensures r.ScrollTo? <==> id != "hero" && PagePath(itemLabel).None? && pathname == "/"
    ensures r.NavigateThenScroll? <==> id != "hero" && PagePath(itemLabel).None? && pathname != "/"
    ensures !r.Navigate? ==> r.id == id
  {
    if id == "hero" then Navigate("/")
    else if PagePath(itemLabel).Some? then Navigate(PagePath(itemLabel).value)
    else if pathname == "/" then ScrollTo(id)
    else NavigateThenScroll(id)
  }

  /** Every route change a click makes lands on a declared route, never on
      the catch-all NotFound page; going home first lands on "/". */
  lemma NavigationStaysOnRoutes(id: string, itemLabel: string, pathname: string)
    ensures Decide(id, itemLabel, pathname).Navigate? ==> Decide(id, itemLabel, pathname).path in Routes
    ensures Decide(id, itemLabel, pathname).NavigateThenScroll? ==> "/" in Routes
  {
  }

  /** A click only depends on the current page when it scrolls. */
  lemma DecisionIgnoresPageForRoutes(id: string, itemLabel: string, p1: string, p2: string)
    requires id == "hero" || PagePath(itemLabel).Some?
    ensures Decide(id, itemLabel, p1) == Decide(id, itemLabel, p2)
  {
  }

  /** `isActiveItem`: on the home page the item whose id is the active
      section; on the four item pages the item with that page's label;
      nothing anywhere else. */
  predicate IsActiveItem(pathname: string, activeSection: string, id: string, itemLabel: string)
  {
    || (pathname == "/" && activeSection == id)
    || (pathname == "/services" && itemLabel == "Services")
    || (pathname == "/process" && itemLabel == "Process")
    || (pathname == "/about" && itemLabel == "About")
    || (pathname == "/work" && itemLabel == "Work")
  }

  /** Each page path highlights only its own label; other pages highlight nothing. */
  lemma ActiveItemByPage(pathname: string, activeSection: string, id: string, itemLabel: string)
    ensures pathname == "/" ==> (IsActiveItem(pathname, activeSection, id, itemLabel) <==> activeSection == id)
    ensures pathname != "/" && PagePath(itemLabel).Some? ==>
              (IsActiveItem(pathname, activeSection, id, itemLabel) <==> pathname == PagePath(itemLabel).value)
    ensures (pathname != "/" && pathname != "/services" && pathname != "/process" &&
             pathname != "/about" && pathname != "/work") ==>
              !IsActiveItem(pathname, activeSection, id, itemLabel)
  {
  }

  /** The items' ids are distinct and so are their labels. */
  lemma NavItemsDistinct()
    ensures forall i, j :: 0 <= i < j < |NavItems| ==> NavItems[i].id != NavItems[j].id
    ensures forall i, j :: 0 <= i < j < |NavItems| ==> NavItems[i].itemLabel != NavItems[j].itemLabel
  {
  }

  /** At most one item of the bar is highlighted at any time. */
  lemma AtMostOneActive(pathname: string, activeSection: string, i: nat, j: nat)
    requires i < j < |NavItems|
    ensures !(IsActiveItem(pathname, activeSection, NavItems[i].id, NavItems[i].itemLabel) &&
              IsActiveItem(pathname, activeSection, NavItems[j].id, NavItems[j].itemLabel))
  {
    NavItemsDistinct();
  }

  /** A section's rectangle on screen, in (fractional) pixels from the top of the viewport. */
  datatype Rect = Rect(top: real, bottom: real)

  /** The section's element exists and straddles the line 100px below the top. */
  predicate Straddles(rects: map<string, Rect>, section: string)
  {
    section in rects && rects[section].top <= 100.0 && rects[section].bottom >= 100.0
  }

  /** `sections.find(...)`: the first section, in order, whose element straddles the line. */
  function FirstStraddling(sections: seq<string>, rects: map<string, Rect>): (r: Option<string>)
    ensures r.Some? <==> exists k :: 0 <= k < |sections| && Straddles(rects, sections[k])
    ensures r.Some? ==> (exists k :: 0 <= k < |sections| && sections[k] == r.value &&
                           Straddles(rects, r.value) && forall j :: 0 <= j < k ==> !Straddles(rects, sections[j]))
  {
    if |sections| == 0 then None
    else if Straddles(rects, sections[0]) then Some(sections[0])
    else
      var rest := FirstStraddling(sections[1..], rects);
      if rest.Some? then
        var k :| 0 <= k < |sections| - 1 && sections[1..][k] == rest.value &&
          Straddles(rects, rest.value) && forall j :: 0 <= j < k ==> !Straddles(rects, sections[1..][j]);
        assert sections[k + 1] == rest.value;
        assert forall j :: 0 <= j < k + 1 ==> !Straddles(rects, sections[j]) by {
          forall j | 0 <= j < k + 1 ensures !Straddles(rects, sections[j]) {
            if j > 0 { assert sections[j] == sections[1..][j - 1]; }
          }
        }
        rest
      else
        assert forall k :: 0 <= k < |sections| ==> !Straddles(rects, sections[k]) by {
          forall k | 0 <= k < |sections| ensures !Straddles(rects, sections[k]) {
            if k > 0 { assert sections[k] == sections[1..][k - 1]; }
          }
        }
        None
  }

  /** What the scroll listener keeps: the shadowed-bar flag and the active section. */
  datatype ScrollState = ScrollState(isScrolled: bool, activeSection: string)

  const InitialScroll: ScrollState := ScrollState(false, "")

  /** The scroll listener: the bar is shadowed past 50px; on the home page
      the first straddling tracked section becomes active, and if none
      straddles, the active section stays as it was. */
  function OnScroll(s: ScrollState, pathname: string, scrollY: real, rects: map<string, Rect>): (r: ScrollState)
    ensures r.isScrolled <==> scrollY > 50.0
    ensures pathname != "/" ==> r.activeSection == s.activeSection
    ensures pathname == "/" && FirstStraddling(TrackedSections, rects).None? ==> r.activeSection == s.activeSection
    ensures r.activeSection == s.activeSection || r.activeSection in TrackedSections
  {
    var active :=
      if pathname == "/" then
        match FirstStraddling(TrackedSections, rects)
        case Some(section) => section
        case None => s.activeSection
      else s.activeSection;
    ScrollState(scrollY > 50.0, active)
  }

  /** The active sections the listener can produce: the initial "" or a tracked section. */
  predicate ReachableSection(active: string)
  {
    active == "" || active in TrackedSections
  }

  /** Every scroll keeps the active section reachable. */
  lemma OnScrollKeepsReachable(s: ScrollState, pathname: string, scrollY: real, rects: map<string, Rect>)
    requires ReachableSection(s.activeSection)
    ensures ReachableSection(OnScroll(s, pathname, scrollY, rects).activeSection)
  {
  }

  /** The Process item is never highlighted on the home page: "process" is
      not a tracked section, so it never becomes the active section. */
  lemma ProcessNeverActiveAtHome(active: string)
    requires ReachableSection(active)
    ensures !IsActiveItem("/", active, NavItems[2].id, NavItems[2].itemLabel)
  {
  }
}

/** The mobile menu of the navigation copy with a dropdown and swipe-to-close:
    the menu flag, the dropdown flag, and where the last touch started. */
module SwipeMenu {
  import opened Navigation

  datatype Menu = Menu(menuOpen: bool, dropdownOpen: bool, touchStartY: real)

  const InitialMenu: Menu := Menu(false, false, 0.0)

  /** `handleNavigation`: close the menu and the dropdown, then act. */
  function HandleNavigation(m: Menu, id: string, itemLabel: string, pathname: string): (r: (Menu, NavAction))
    ensures !r.0.menuOpen && !r.0.dropdownOpen && r.0.touchStartY == m.touchStartY
    ensures r.1 == Decide(id, itemLabel, pathname)
  {
    (m.(menuOpen := false, dropdownOpen := false), Decide(id, itemLabel, pathname))
  }

  /** `handleTouchStart`: remember where the touch began. */
  function TouchStart(m: Menu, y: real): (r: Menu)
    ensures r.touchStartY == y && r.menuOpen == m.menuOpen && r.dropdownOpen == m.dropdownOpen
  {
    m.(touchStartY := y)
  }

  /** `handleTouchMove`: an upward swipe of more than 100px closes an open menu. */
  function TouchMove(m: Menu, y: real): (r: Menu)
    ensures r.menuOpen <==> m.menuOpen && m.touchStartY - y <= 100.0
    ensures r.dropdownOpen == m.dropdownOpen && r.touchStartY == m.touchStartY
  {
    if !m.menuOpen then m
    else if m.touchStartY - y > 100.0 then m.(menuOpen := false)
    else m
  }

  /** A route change closes the menu and the dropdown. */
  function RouteChanged(m: Menu): (r: Menu)
    ensures !r.menuOpen && !r.dropdownOpen && r.touchStartY == m.touchStartY
  {
    m.(menuOpen := false, dropdownOpen := false)
  }

  /** The hamburger button flips the menu. */
  function ToggleMenu(m: Menu): (r: Menu)
    ensures r.menuOpen == !m.menuOpen && r.dropdownOpen == m.dropdownOpen
  {
    m.(menuOpen := !m.menuOpen)
  }

  /** The backdrop and the close button shut the menu. */
  function CloseMenu(m: Menu): (r: Menu)
    ensures !r.menuOpen && r.dropdownOpen == m.dropdownOpen
  {
    m.(menuOpen := false)
  }

  /** The "Quick Navigation" button flips the dropdown. */
  function ToggleDropdown(m: Menu): (r: Menu)
    ensures r.dropdownOpen == !m.dropdownOpen && r.menuOpen == m.menuOpen
  {
    m.(dropdownOpen := !m.dropdownOpen)
  }

  /** A swipe that starts at `y0` and moves to `y1` closes the menu exactly
      when the finger moved up more than 100px; a closed menu stays closed
      and the dropdown is untouched. */
  lemma SwipeCloses(m: Menu, y0: real, y1: real)
    ensures TouchMove(TouchStart(m, y0), y1).menuOpen <==> m.menuOpen && y0 - y1 <= 100.0
    ensures TouchMove(TouchStart(m, y0), y1).dropdownOpen == m.dropdownOpen
  {
  }

  /** Opening the menu and then navigating leaves both panels closed. */
  lemma NavigationAfterOpenCloses(m: Menu, id: string, itemLabel: string, pathname: string)
    ensures var r := HandleNavigation(ToggleMenu(ToggleDropdown(m)), id, itemLabel, pathname).0;
            !r.menuOpen && !r.dropdownOpen
  {
  }
}

/** The mobile menu of the navigation copy without a dropdown: one flag. */
module PlainMenu {
  import opened Navigation

  datatype Menu = Menu(menuOpen: bool)

  /** `handleNavigation`: close the menu, then act. */
  function HandleNavigation(m: Menu, id: string, itemLabel: string, pathname: string): (r: (Menu, NavAction))
    ensures !r.0.menuOpen
    ensures r.1 == Decide(id, itemLabel, pathname)
  {
    (Menu(false), Decide(id, itemLabel, pathname))
  }

  /** A route change closes the menu; so do the backdrop and the close button. */
  function RouteChanged(m: Menu): (r: Menu)
    ensures !r.menuOpen
  {
    Menu(false)
  }

  /** The hamburger button flips the menu. */
  function ToggleMenu(m: Menu): (r: Menu)
    ensures r.menuOpen == !m.menuOpen
  {
    Menu(!m.menuOpen)
  }

  /** Toggling twice restores the menu. */
  lemma ToggleTwice(m: Menu)
    ensures ToggleMenu(ToggleMenu(m)) == m
  {
  }
}
