/** The site header (src/components/layout/Header.tsx): the scroll handler
    that decides whether the page is scrolled and which section is active,
    the URL path pushed for a section, the active-link test, and the mobile
    menu flag. The document is given as a map from element id to the top
    of that element's bounding box; an id missing from the map is an
    element that does not exist. */
module Header {
  import opened Common

  datatype NavItem = NavItem(key: string, href: string, sectionId: string)

  /** `navItems`, in navigation order. */
  const NavItems: seq<NavItem> := [
    NavItem("home", "#home", "home"),
    NavItem("about", "#about", "about"),
    NavItem("skills", "#skills", "skills"),
    NavItem("projects", "#projects", "projects"),
    NavItem("contact", "#contact", "contact")
  ]

  /** How far down the page counts as scrolled, and how close to the top of
      the viewport a section must start to count as active. */
  const ScrolledThreshold: real := 20.0
  const ActiveTopLimit: real := 150.0

  function SectionIds(items: seq<NavItem>): (r: seq<string>)
    ensures |r| == |items|
    ensures forall i :: 0 <= i < |items| ==> r[i] == items[i].sectionId
  {
    seq(|items|, i requires 0 <= i < |items| => items[i].sectionId)
  }

  /** `window.scrollY > 20`. */
  function IsScrolled(scrollY: real): (r: bool)
    ensures r ==> scrollY > ScrolledThreshold
    ensures !r ==> scrollY <= ScrolledThreshold
  {
    scrollY > ScrolledThreshold
  }

  /** The section at index i has an element whose top is at most 150. */
  predicate Qualifies(sections: seq<string>, tops: map<string, real>, i: int)
    ensures Qualifies(sections, tops, i) ==> 0 <= i < |sections| && sections[i] in tops
    ensures 0 <= i < |sections| && sections[i] !in tops ==> !Qualifies(sections, tops, i)
  {
    0 <= i < |sections| && sections[i] in tops && tops[sections[i]] <= ActiveTopLimit
  }

  /** The index of the last qualifying section, scanning from the end. */
  function LastQualifying(sections: seq<string>, tops: map<string, real>): (r: Option<nat>)
    ensures r.Some? ==> Qualifies(sections, tops, r.value)
    ensures r.Some? ==> forall j :: r.value < j < |sections| ==> !Qualifies(sections, tops, j)
    ensures r.None? ==> forall j :: 0 <= j < |sections| ==> !Qualifies(sections, tops, j)
    decreases |sections|
  {
    if |sections| == 0 then None
    else if Qualifies(sections, tops, |sections| - 1) then Some(|sections| - 1)
    else
      var r := LastQualifying(sections[..|sections| - 1], tops);
      assert forall j :: 0 <= j < |sections| - 1 ==>
        (Qualifies(sections[..|sections| - 1], tops, j) <==> Qualifies(sections, tops, j));
      r
  }

  /** The `for ... of sections.reverse()` loop with its `break`: the last
      section in navigation order whose element exists and starts at most
      150 pixels from the top becomes active; when none does, the active
      section stays as it was. */
  method ScanActiveSection(sections: seq<string>, tops: map<string, real>, current: string)
    returns (active: string)
    ensures (exists i :: Qualifies(sections, tops, i)) ==>
              exists i :: Qualifies(sections, tops, i) && active == sections[i] &&
                forall j :: i < j < |sections| ==> !Qualifies(sections, tops, j)
    ensures (forall i :: 0 <= i < |sections| ==> !Qualifies(sections, tops, i)) ==> active == current
    ensures active == match LastQualifying(sections, tops)
                      case Some(i) => sections[i]
                      case None => current
  {
    active := current;
    var k := |sections|;
    while k > 0
      invariant 0 <= k <= |sections|
      invariant forall j :: k <= j < |sections| ==> !Qualifies(sections, tops, j)
      invariant active == current
    {
      var section := sections[k - 1];
      if section in tops {
        if tops[section] <= ActiveTopLimit {
          active := section;
          assert Qualifies(sections, tops, k - 1);
          return;
        }
      }
      k := k - 1;
    }
  }

  /** The path pushed into the history: the site root for home, the
      section's id below the root otherwise. */
  function NavPath(sectionId: string): (r: string)
    ensures |r| >= 1 && r[0] == '/'
    ensures sectionId == "home" ==> r == "/"
    ensures sectionId != "home" ==> r[1..] == sectionId
  {
    "/" + (if sectionId == "home" then "" else sectionId)
  }

  /** Reading a pushed path back: the root is home. */
  function SectionOfPath(path: string): (r: string)
    ensures |path| >= 1 && path[0] == '/' && path != "/home" ==> NavPath(r) == path
  {
    if |path| <= 1 then
      assert |path| == 1 && path[0] == '/' ==> path == "/";
      "home"
    else
      assert path == [path[0]] + path[1..];
      path[1..]
  }

  /** Every section of the navigation is recovered from its path, so no
      two sections push the same path. */
  lemma NavPathRoundTrip(i: nat)
    requires i < |NavItems|
    ensures SectionOfPath(NavPath(NavItems[i].sectionId)) == NavItems[i].sectionId
  {
  }

  /** `isActive={activeSection === item.key}`. */
  predicate IsActive(activeSection: string, item: NavItem)
    ensures item in NavItems ==> (IsActive(activeSection, item) <==> activeSection == item.sectionId)
  {
    activeSection == item.key
  }

  function Key(item: NavItem): string { item.key }

  /** Every key of the navigation equals its section id, and no two are
      alike, so at most one link is active whatever the active section. */
  lemma AtMostOneActiveLink(activeSection: string, i: nat, j: nat)
    requires i < |NavItems| && j < |NavItems|
    requires IsActive(activeSection, NavItems[i]) && IsActive(activeSection, NavItems[j])
    ensures i == j
    ensures NavItems[i].key == NavItems[i].sectionId
  {
    assert DistinctKeys(NavItems, Key);
    AtMostOneWithKey(NavItems, Key, activeSection, i, j);
  }

  /** The header's three state cells. */
  class HeaderState {
    var isScrolled: bool
    var isMobileMenuOpen: bool
    var activeSection: string

    constructor ()
      ensures !isScrolled && !isMobileMenuOpen && activeSection == "home"
    {
      isScrolled := false;
      isMobileMenuOpen := false;
      activeSection := "home";
    }

    /** `handleScroll`, run at mount and on every scroll event. */
    method HandleScroll(scrollY: real, tops: map<string, real>)
      modifies this
      ensures isScrolled == IsScrolled(scrollY)
      ensures activeSection == match LastQualifying(SectionIds(NavItems), tops)
                               case Some(i) => NavItems[i].sectionId
                               case None => old(activeSection)
      ensures isMobileMenuOpen == old(isMobileMenuOpen)
    {
      isScrolled := IsScrolled(scrollY);
      activeSection := ScanActiveSection(SectionIds(NavItems), tops, activeSection);
    }

    /** The menu button. */
    method ToggleMobileMenu()
      modifies this
      ensures isMobileMenuOpen == !old(isMobileMenuOpen)
      ensures isScrolled == old(isScrolled) && activeSection == old(activeSection)
    {
      isMobileMenuOpen := !isMobileMenuOpen;
    }

    /** Choosing an item of the mobile menu closes it; when the section's
        element exists, its path is pushed (after the menu closes). */
    method ChooseMobileItem(item: NavItem, tops: map<string, real>) returns (pushed: Option<string>)
      modifies this
      ensures !isMobileMenuOpen
      ensures isScrolled == old(isScrolled) && activeSection == old(activeSection)
      ensures pushed == if item.sectionId in tops then Some(NavPath(item.sectionId)) else None
    {
      isMobileMenuOpen := false;
      pushed := if item.sectionId in tops then Some(NavPath(item.sectionId)) else None;
    }
  }

  /** A desktop link click: the path is pushed only when the section's
      element exists. */
  function DesktopClickPath(sectionId: string, tops: map<string, real>): (r: Option<string>)
    ensures r.Some? <==> sectionId in tops
    ensures r.Some? ==> r.value == NavPath(sectionId)
    ensures r.Some? ==> SectionOfPath(r.value) == sectionId || (sectionId == "" && r.value == "/")
  {
    if sectionId in tops then Some(NavPath(sectionId)) else None
  }
}
