/** The header of the English-only site: fixed nav links, the mobile menu and the scrolled style. */
module VmiHeader {
  import opened Navigation

  /** `isScrolled` holds once the page has scrolled strictly more than this many pixels. */
  const ScrollThreshold: real := 50.0

  const NavItems: seq<NavItem> := [
    NavItem("Solutions", "#services"),
    NavItem("Portfolio", "#portfolio"),
    NavItem("About", "#about"),
    NavItem("Contact", "#contact")
  ]

  /** The links go to the four sections, in page order, with fixed labels. */
  lemma NavItemsAreSectionLinks()
    ensures Hrefs(NavItems) == SectionAnchors
    ensures Labels(NavItems) == ["Solutions", "Portfolio", "About", "Contact"]
    ensures DistinctHrefs(NavItems)
  {
  }

  /** The header's React state. */
  class HeaderState {
    var isScrolled: bool
    var isMobileMenuOpen: bool

    constructor ()
      ensures !isScrolled && !isMobileMenuOpen
    {
      isScrolled := false;
      isMobileMenuOpen := false;
    }

    /** The window's scroll listener. */
    method HandleScroll(scrollY: real)
      modifies this
      ensures isScrolled <==> scrollY > ScrollThreshold
      ensures isMobileMenuOpen == old(isMobileMenuOpen)
    {
      isScrolled := scrollY > ScrollThreshold;
    }

    /** The hamburger button. */
    method ToggleMobileMenu()
      modifies this
      ensures isMobileMenuOpen == !old(isMobileMenuOpen)
      ensures isScrolled == old(isScrolled)
    {
      isMobileMenuOpen := !isMobileMenuOpen;
    }

    /** A nav link or the CTA in the mobile menu. */
    method CloseMobileMenu()
      modifies this
      ensures !isMobileMenuOpen
      ensures isScrolled == old(isScrolled)
    {
      isMobileMenuOpen := false;
    }
  }
}
