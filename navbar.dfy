/** The navigation bar's state: which link is active, the mobile menu, and
    hiding the bar while the page scrolls down. Scroll offsets are whole
    pixels. */
module Navbar {

  const HideThreshold: int := 100

  /** The pages the bar links to. */
  const NavPaths: seq<string> := ["/", "/simulation", "/about", "/contact"]

  /** The bar hides when the page moved down past the threshold. */
  predicate HidesOnScroll(lastScrollY: int, y: int)
    ensures HidesOnScroll(lastScrollY, y) <==>
      y > (if lastScrollY > HideThreshold then lastScrollY else HideThreshold)
  {
    y > lastScrollY && y > HideThreshold
  }

  /** Near the top of the page, or when scrolling up or not moving, the bar
      shows; only a move down past the threshold hides it. */
  lemma ScrollRule(lastScrollY: int, y: int)
    ensures y <= HideThreshold ==> !HidesOnScroll(lastScrollY, y)
    ensures y <= lastScrollY ==> !HidesOnScroll(lastScrollY, y)
    ensures y > lastScrollY && y > HideThreshold ==> HidesOnScroll(lastScrollY, y)
  {
  }

  class NavbarState {
    /** The router's current path; the bar only reads it. */
    const pathname: string
    var isMobileMenuOpen: bool
    var isScrolled: bool
    var lastScrollY: int

    constructor (pathname: string)
      ensures this.pathname == pathname
      ensures !isMobileMenuOpen && !isScrolled && lastScrollY == 0
    {
      this.pathname := pathname;
      isMobileMenuOpen := false;
      isScrolled := false;
      lastScrollY := 0;
    }

    /** A link is active when its path matches the current path character
        for character: no prefix or case-insensitive match. */
    predicate IsActive(path: string)
      reads this
      ensures IsActive(path) <==>
        |path| == |pathname| && forall i :: 0 <= i < |path| ==> path[i] == pathname[i]
    {
      pathname == path
    }

    method ToggleMobileMenu()
      modifies this`isMobileMenuOpen
      ensures isMobileMenuOpen == !old(isMobileMenuOpen)
    {
      isMobileMenuOpen := !isMobileMenuOpen;
    }

    /** The scroll listener, given the new `window.scrollY`. */
    method HandleScroll(y: int)
      modifies this`isScrolled, this`lastScrollY
      ensures isScrolled == HidesOnScroll(old(lastScrollY), y)
      ensures lastScrollY == y
    {
      if y > lastScrollY && y > HideThreshold {
        isScrolled := true;
      } else {
        isScrolled := false;
      }
      lastScrollY := y;
    }

    /** Any link in the mobile menu closes the menu. */
    method CloseMobileMenu()
      modifies this`isMobileMenuOpen
      ensures !isMobileMenuOpen
    {
      isMobileMenuOpen := false;
    }
  }

  /** At most one of the bar's links is highlighted as active. */
  lemma AtMostOneActive(nav: NavbarState, i: int, j: int)
    requires 0 <= i < |NavPaths| && 0 <= j < |NavPaths|
    requires nav.IsActive(NavPaths[i]) && nav.IsActive(NavPaths[j])
    ensures i == j
  {
  }

  /** Two toggles restore the menu's state. */
  method ToggleTwice(nav: NavbarState)
    modifies nav`isMobileMenuOpen
    ensures nav.isMobileMenuOpen == old(nav.isMobileMenuOpen)
  {
    nav.ToggleMobileMenu();
    nav.ToggleMobileMenu();
  }
}
