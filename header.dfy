/**
 * The site header of `components/Header.tsx`: the mobile search and menu toggles,
 * which close each other, and the scrolled flag.
 */
module Header {

  datatype Flags = Flags(searchOpen: bool, menuOpen: bool)

  const ALL_CLOSED: Flags := Flags(false, false)

  /** The search button: flip search, and close the menu if it was open. */
  function ToggleSearch(f: Flags): (r: Flags)
    ensures r.searchOpen == !f.searchOpen && !r.menuOpen
  {
    Flags(!f.searchOpen, if f.menuOpen then false else f.menuOpen)
  }

  /** The menu button: flip the menu, and close search if it was open. */
  function ToggleMenu(f: Flags): (r: Flags)
    ensures r.menuOpen == !f.menuOpen && !r.searchOpen
  {
    Flags(if f.searchOpen then false else f.searchOpen, !f.menuOpen)
  }

  predicate Exclusive(f: Flags) {
    !(f.searchOpen && f.menuOpen)
  }

  /** After any click on either button, search and menu are never open together. */
  lemma TogglesAreExclusive(f: Flags)
    ensures Exclusive(ToggleSearch(f)) && Exclusive(ToggleMenu(f))
  {
  }

  /** The same button pressed twice from the all-closed state closes everything again. */
  lemma ToggleTwice()
    ensures ToggleSearch(ToggleSearch(ALL_CLOSED)) == ALL_CLOSED
    ensures ToggleMenu(ToggleMenu(ALL_CLOSED)) == ALL_CLOSED
  {
  }

  /** `window.scrollY > 20`. */
  predicate Scrolled(scrollY: int) {
    scrollY > 20
  }

  /**
   * The header stays unscrolled at the top of the page and through the first 20
   * pixels, turns scrolled from the 21st, and stays scrolled further down.
   */
  lemma ScrolledThreshold(a: int, b: int)
    requires a <= b
    ensures !Scrolled(0) && !Scrolled(20) && Scrolled(21)
    ensures Scrolled(a) ==> Scrolled(b)
    ensures !Scrolled(b) ==> !Scrolled(a)
  {
  }

  /** The header's three flags. */
  class HeaderState {
    var isSearchOpen: bool
    var isMobileMenuOpen: bool
    var isScrolled: bool

    function Current(): Flags
      reads this
    {
      Flags(isSearchOpen, isMobileMenuOpen)
    }

    constructor()
      ensures Current() == ALL_CLOSED && !isScrolled
    {
      isSearchOpen, isMobileMenuOpen, isScrolled := false, false, false;
    }

    method ClickSearch()
      modifies this
      ensures Current() == ToggleSearch(old(Current())) && Exclusive(Current())
      ensures isScrolled == old(isScrolled)
    {
      var wasOpen := isSearchOpen;
      isSearchOpen := !wasOpen;
      if isMobileMenuOpen {
        isMobileMenuOpen := false;
      }
    }

    method ClickMenu()
      modifies this
      ensures Current() == ToggleMenu(old(Current())) && Exclusive(Current())
      ensures isScrolled == old(isScrolled)
    {
      var wasOpen := isMobileMenuOpen;
      isMobileMenuOpen := !wasOpen;
      if isSearchOpen {
        isSearchOpen := false;
      }
    }

    /** `handleScroll`. */
    method OnScroll(scrollY: int)
      modifies this
      ensures isScrolled == Scrolled(scrollY) && Current() == old(Current())
    {
      isScrolled := scrollY > 20;
    }
  }
}
