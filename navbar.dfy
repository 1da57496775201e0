// The navigation bar: `scrolled` follows the page's scroll position and
// `menuOpen` is driven by the menu button, the Escape key and the close
// actions of the mobile menu.
module Navbar {

  /** Scroll offset in pixels past which the bar counts as scrolled. */
  const ScrollThreshold: real := 50.0

  const EscapeKey: string := "Escape"

  /** The aria-label of the menu button. */
  function ToggleLabel(menuOpen: bool): (text: string)
    ensures text == "Close menu" <==> menuOpen
    ensures text == "Open menu" <==> !menuOpen
  {
    if menuOpen then "Close menu" else "Open menu"
  }

  class Navbar {
    var scrolled: bool
    var menuOpen: bool

    constructor ()
      ensures !scrolled && !menuOpen
    {
      scrolled, menuOpen := false, false;
    }

    /** handleScroll: scrolled exactly when strictly past the threshold. */
    method HandleScroll(scrollY: real)
      modifies this
      ensures scrolled <==> scrollY > ScrollThreshold
      ensures menuOpen == old(menuOpen)
    {
      scrolled := scrollY > ScrollThreshold;
    }

    /** The menu button flips the menu. */
    method ToggleMenu()
      modifies this
      ensures menuOpen == !old(menuOpen) && scrolled == old(scrolled)
    {
      menuOpen := !menuOpen;
    }

    /** handleKeyDown: Escape closes an open menu; nothing else changes it. */
    method HandleKeyDown(key: string)
      modifies this
      ensures menuOpen <==> old(menuOpen) && key != EscapeKey
      ensures scrolled == old(scrolled)
    {
      if key == EscapeKey && menuOpen {
        menuOpen := false;
      }
    }

    /** The backdrop, every mobile link and the mobile resume link all close
        the menu; on a closed menu this changes nothing. */
    method CloseMenu()
      modifies this
      ensures !menuOpen && scrolled == old(scrolled)
    {
      menuOpen := false;
    }

    /** The mobile menu is in the page exactly while open. */
    predicate MobileMenuRendered()
      reads this
    {
      menuOpen
    }

    function ButtonLabel(): (text: string)
      reads this
      ensures text == "Close menu" <==> MobileMenuRendered()
    {
      ToggleLabel(menuOpen)
    }
  }

  /** Escape on a closed menu and any other key leave the state as it was. */
  method KeyScenario()
  {
    var nav := new Navbar();
    nav.HandleKeyDown(EscapeKey);
    assert !nav.menuOpen;
    nav.ToggleMenu();
    nav.HandleKeyDown("Enter");
    assert nav.MobileMenuRendered() && nav.ButtonLabel() == "Close menu";
    nav.HandleKeyDown(EscapeKey);
    assert !nav.MobileMenuRendered();
    nav.HandleScroll(50.0);
    assert !nav.scrolled;
  }
}
