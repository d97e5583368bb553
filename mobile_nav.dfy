/** The mobile navigation bar's menu (`src/components/navigation/mobile/mobile-nav-bar.tsx`):
    two state fields (open or closed, and the toggle button's icon) and the
    page body's scroll-lock class, flipped together. */
module MobileNav {
  datatype MenuState = Closed | Open
  datatype MenuIcon = CloseIcon | MenuIcon

  class NavBar {
    var menuState: MenuState
    var menuIcon: MenuIcon
    /** `mobile-scroll-lock` is on the page body. */
    var scrollLock: bool

    /** The icon shows "close" and the body is locked exactly while the
        menu is open. */
    ghost predicate Valid()
      reads this
    {
      (menuIcon == CloseIcon <==> menuState == Open) && (scrollLock <==> menuState == Open)
    }

    /** The menu contents are rendered only while it is open. */
    function MenuShown(): bool
      reads this
    {
      menuState == Open
    }

    constructor ()
      ensures Valid() && menuState == Closed && !MenuShown()
    {
      menuState := Closed;
      menuIcon := MenuIcon;
      scrollLock := false;
    }

    /** `closeMobileMenu`, which the brand and every tab also call. */
    method Close()
      modifies this
      ensures Valid() && menuState == Closed && !scrollLock && menuIcon == MenuIcon
    {
      scrollLock := false;
      menuState := Closed;
      menuIcon := MenuIcon;
    }

    method OpenMenu()
      modifies this
      ensures Valid() && menuState == Open && scrollLock && menuIcon == CloseIcon
    {
      scrollLock := true;
      menuState := Open;
      menuIcon := CloseIcon;
    }

    /** `toggleMobileMenu`: open when closed, closed when open. */
    method Toggle()
      requires Valid()
      modifies this
      ensures Valid()
      ensures old(menuState) == Open ==> menuState == Closed
      ensures old(menuState) == Closed ==> menuState == Open
    {
      if menuState == Open {
        Close();
      } else {
        OpenMenu();
      }
    }
  }
}
