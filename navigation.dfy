/** The site navigation bar: a `scrolled` flag driven by the window's scroll
    offset, and an `isOpen` flag for the mobile menu. */
module Navigation {

  /** The vertical scroll offset past which the bar gets its solid background. */
  const ScrollThreshold: real := 50.0

  datatype NavItem = NavItem(name: string, href: string)

  const NavItems: seq<NavItem> := [
    NavItem("Home", "/#home"),
    NavItem("About", "/#about"),
    NavItem("Skills", "/#skills"),
    NavItem("Experience", "/#experience"),
    NavItem("Community Projects", "/community-projects/"),
    NavItem("Articles", "/articles/"),
    NavItem("Hobbies", "/hobbies/"),
    NavItem("Contact", "/#contact")
  ]

  /** How the awaited résumé download ended: `downloadResumeAsPDF` returned,
      or the import or the call threw. */
  datatype DownloadOutcome = Completed | Threw

  class NavigationState {
    var isOpen: bool
    var scrolled: bool

    constructor ()
      ensures !isOpen && !scrolled
      ensures !MobileMenuShown()
    {
      isOpen := false;
      scrolled := false;
    }

    /** `{isOpen && (<mobile menu/>)}`: the mobile menu is rendered exactly
        while the menu is open, whatever the scroll position. */
    function MobileMenuShown(): (shown: bool)
      reads this
      ensures shown <==> isOpen
    {
      isOpen
    }

    /** The `scroll` listener: `setScrolled(window.scrollY > 50)`. */
    method HandleScroll(scrollY: real)
      modifies this
      ensures scrolled <==> scrollY > ScrollThreshold
      ensures isOpen == old(isOpen)
    {
      scrolled := scrollY > ScrollThreshold;
    }

    /** The menu button: `setIsOpen(!isOpen)`. */
    method ToggleMenu()
      modifies this
      ensures isOpen == !old(isOpen)
      ensures scrolled == old(scrolled)
    {
      isOpen := !isOpen;
    }

    /** A link of the mobile menu, which is only rendered while it is open. */
    method SelectMobileItem(item: NavItem)
      requires isOpen && item in NavItems
      modifies this
      ensures !isOpen && !MobileMenuShown()
      ensures scrolled == old(scrolled)
    {
      isOpen := false;
    }

    /** The mobile "Download CV" button closes the menu on both paths. */
    method MobileDownload(outcome: DownloadOutcome)
      requires isOpen
      modifies this
      ensures !isOpen
      ensures scrolled == old(scrolled)
    {
      match outcome
      case Completed =>
        isOpen := false;
      case Threw =>
        isOpen := false;
    }

    /** The desktop "Download CV" button only logs a failure; no state changes.
        The method has no `modifies` clause, so it cannot change a field: the
        `ensures` holds by the frame alone, and that is the whole point. */
    method DesktopDownload(outcome: DownloadOutcome)
      ensures isOpen == old(isOpen) && scrolled == old(scrolled)
    {
    }
  }
}
