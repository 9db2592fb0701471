/**
 * The transient overlays of the dashboards: the slide-in sidebar (with its
 * overlay and the hamburger button's highlight) and the notification drawer
 * (with its overlay). Each flag is one CSS class on one element: `is-open` on
 * the sidebar, `is-active` on the hamburger, `active` on the three others.
 * Every element is assumed present (the handlers' null checks then always pass).
 */
module Panels {

  datatype Panels = Panels(sidebar: bool, hamburger: bool, sidebarOverlay: bool,
                           drawer: bool, drawerOverlay: bool)

  /** At most one of the two panels is open. */
  predicate Exclusive(p: Panels) {
    !(p.sidebar && p.drawer)
  }

  /** Every flag in agreement with its panel: overlays and highlight follow the panel. */
  predicate Coherent(p: Panels) {
    p.hamburger == p.sidebar && p.sidebarOverlay == p.sidebar && p.drawerOverlay == p.drawer
  }

  const AllClosed := Panels(false, false, false, false, false)

  /** `closeAllPanels` of the dashboards' `initSidebar`. */
  function CloseAll(p: Panels): (r: Panels)
    ensures !r.sidebar && !r.hamburger && !r.sidebarOverlay && !r.drawer && !r.drawerOverlay
  {
    AllClosed
  }

  /** The hamburger button: from an open sidebar everything closes, otherwise
      only the sidebar (with overlay and highlight) ends open. */
  function Hamburger(p: Panels): (r: Panels)
    ensures p.sidebar ==> r == AllClosed
    ensures !p.sidebar ==> r == Panels(true, true, true, false, false)
  {
    var wasOpen := p.sidebar;
    var closed := CloseAll(p);
    if !wasOpen then closed.(sidebar := true, sidebarOverlay := true, hamburger := true) else closed
  }

  /** The global `toggleNotifications` of the admin, resident and guard dashboards:
      the sidebar side is always closed, the drawer and its overlay are set to the
      opposite of what the drawer was. */
  function ToggleNotifications(p: Panels): (r: Panels)
    ensures !r.sidebar && !r.hamburger && !r.sidebarOverlay
    ensures r.drawer == !p.drawer && r.drawerOverlay == !p.drawer
  {
    var isOpen := p.drawer;
    var q := p.(sidebar := false, sidebarOverlay := false, hamburger := false);
    if isOpen then q.(drawer := false, drawerOverlay := false)
    else q.(drawer := true, drawerOverlay := true)
  }

  /** The header bell listener of the admin and resident dashboards: it flips the
      drawer and its overlay, each on its own, and leaves the sidebar alone. */
  function HeaderToggle(p: Panels): (r: Panels)
    ensures r.drawer == !p.drawer && r.drawerOverlay == !p.drawerOverlay
    ensures r.sidebar == p.sidebar && r.hamburger == p.hamburger && r.sidebarOverlay == p.sidebarOverlay
  {
    p.(drawer := !p.drawer, drawerOverlay := !p.drawerOverlay)
  }

  /** The business dashboard's bell: from an open drawer everything closes,
      otherwise only the drawer and its overlay end open. */
  function BusinessNotify(p: Panels): (r: Panels)
    ensures p.drawer ==> r == AllClosed
    ensures !p.drawer ==> r == Panels(false, false, false, true, true)
  {
    var wasOpen := p.drawer;
    var closed := CloseAll(p);
    if !wasOpen then closed.(drawer := true, drawerOverlay := true) else closed
  }

  /** Every dashboard control except the admin/resident header bell leaves the
      panels mutually exclusive and coherent, whatever they were before. */
  lemma ControlsExclude(p: Panels)
    ensures Exclusive(Hamburger(p)) && Coherent(Hamburger(p))
    ensures Exclusive(ToggleNotifications(p)) && Coherent(ToggleNotifications(p))
    ensures Exclusive(BusinessNotify(p)) && Coherent(BusinessNotify(p))
    ensures Exclusive(CloseAll(p)) && Coherent(CloseAll(p))
  {
  }

  /** The header bell breaks mutual exclusion: with the sidebar open it opens the drawer as well. */
  lemma HeaderToggleOpensBoth()
    ensures var p := Hamburger(AllClosed); p.sidebar && HeaderToggle(p).sidebar && HeaderToggle(p).drawer
    ensures !Exclusive(HeaderToggle(Hamburger(AllClosed)))
  {
  }

  /** Two header listeners on one button (the resident dashboard installs it twice) cancel out. */
  lemma HeaderToggleTwice(p: Panels)
    ensures HeaderToggle(HeaderToggle(p)) == p
  {
  }

  /** The hamburger pressed twice from a closed, or coherent and exclusive, state gets back there. */
  lemma HamburgerTwice(p: Panels)
    requires Coherent(p) && !p.drawer
    ensures Hamburger(Hamburger(p)) == p
  {
  }

  /** The panel elements of one dashboard page. */
  class PanelManager {
    var sidebar: bool
    var hamburger: bool
    var sidebarOverlay: bool
    var drawer: bool
    var drawerOverlay: bool

    function State(): Panels
      reads this
    {
      Panels(sidebar, hamburger, sidebarOverlay, drawer, drawerOverlay)
    }

    constructor ()
      ensures State() == AllClosed
    {
      sidebar, hamburger, sidebarOverlay, drawer, drawerOverlay := false, false, false, false, false;
    }

    method CloseAllPanels()
      modifies this
      ensures State() == CloseAll(old(State()))
    {
      sidebar := false;
      hamburger := false;
      sidebarOverlay := false;
      drawer := false;
      drawerOverlay := false;
    }

    /** The hamburger's click listener. */
    method HamburgerClick()
      modifies this
      ensures State() == Hamburger(old(State()))
    {
      var isOpen := sidebar;
      CloseAllPanels();
      if !isOpen {
        sidebar := true;
        sidebarOverlay := true;
        hamburger := true;
      }
    }

    method ToggleNotificationsPanel()
      modifies this
      ensures State() == ToggleNotifications(old(State()))
    {
      var isOpen := drawer;
      sidebar := false;
      sidebarOverlay := false;
      hamburger := false;
      if isOpen {
        drawer := false;
        drawerOverlay := false;
      } else {
        drawer := true;
        drawerOverlay := true;
      }
    }

    /** One run of the admin/resident header bell listener (`classList.toggle` twice). */
    method HeaderBellClick()
      modifies this
      ensures State() == HeaderToggle(old(State()))
    {
      drawer := !drawer;
      drawerOverlay := !drawerOverlay;
    }

    method BusinessBellClick()
      modifies this
      ensures State() == BusinessNotify(old(State()))
    {
      var isOpen := drawer;
      CloseAllPanels();
      if !isOpen {
        drawer := true;
        drawerOverlay := true;
      }
    }
  }
}
