/** The mobile navigation menu: one flag, `isNavOpen`, and the attributes of
    the dropdown, the toggle button and the page body that are derived from it.
    Three events move the flag: a click on the toggle, a click on a link in the
    dropdown, and a window resize. */
module NavToggle {

  /** The class the dropdown carries while open. */
  const NavOpen := "nav-open"
  /** The class that locks page scrolling while the menu is open. */
  const OverflowHidden := "overflow-hidden"
  /** Widths at or above this are the desktop layout. */
  const DesktopBreakpoint := 768

  /** The two SVG icons the toggle button shows, taken as opaque. */
  datatype Icon = MenuIcon | CloseIcon

  /** `String(b)` for a boolean, as written into an ARIA attribute. */
  function BoolString(b: bool): string {
    if b then "true" else "false"
  }

  /** Everything the nav handlers read or write. `maxHeight` is the dropdown's
      inline `max-height` in pixels. */
  datatype NavView = NavView(
    open: bool,
    dropdownClasses: set<string>,
    dropdownAriaHidden: string,
    dropdownMaxHeight: nat,
    toggleAriaExpanded: string,
    toggleAriaControls: string,
    toggleIcon: Icon,
    bodyClasses: set<string>)

  /** Every derived attribute agrees with the flag. The open height is the
      measured content height and so is not constrained; a closed dropdown is
      collapsed to 0px. */
  predicate Agrees(v: NavView) {
    && (NavOpen in v.dropdownClasses <==> v.open)
    && v.dropdownAriaHidden == BoolString(!v.open)
    && v.toggleAriaExpanded == BoolString(v.open)
    && (v.toggleIcon == CloseIcon <==> v.open)
    && (!v.open ==> v.dropdownMaxHeight == 0)
    && (OverflowHidden in v.bodyClasses <==> v.open)
  }

  /** `classList.toggle(name, force)`. */
  function ToggleClass(classes: set<string>, name: string, force: bool): set<string> {
    if force then classes + {name} else classes - {name}
  }

  /** `setNavState(open)`; `scrollHeight` is the dropdown's content height,
      measured at the call. */
  function ApplyNavState(v: NavView, open: bool, scrollHeight: nat): (r: NavView)
    ensures r.open == open && Agrees(r)
    ensures open ==> r.dropdownMaxHeight == scrollHeight
    ensures r.dropdownClasses - {NavOpen} == v.dropdownClasses - {NavOpen}
    ensures r.bodyClasses - {OverflowHidden} == v.bodyClasses - {OverflowHidden}
    ensures r.toggleAriaControls == v.toggleAriaControls
  {
    NavView(
      open := open,
      dropdownClasses := ToggleClass(v.dropdownClasses, NavOpen, open),
      dropdownAriaHidden := BoolString(!open),
      dropdownMaxHeight := if open then scrollHeight else 0,
      toggleAriaExpanded := BoolString(open),
      toggleAriaControls := v.toggleAriaControls,
      toggleIcon := if open then CloseIcon else MenuIcon,
      bodyClasses := ToggleClass(v.bodyClasses, OverflowHidden, open))
  }

  /** A click on the toggle button. */
  function AfterToggle(v: NavView, scrollHeight: nat): (r: NavView)
    ensures r.open == !v.open && Agrees(r)
    ensures r.dropdownClasses - {NavOpen} == v.dropdownClasses - {NavOpen}
    ensures r.bodyClasses - {OverflowHidden} == v.bodyClasses - {OverflowHidden}
  {
    ApplyNavState(v, !v.open, scrollHeight)
  }

  /** A click on any link inside the dropdown. */
  function AfterLinkClick(v: NavView): (r: NavView)
    ensures !r.open && Agrees(r)
    ensures r.dropdownMaxHeight == 0 && NavOpen !in r.dropdownClasses
    ensures OverflowHidden !in r.bodyClasses
    ensures Agrees(v) && !v.open ==> r == v
  {
    ApplyNavState(v, false, 0)
  }

  /** A window resize to `width`: at desktop width an open menu is closed; at
      mobile width an open menu is re-measured and stays open. */
  function AfterResize(v: NavView, width: int, scrollHeight: nat): (r: NavView)
    ensures width >= DesktopBreakpoint && v.open ==> !r.open && Agrees(r)
    ensures width >= DesktopBreakpoint && v.open ==> r == AfterLinkClick(v)
    ensures width >= DesktopBreakpoint && !v.open ==> r == v
    ensures width < DesktopBreakpoint ==> r.open == v.open
    ensures width < DesktopBreakpoint && v.open ==> r == v.(dropdownMaxHeight := scrollHeight)
    ensures !v.open ==> r == v
    ensures Agrees(v) ==> Agrees(r)
  {
    if width >= DesktopBreakpoint then
      if v.open then ApplyNavState(v, false, scrollHeight) else v
    else if v.open then v.(dropdownMaxHeight := scrollHeight)
    else v
  }

  /** Toggling a closed, consistent menu twice restores every attribute. */
  lemma ToggleTwiceFromClosed(v: NavView, h1: nat, h2: nat)
    requires Agrees(v) && !v.open
    ensures AfterToggle(AfterToggle(v, h1), h2) == v
  {
  }

  /** Toggling an open, consistent menu twice restores every attribute except
      the open height, which is measured again. */
  lemma ToggleTwiceFromOpen(v: NavView, h1: nat, h2: nat)
    requires Agrees(v) && v.open
    ensures AfterToggle(AfterToggle(v, h1), h2) == v.(dropdownMaxHeight := h2)
  {
  }

  /** Clicking dropdown links is idempotent. */
  lemma LinkClickIdempotent(v: NavView)
    ensures AfterLinkClick(AfterLinkClick(v)) == AfterLinkClick(v)
  {
  }

  /** The nav widget: the captured flag and the DOM attributes it drives. It
      exists only when both the toggle button and the dropdown are on the
      page. */
  class NavMenu {
    var isNavOpen: bool
    var dropdownClasses: set<string>
    var dropdownAriaHidden: string
    var dropdownMaxHeight: nat
    var toggleAriaExpanded: string
    var toggleAriaControls: string
    var toggleIcon: Icon
    var bodyClasses: set<string>

    function View(): NavView
      reads this
    {
      NavView(isNavOpen, dropdownClasses, dropdownAriaHidden, dropdownMaxHeight,
              toggleAriaExpanded, toggleAriaControls, toggleIcon, bodyClasses)
    }

    /** Page-load set-up, given the classes the dropdown and the body carry in
        the markup. The body's scroll lock is not reset, so the state agrees
        with the flag exactly when the body does not start locked. */
    constructor (initialDropdownClasses: set<string>, initialBodyClasses: set<string>)
      ensures !isNavOpen
      ensures dropdownClasses == initialDropdownClasses - {NavOpen}
      ensures dropdownAriaHidden == "true" && dropdownMaxHeight == 0
      ensures toggleIcon == MenuIcon && toggleAriaExpanded == "false"
      ensures toggleAriaControls == "nav-dropdown"
      ensures bodyClasses == initialBodyClasses
      ensures Agrees(View()) <==> OverflowHidden !in initialBodyClasses
    {
      isNavOpen := false;
      dropdownClasses := initialDropdownClasses - {NavOpen};
      dropdownAriaHidden := "true";
      dropdownMaxHeight := 0;
      toggleIcon := MenuIcon;
      toggleAriaExpanded := "false";
      toggleAriaControls := "nav-dropdown";
      bodyClasses := initialBodyClasses;
    }

    method SetNavState(open: bool, scrollHeight: nat)
      modifies this
      ensures View() == ApplyNavState(old(View()), open, scrollHeight)
    {
      isNavOpen := open;
      dropdownClasses := ToggleClass(dropdownClasses, NavOpen, open);
      dropdownAriaHidden := BoolString(!open);
      toggleAriaExpanded := BoolString(open);
      toggleIcon := if open then CloseIcon else MenuIcon;
      if open {
        dropdownMaxHeight := scrollHeight;
      } else {
        dropdownMaxHeight := 0;
      }
      bodyClasses := ToggleClass(bodyClasses, OverflowHidden, open);
    }

    method OnToggleClick(scrollHeight: nat)
      modifies this
      ensures View() == AfterToggle(old(View()), scrollHeight)
    {
      SetNavState(!isNavOpen, scrollHeight);
    }

    method OnLinkClick()
      modifies this
      ensures View() == AfterLinkClick(old(View()))
    {
      SetNavState(false, 0);
    }

    method OnResize(width: int, scrollHeight: nat)
      modifies this
      ensures View() == AfterResize(old(View()), width, scrollHeight)
    {
      if width >= DesktopBreakpoint {
        if isNavOpen {
          SetNavState(false, scrollHeight);
        }
      } else if isNavOpen {
        dropdownMaxHeight := scrollHeight;
      }
    }
  }
}
