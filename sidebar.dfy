/**
 * The settings sidebar: open/closed on phones, collapsed/expanded on
 * desktops, switching between the two at a 992-pixel window width. The
 * transitions are functions on a state value; the `SettingsSidebar`
 * class applies them to its fields and keeps the page's classes (the
 * sidebar's `active` and `is-collapsed`, the body's scroll lock) in step.
 *
 * Source: static/js/configuracoes/sidebar.js.
 */
module Sidebar {

  /** Windows narrower than this are phones. */
  const MOBILE_BREAKPOINT: int := 992

  predicate IsMobileWidth(width: int)
  {
    width < MOBILE_BREAKPOINT
  }

  datatype State = State(isOpen: bool, isCollapsed: bool, isMobile: bool, justToggled: bool)

  // ---------------------------------------------------------------------
  // Transitions
  // ---------------------------------------------------------------------

  /** `open`: nothing when already open. */
  function Opened(s: State): (r: State)
    ensures r.isOpen && r.isCollapsed == s.isCollapsed && r.isMobile == s.isMobile && r.justToggled == s.justToggled
  {
    if s.isOpen then s else s.(isOpen := true)
  }

  /** `close`: nothing when already closed. */
  function Closed(s: State): (r: State)
    ensures !r.isOpen && r.isCollapsed == s.isCollapsed && r.isMobile == s.isMobile && r.justToggled == s.justToggled
  {
    if !s.isOpen then s else s.(isOpen := false)
  }

  /** `toggle` */
  function Toggled(s: State): (r: State)
    ensures r.isOpen == !s.isOpen
  {
    if s.isOpen then Closed(s) else Opened(s)
  }

  /** `expand`: nothing on a phone. */
  function Expanded(s: State): (r: State)
    ensures s.isMobile ==> r == s
    ensures !s.isMobile ==> !r.isCollapsed
  {
    if s.isMobile then s else s.(isCollapsed := false)
  }

  /** `collapse`: nothing on a phone. */
  function Collapsed(s: State): (r: State)
    ensures s.isMobile ==> r == s
    ensures !s.isMobile ==> r.isCollapsed
  {
    if s.isMobile then s else s.(isCollapsed := true)
  }

  /** `toggleCollapse` */
  function CollapseToggled(s: State): (r: State)
    ensures !s.isMobile ==> r.isCollapsed == !s.isCollapsed
    ensures s.isMobile ==> r == s
  {
    if s.isCollapsed then Expanded(s) else Collapsed(s)
  }

  /** `handleBreakpointChange`: a phone starts closed and expanded, a desktop closed and collapsed. */
  function BreakpointChange(s: State): (r: State)
    ensures !r.isOpen && r.isMobile == s.isMobile && r.justToggled == s.justToggled
    ensures r.isCollapsed == !s.isMobile
  {
    if s.isMobile then s.(isOpen := false, isCollapsed := false)
    else Collapsed(s.(isOpen := false))
  }

  /** `handleResize`: only crossing the breakpoint changes anything. */
  function Resize(s: State, width: int): (r: State)
    ensures IsMobileWidth(width) == s.isMobile ==> r == s
    ensures r.isMobile == IsMobileWidth(width)
  {
    if IsMobileWidth(width) != s.isMobile then BreakpointChange(s.(isMobile := IsMobileWidth(width))) else s
  }

  /** `handleInitialState` */
  function InitialState(s: State, width: int): (r: State)
    ensures r.isMobile == IsMobileWidth(width) && r.isCollapsed == !IsMobileWidth(width)
    ensures r.isOpen == s.isOpen && r.justToggled == s.justToggled
  {
    s.(isMobile := IsMobileWidth(width), isCollapsed := !IsMobileWidth(width))
  }

  /** Where a click on the page landed. */
  datatype Click = Click(insideSidebar: bool, onToggle: bool, onCollapseButton: bool)

  /**
   * `handleOutsideClick`, the document's click listener: when the flag is
   * set it is only cleared; otherwise a phone closes on a click outside
   * the sidebar and its toggle, and a desktop collapses on a click outside
   * the sidebar and its collapse button.
   */
  function OutsideClick(s: State, c: Click): (r: State)
    ensures s.justToggled ==> r == s.(justToggled := false)
    ensures !s.justToggled && s.isMobile ==>
              r == (if s.isOpen && !c.insideSidebar && !c.onToggle then s.(isOpen := false) else s)
    ensures !s.justToggled && !s.isMobile ==>
              r == (if !c.insideSidebar && !c.onCollapseButton then s.(isCollapsed := true) else s)
  {
    if s.justToggled then s.(justToggled := false)
    else if s.isMobile then
      (if s.isOpen && !c.insideSidebar && !c.onToggle then Closed(s) else s)
    else if !c.insideSidebar && !c.onCollapseButton then Collapsed(s)
    else s
  }

  /** `handleEscKey`: Escape closes an open sidebar; any other key does nothing. */
  function EscKey(s: State, isEscape: bool): (r: State)
    ensures !isEscape ==> r == s
    ensures isEscape ==> r == Closed(s)
  {
    if isEscape && s.isOpen then Closed(s) else s
  }

  /** `handleSidebarClick`: on a desktop, a click on a link of the collapsed sidebar expands it. */
  function SidebarClick(s: State, onNavLink: bool): (r: State)
    ensures s.isMobile || !s.isCollapsed || !onNavLink ==> r == s
    ensures !s.isMobile && s.isCollapsed && onNavLink ==> !r.isCollapsed && r.isOpen == s.isOpen
  {
    if s.isMobile then s
    else if s.isCollapsed && onNavLink then Expanded(s)
    else s
  }

  /**
   * `handleNavLinkClick`, the link's own listener: on an open phone sidebar
   * it sets the flag (the delayed close is separate). The click keeps
   * bubbling, so the document listener clears the flag on that same click
   * (`LinkClickAsDispatched`).
   */
  function NavLinkClick(s: State): (r: State)
    ensures s.isMobile && s.isOpen ==> r == s.(justToggled := true)
    ensures !(s.isMobile && s.isOpen) ==> r == s
  {
    if s.isMobile && s.isOpen then s.(justToggled := true) else s
  }

  // ---------------------------------------------------------------------
  // Properties of the transitions
  // ---------------------------------------------------------------------

  /** A click on a navigation link as it bubbles: the link, then the sidebar, then the document. */
  function LinkClick(s: State): State
  {
    OutsideClick(SidebarClick(NavLinkClick(s), true), Click(true, false, false))
  }

  /**
   * One link click, dispatched as the browser does, leaves the flag cleared:
   * the flag the link listener sets is consumed by the same click at the
   * document, so no later click is swallowed. Apart from the flag, the
   * click only expands a collapsed desktop sidebar; on an open phone
   * sidebar it changes nothing, leaving the close to the scheduled timer.
   */
  lemma LinkClickAsDispatched(s: State)
    ensures !LinkClick(s).justToggled
    ensures LinkClick(s) == SidebarClick(s, true).(justToggled := false)
    ensures s.isMobile && s.isOpen ==> LinkClick(s) == s.(justToggled := false)
  {
  }

  /** Toggling twice restores the state. */
  lemma ToggleTwice(s: State)
    ensures Toggled(Toggled(s)) == s
  {
  }

  /** Toggling the collapse twice restores the state. */
  lemma ToggleCollapseTwice(s: State)
    ensures CollapseToggled(CollapseToggled(s)) == s
  {
  }

  /** Opening and closing are idempotent. */
  lemma OpenCloseIdempotent(s: State)
    ensures Opened(Opened(s)) == Opened(s) && Closed(Closed(s)) == Closed(s)
  {
  }

  /** A second resize to the same width changes nothing. */
  lemma ResizeIdempotent(s: State, width: int)
    ensures Resize(Resize(s, width), width) == Resize(s, width)
  {
  }

  /** A phone sidebar is never collapsed. */
  predicate PhoneNotCollapsed(s: State)
  {
    s.isMobile ==> !s.isCollapsed
  }

  /** Every transition keeps a phone sidebar expanded; the initial state establishes it. */
  lemma PhoneNeverCollapses(s: State, width: int, c: Click, isEscape: bool, onNavLink: bool)
    requires PhoneNotCollapsed(s)
    ensures PhoneNotCollapsed(Opened(s)) && PhoneNotCollapsed(Closed(s)) && PhoneNotCollapsed(Toggled(s))
    ensures PhoneNotCollapsed(Expanded(s)) && PhoneNotCollapsed(Collapsed(s)) && PhoneNotCollapsed(CollapseToggled(s))
    ensures PhoneNotCollapsed(Resize(s, width)) && PhoneNotCollapsed(OutsideClick(s, c))
    ensures PhoneNotCollapsed(EscKey(s, isEscape)) && PhoneNotCollapsed(SidebarClick(s, onNavLink))
    ensures PhoneNotCollapsed(NavLinkClick(s)) && PhoneNotCollapsed(InitialState(s, width))
  {
  }

  /** After crossing the breakpoint the sidebar is closed, and collapsed exactly on a desktop. */
  lemma CrossingBreakpointResets(s: State, width: int)
    requires IsMobileWidth(width) != s.isMobile
    ensures !Resize(s, width).isOpen
    ensures Resize(s, width).isCollapsed == !IsMobileWidth(width)
  {
  }

  // ---------------------------------------------------------------------
  // The page object
  // ---------------------------------------------------------------------

  class SettingsSidebar {
    var isOpen: bool
    var isCollapsed: bool
    var isMobile: bool
    var justToggled: bool
    /** The sidebar's `active` class, its `is-collapsed` class, and the body's `overflow: hidden`. */
    var activeClass: bool
    var collapsedClass: bool
    var bodyLocked: bool

    function Current(): State
      reads this
    {
      State(isOpen, isCollapsed, isMobile, justToggled)
    }

    /** The page's classes show the state. */
    predicate Shown()
      reads this
    {
      activeClass == isOpen && collapsedClass == isCollapsed && bodyLocked == isOpen
    }

    /** The constructor: closed and marked collapsed; the markup's collapsed class is whatever the template rendered. */
    constructor(width: int, markupCollapsed: bool)
      ensures Current() == State(false, true, IsMobileWidth(width), false)
      ensures !activeClass && !bodyLocked && collapsedClass == markupCollapsed
    {
      isOpen := false;
      isCollapsed := true;
      isMobile := IsMobileWidth(width);
      justToggled := false;
      activeClass := false;
      collapsedClass := markupCollapsed;
      bodyLocked := false;
    }

    method HandleInitialState(width: int)
      modifies this
      requires activeClass == isOpen && bodyLocked == isOpen
      ensures Current() == InitialState(old(Current()), width) && Shown()
    {
      isMobile := IsMobileWidth(width);
      if isMobile {
        collapsedClass := false;
        isCollapsed := false;
      } else {
        collapsedClass := true;
        isCollapsed := true;
      }
    }

    method Open()
      modifies this
      requires Shown()
      ensures Current() == Opened(old(Current())) && Shown()
    {
      if isOpen {
        return;
      }
      activeClass := true;
      bodyLocked := true;
      isOpen := true;
    }

    method Close()
      modifies this
      requires Shown()
      ensures Current() == Closed(old(Current())) && Shown()
    {
      if !isOpen {
        return;
      }
      activeClass := false;
      bodyLocked := false;
      isOpen := false;
    }

    method Toggle()
      modifies this
      requires Shown()
      ensures Current() == Toggled(old(Current())) && Shown()
    {
      if isOpen {
        Close();
      } else {
        Open();
      }
    }

    method Expand()
      modifies this
      requires Shown()
      ensures Current() == Expanded(old(Current())) && Shown()
    {
      if isMobile {
        return;
      }
      collapsedClass := false;
      isCollapsed := false;
    }

    method Collapse()
      modifies this
      requires Shown()
      ensures Current() == Collapsed(old(Current())) && Shown()
    {
      if isMobile {
        return;
      }
      collapsedClass := true;
      isCollapsed := true;
    }

    method ToggleCollapse()
      modifies this
      requires Shown()
      ensures Current() == CollapseToggled(old(Current())) && Shown()
    {
      if isCollapsed {
        Expand();
      } else {
        Collapse();
      }
    }

    method HandleBreakpointChange()
      modifies this
      requires Shown()
      ensures Current() == BreakpointChange(old(Current())) && Shown()
    {
      if isMobile {
        activeClass := false;
        collapsedClass := false;
        bodyLocked := false;
        isOpen := false;
        isCollapsed := false;
      } else {
        activeClass := false;
        bodyLocked := false;
        isOpen := false;
        Collapse();
      }
    }

    method HandleResize(width: int)
      modifies this
      requires Shown()
      ensures Current() == Resize(old(Current()), width) && Shown()
    {
      var newIsMobile := IsMobileWidth(width);
      if newIsMobile != isMobile {
        isMobile := newIsMobile;
        HandleBreakpointChange();
      }
    }

    /**
     * A click on a navigation link reaches the link's listener, then the
     * sidebar's, then the document's. Returns whether a close was scheduled.
     */
    method HandleLinkClickEvent() returns (closeScheduled: bool)
      modifies this
      requires Shown()
      ensures Current() == LinkClick(old(Current())) && Shown()
      ensures !justToggled
      ensures closeScheduled == (old(isMobile) && old(isOpen))
    {
      closeScheduled := HandleNavLinkClick();
      HandleSidebarClick(true);
      HandleOutsideClick(Click(true, false, false));
      LinkClickAsDispatched(old(Current()));
    }

    method HandleOutsideClick(c: Click)
      modifies this
      requires Shown()
      ensures Current() == OutsideClick(old(Current()), c) && Shown()
    {
      if justToggled {
        justToggled := false;
        return;
      }
      if isMobile {
        if isOpen && !c.insideSidebar && !c.onToggle {
          Close();
        }
      } else {
        if !c.insideSidebar && !c.onCollapseButton {
          Collapse();
        }
      }
    }

    method HandleEscKey(isEscape: bool)
      modifies this
      requires Shown()
      ensures Current() == EscKey(old(Current()), isEscape) && Shown()
    {
      if isEscape && isOpen {
        Close();
      }
    }

    /** The overlay closes the sidebar. */
    method HandleOverlayClick()
      modifies this
      requires Shown()
      ensures Current() == Closed(old(Current())) && Shown()
    {
      Close();
    }

    method HandleSidebarClick(onNavLink: bool)
      modifies this
      requires Shown()
      ensures Current() == SidebarClick(old(Current()), onNavLink) && Shown()
    {
      if isMobile {
        return;
      }
      if isCollapsed && onNavLink {
        Expand();
      }
    }

    /** Returns whether a close was scheduled for later. */
    method HandleNavLinkClick() returns (closeScheduled: bool)
      modifies this
      requires Shown()
      ensures Current() == NavLinkClick(old(Current())) && Shown()
      ensures closeScheduled == (old(isMobile) && old(isOpen))
    {
      closeScheduled := isMobile && isOpen;
      if closeScheduled {
        justToggled := true;
      }
    }
  }
}
