/** The site header (`SiteHeader`): the navigation links and which of them is
    active for the current path, the scrolled look, the mobile menu, and the
    forwarding of mouse moves to the home page's 3D canvas. */
module SiteHeader {
  import opened JsText

  datatype NavLink = NavLink(href: string, title: string)

  const NavLinks: seq<NavLink> := [
    NavLink("/services", "Services"),
    NavLink("/work", "Work"),
    NavLink("/about", "About"),
    NavLink("/contact", "Contact")
  ]

  /** The scroll offset past which the header turns solid. */
  const ScrollThreshold: int := 20

  /** A link is active on its own path and on every path below it, the same
      test in the desktop bar and the mobile menu. */
  function IsActive(pathname: string, href: string): (b: bool)
    ensures b <==> (pathname == href
                    || (|href| < |pathname| && pathname[..|href|] == href && pathname[|href|] == '/'))
  {
    pathname == href || StartsWith(pathname, href + "/")
  }

  /** An active link's path is a prefix of the current path. */
  lemma ActiveIsPrefix(pathname: string, href: string)
    requires IsActive(pathname, href)
    ensures |href| <= |pathname| && pathname[..|href|] == href
  {
    if pathname != href {
      assert pathname[..|href|] == (href + "/")[..|href|];
    }
  }

  /** The four links differ in their second character and are at least two
      characters long. */
  lemma LinksDifferEarly()
    ensures forall i :: 0 <= i < |NavLinks| ==> |NavLinks[i].href| >= 2
    ensures forall i, j :: 0 <= i < j < |NavLinks| ==> NavLinks[i].href[1] != NavLinks[j].href[1]
  {
    assert NavLinks[0].href[1] == 's';
    assert NavLinks[1].href[1] == 'w';
    assert NavLinks[2].href[1] == 'a';
    assert NavLinks[3].href[1] == 'c';
  }

  /** An active link agrees with the path in its second character. */
  lemma ActiveSecondChar(pathname: string, href: string)
    requires |href| >= 2
    ensures IsActive(pathname, href) ==> |pathname| >= 2 && pathname[1] == href[1]
  {
    if IsActive(pathname, href) {
      ActiveIsPrefix(pathname, href);
      assert pathname[..|href|][1] == href[1];
    }
  }

  /** Whatever the path, at most one of the four links is active. */
  lemma AtMostOneActive(pathname: string)
    ensures forall i, j :: 0 <= i < j < |NavLinks| ==>
      !(IsActive(pathname, NavLinks[i].href) && IsActive(pathname, NavLinks[j].href))
  {
    LinksDifferEarly();
    forall i, j | 0 <= i < j < |NavLinks|
      ensures !(IsActive(pathname, NavLinks[i].href) && IsActive(pathname, NavLinks[j].href))
    {
      ActiveSecondChar(pathname, NavLinks[i].href);
      ActiveSecondChar(pathname, NavLinks[j].href);
    }
  }

  /** A path below a link activates it; a longer name that only starts with
      the link's path does not. */
  lemma ActiveExamples()
    ensures IsActive("/services/ai-agents", "/services")
    ensures !IsActive("/servicesX", "/services")
  {
    assert "/services/ai-agents"[..|"/services/"|] == "/services/";
    assert "/servicesX"[9] == 'X';
    assert ("/services" + "/")[9] == '/';
  }

  /** `window.scrollY > 20`. */
  predicate IsScrolled(scrollY: int) {
    scrollY > ScrollThreshold
  }

  class Header {
    var isScrolled: bool
    var isMobileMenuOpen: bool
    var pathname: string

    /** The header on mount, at `pathname`. */
    constructor (pathname: string)
      ensures !isScrolled && !isMobileMenuOpen && this.pathname == pathname
    {
      isScrolled, isMobileMenuOpen := false, false;
      this.pathname := pathname;
    }

    /** The scroll listener. */
    method OnScroll(scrollY: int)
      modifies this
      ensures isScrolled == IsScrolled(scrollY)
      ensures isMobileMenuOpen == old(isMobileMenuOpen) && pathname == old(pathname)
    {
      isScrolled := scrollY > ScrollThreshold;
    }

    /** The menu button flips the mobile menu. */
    method ToggleMenu()
      modifies this
      ensures isMobileMenuOpen == !old(isMobileMenuOpen)
      ensures isScrolled == old(isScrolled) && pathname == old(pathname)
    {
      isMobileMenuOpen := !isMobileMenuOpen;
    }

    /** The router moves to `next`: the pathname effect closes the menu
        whenever the path changes, and a render at the same path keeps it. */
    method Navigate(next: string)
      modifies this
      ensures pathname == next
      ensures isMobileMenuOpen == (old(isMobileMenuOpen) && next == old(pathname))
      ensures isScrolled == old(isScrolled)
    {
      if next != pathname {
        isMobileMenuOpen := false;
      }
      pathname := next;
    }

    /** `handleHeaderMouseMove`: the move is re-dispatched to the canvas only
        on the home page and only when the canvas has registered itself. */
    method MouseMove(canvasRegistered: bool) returns (forwarded: bool)
      ensures forwarded <==> pathname == "/" && canvasRegistered
    {
      if pathname != "/" {
        return false;
      }
      if !canvasRegistered {
        return false;
      }
      forwarded := true;
    }

    /** The link styles of the bar and the menu for the current path. */
    function ActiveLinks(): (r: seq<bool>)
      reads this
      ensures |r| == |NavLinks|
      ensures forall i :: 0 <= i < |r| ==> (r[i] <==> IsActive(pathname, NavLinks[i].href))
    {
      var p := pathname;
      seq(|NavLinks|, i requires 0 <= i < |NavLinks| => IsActive(p, NavLinks[i].href))
    }
  }
}
