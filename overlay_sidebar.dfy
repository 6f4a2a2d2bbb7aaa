/**
 * The overlay navigation sidebar: the menu it lists, which entries are marked
 * active for the current path, and its state machine (open or closed, at most
 * one open group, light or dark theme).
 */
module Sidebar {
  import opened Wrappers
  import opened JsValues
  import opened Effects

  datatype SubLink = SubLink(caption: string, href: string)

  /** A menu entry: a plain link, or a group that unfolds into sub-links. */
  datatype NavLink = PlainLink(caption: string, href: string) | Group(caption: string, items: seq<SubLink>)

  /** The storage key of the theme. */
  const ThemeKey := "theme"

  /** The menu, in display order. */
  function NavLinks(): (links: seq<NavLink>)
    ensures |links| == 5 && links[0] == PlainLink("Home", "/")
    ensures forall k :: 1 <= k < 5 ==> links[k].Group? && |links[k].items| == 2
  {
    [PlainLink("Home", "/"),
     Group("Salesmen", [SubLink("Salesmen List", "/salesmen"), SubLink("Add Salemen", "/salesmen/addSalesmen")]),
     Group("Customers", [SubLink("Customers List", "/customers"), SubLink("Add Customer", "/customers/addCustomer")]),
     Group("Items", [SubLink("Items List", "/items"), SubLink("Add Items", "/items/addItem")]),
     Group("Invoices", [SubLink("Invoices List", "/invoices"), SubLink("Add Invoices", "/invoices/addInvoice")])]
  }

  /** A sub-link is highlighted when the path is its target. */
  predicate IsSubActive(item: SubLink, pathname: string) {
    pathname == item.href
  }

  /** A plain link is highlighted when the path is its target; a group when the path is one of its sub-links' targets. */
  predicate IsActive(link: NavLink, pathname: string) {
    match link
    case PlainLink(_, href) => pathname == href
    case Group(_, items) => exists k :: 0 <= k < |items| && IsSubActive(items[k], pathname)
  }

  /** The targets of a group's sub-links, in order. */
  function SubTargets(items: seq<SubLink>): (hrefs: seq<string>)
    ensures |hrefs| == |items| && forall j :: 0 <= j < |items| ==> hrefs[j] == items[j].href
  {
    seq(|items|, j requires 0 <= j < |items| => items[j].href)
  }

  /** Every target in the menu: the plain links' and the sub-links'. */
  function Targets(links: seq<NavLink>): (hrefs: seq<string>)
    ensures forall k :: 0 <= k < |links| && links[k].PlainLink? ==> links[k].href in hrefs
    ensures forall k, j :: 0 <= k < |links| && links[k].Group? && 0 <= j < |links[k].items| ==> links[k].items[j].href in hrefs
  {
    if |links| == 0 then []
    else
      var own := match links[0]
        case PlainLink(_, href) => [href]
        case Group(_, items) => SubTargets(items);
      var rest := Targets(links[1..]);
      assert forall k :: 1 <= k < |links| ==> links[k] == links[1..][k - 1];
      assert links[0].Group? ==> forall j :: 0 <= j < |links[0].items| ==> own[j] == links[0].items[j].href;
      own + rest
  }

  /** The pages the menu leads to, in menu order. */
  const MenuTargets: seq<string> := ["/", "/salesmen", "/salesmen/addSalesmen", "/customers", "/customers/addCustomer",
                                     "/items", "/items/addItem", "/invoices", "/invoices/addInvoice"]

  /** No two entries of the menu lead to the same page. */
  lemma MenuTargetsDistinct()
    ensures Targets(NavLinks()) == MenuTargets
    ensures forall i, j :: 0 <= i < j < |Targets(NavLinks())| ==> Targets(NavLinks())[i] != Targets(NavLinks())[j]
  {
    MenuTargetsListed();
    MenuTargetsPairwiseDistinct();
  }

  lemma MenuTargetsListed()
    ensures Targets(NavLinks()) == MenuTargets
  {
    var links := NavLinks();
    assert links[1..][1..][1..][1..][1..] == [];
  }

  lemma MenuTargetsPairwiseDistinct()
    ensures forall i, j :: 0 <= i < j < |MenuTargets| ==> MenuTargets[i] != MenuTargets[j]
  {
    var t := MenuTargets;
    assert |t[0]| == 1 && |t[1]| == 9 && |t[2]| == 21 && |t[3]| == 10 && |t[4]| == 22;
    assert |t[5]| == 6 && |t[6]| == 14 && |t[7]| == 9 && |t[8]| == 20;
    assert t[1][1] != t[7][1];
  }

  /** The group holding the current page is highlighted together with that page's sub-link. */
  lemma SubActiveMarksGroup(link: NavLink, k: nat, pathname: string)
    requires link.Group? && k < |link.items| && IsSubActive(link.items[k], pathname)
    ensures IsActive(link, pathname)
  {
  }

  /** A path that is no entry's target highlights nothing. */
  lemma UnknownPathHighlightsNothing(pathname: string, k: nat)
    requires pathname !in Targets(NavLinks()) && k < |NavLinks()|
    ensures !IsActive(NavLinks()[k], pathname)
  {
    if IsActive(NavLinks()[k], pathname) {
      ActiveIsTarget(NavLinks(), k, pathname);
    }
  }

  /** Whatever an entry highlights is one of the menu's targets. */
  lemma ActiveIsTarget(links: seq<NavLink>, k: nat, pathname: string)
    requires k < |links| && IsActive(links[k], pathname)
    ensures pathname in Targets(links)
  {
    if links[k].Group? {
      var j :| 0 <= j < |links[k].items| && IsSubActive(links[k].items[j], pathname);
      assert links[k].items[j].href in Targets(links);
    }
  }

  /** `toggleDropdown(index)` on the open group: that group closes, else it opens in place of any other. */
  function ToggledDropdown(openDropdown: Option<nat>, index: nat): (next: Option<nat>)
    ensures openDropdown == Some(index) ==> next.None?
    ensures openDropdown != Some(index) ==> next == Some(index)
  {
    if openDropdown == Some(index) then None else Some(index)
  }

  /** Toggling the same group twice restores the open group; two groups are never open together. */
  lemma DropdownToggleProperties(openDropdown: Option<nat>, i: nat, j: nat)
    ensures ToggledDropdown(ToggledDropdown(openDropdown, i), i) == (if openDropdown == Some(i) then Some(i) else None)
    ensures i != j ==> ToggledDropdown(ToggledDropdown(openDropdown, i), j) == Some(j)
  {
  }

  /** The theme the page starts with: dark exactly when the stored theme is "dark". */
  function InitialDark(stored: Option<string>): (dark: bool)
    ensures dark <==> stored == Some("dark")
  {
    stored == Some("dark")
  }

  /** The sidebar's state. */
  class OverlaySidebar {
    var pathname: string
    var isOpen: bool
    /** The index of the unfolded group, if any: at most one group is open at a time. */
    var openDropdown: Option<nat>
    var isDarkMode: bool
    /** Whether the document root carries the `dark` class. */
    var rootDark: bool

    /** Mounting: closed, no group open, the stored theme applied to the document. */
    constructor (pathname: string, storage: BrowserStorage)
      ensures this.pathname == pathname && !isOpen && openDropdown.None?
      ensures isDarkMode == InitialDark(storage.GetItem(ThemeKey)) && rootDark == isDarkMode
    {
      this.pathname := pathname;
      isOpen := false;
      openDropdown := None;
      isDarkMode := InitialDark(storage.GetItem(ThemeKey));
      rootDark := isDarkMode;
    }

    /** The menu button, the close button and the backdrop: open becomes closed and back; nothing else changes. */
    method ToggleSidebar()
      modifies this
      ensures isOpen == !old(isOpen)
      ensures pathname == old(pathname) && openDropdown == old(openDropdown)
      ensures isDarkMode == old(isDarkMode) && rootDark == old(rootDark)
    {
      isOpen := !isOpen;
    }

    /** A group's header. */
    method ToggleDropdown(index: nat)
      modifies this
      ensures openDropdown == ToggledDropdown(old(openDropdown), index)
      ensures pathname == old(pathname) && isOpen == old(isOpen)
      ensures isDarkMode == old(isDarkMode) && rootDark == old(rootDark)
    {
      openDropdown := ToggledDropdown(openDropdown, index);
    }

    /** A mouse press anywhere: an open sidebar closes when the press is outside both the sidebar and the menu button. */
    method MouseDown(insideSidebar: bool, onMenuButton: bool)
      modifies this
      ensures isOpen == (old(isOpen) && (insideSidebar || onMenuButton))
      ensures pathname == old(pathname) && openDropdown == old(openDropdown)
      ensures isDarkMode == old(isDarkMode) && rootDark == old(rootDark)
    {
      if isOpen && !insideSidebar && !onMenuButton {
        isOpen := false;
      }
    }

    /** Navigation to another path: the sidebar and every group close. */
    method PathnameChanged(newPath: string)
      modifies this
      ensures pathname == newPath && !isOpen && openDropdown.None?
      ensures isDarkMode == old(isDarkMode) && rootDark == old(rootDark)
    {
      pathname := newPath;
      isOpen := false;
      openDropdown := None;
    }

    /** The theme button: the mode flips, the document follows, and the new mode is stored as "dark" or "light". */
    method ToggleDarkMode(storage: BrowserStorage)
      modifies this, storage
      ensures isDarkMode == !old(isDarkMode) && rootDark == isDarkMode
      ensures storage.entries == old(storage.entries)[ThemeKey := if isDarkMode then "dark" else "light"]
      ensures InitialDark(storage.GetItem(ThemeKey)) == isDarkMode
      ensures pathname == old(pathname) && isOpen == old(isOpen) && openDropdown == old(openDropdown)
    {
      var newMode := !isDarkMode;
      isDarkMode := newMode;
      rootDark := newMode;
      storage.SetItem(ThemeKey, Str(if newMode then "dark" else "light"));
    }

    /** The logout button: only a successful logout moves to "/login"; a failure changes nothing. */
    method Logout(reply: Settled) returns (navigation: Option<Navigation>)
      ensures reply.Resolved? <==> navigation == Some(NavigateTo("/login", 0))
      ensures reply.Threw? ==> navigation.None?
    {
      navigation := if reply.Resolved? then Some(NavigateTo("/login", 0)) else None;
    }
  }
}
