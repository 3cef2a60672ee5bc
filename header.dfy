/**
 * The site header: a menu of seven links, a quote button and an admin
 * button, each shown on the bar and again in the mobile menu sheet.
 * Navigation is decided on the link's prefix and the current path.
 */
module Header {
  import opened Text

  const Home: string := "/"
  const Anchor: string := "/#"
  const OpenQuoteDialog: string := "open-quote-dialog"
  const ShowAdminSection: string := "show-admin-section"
  const QuoteAnchor: string := "/#quote"
  const AdminAnchor: string := "/#admin"

  /** What a click makes the browser do. */
  datatype Action =
    | ScrollTo(elementId: string)   // scroll the home page to an element
    | Push(href: string)            // client-side route change
    | Assign(href: string)          // full page load through `window.location`
    | Dispatch(event: string)       // a window event the home page listens to

  datatype NavItem = NavItem(name: string, href: string)

  const Navigation: seq<NavItem> := [
    NavItem("Inicio", "/"),
    NavItem("Productos", "/#productos-destacados"),
    NavItem("¿Por qué elegirnos?", "/#por-que-elegir"),
    NavItem("Servicios", "/#servicios"),
    NavItem("Proceso", "/#proceso"),
    NavItem("Técnica", "/tecnicas"),
    NavItem("Contacto", "/#contacto")
  ]

  /** The decision of `handleNavigation`. */
  function Navigate(href: string, pathname: string): (a: Action)
    ensures a.ScrollTo? <==> StartsWith(href, Anchor) && pathname == Home
    ensures a.ScrollTo? ==> Anchor + a.elementId == href
    ensures a.Push? <==> StartsWith(href, Home) && !(StartsWith(href, Anchor) && pathname == Home)
    ensures a.Assign? <==> !StartsWith(href, Home)
    ensures a.Push? || a.Assign? ==> a.href == href
    ensures !a.Dispatch?
  {
    if StartsWith(href, Anchor) then
      if pathname == Home then
        assert href == Anchor + href[2..];
        ScrollTo(href[2..])
      else Push(href)
    else if StartsWith(href, Home) then Push(href)
    else Assign(href)
  }

  /** The quote and admin buttons: an event on the home page, a route change to its anchor elsewhere. */
  function ButtonAction(event: string, anchor: string, pathname: string): (a: Action)
    ensures a.Dispatch? <==> pathname == Home
    ensures a.Dispatch? ==> a.event == event
    ensures !a.Dispatch? ==> a == Push(anchor)
  {
    if pathname == Home then Dispatch(event) else Push(anchor)
  }

  /** Every menu link is internal, so no menu entry ever loads a page through `window.location`. */
  lemma MenuStaysInSite(i: nat, pathname: string)
    requires i < |Navigation|
    ensures !Navigate(Navigation[i].href, pathname).Assign?
  {
    var href := Navigation[i].href;
    assert href[..1] == Home;
  }

  /** An anchor link followed from another page lands on the home page with the same anchor. */
  lemma AnchorFromElsewhere(id: string, pathname: string)
    requires pathname != Home
    ensures Navigate(Anchor + id, pathname) == Push(Anchor + id)
    ensures Navigate(Anchor + id, Home) == ScrollTo(id)
  {
    assert (Anchor + id)[..2] == Anchor;
    assert (Anchor + id)[2..] == id;
  }

  class HeaderBar {
    /** Whether the mobile menu sheet is open. */
    var isOpen: bool
    /** What the clicks made the browser do, oldest first. */
    var actions: seq<Action>

    constructor ()
      ensures !isOpen && actions == []
    {
      isOpen := false;
      actions := [];
    }

    /** The sheet's `onOpenChange`. */
    method SetOpen(open: bool)
      modifies this
      ensures isOpen == open && actions == old(actions)
    {
      isOpen := open;
    }

    /** `handleNavigation`: the menu is closed before anything else happens. */
    method HandleNavigation(href: string, pathname: string)
      modifies this
      ensures !isOpen
      ensures actions == old(actions) + [Navigate(href, pathname)]
    {
      isOpen := false;
      actions := actions + [Navigate(href, pathname)];
    }

    /** The quote button; only its copy in the mobile sheet closes the sheet. */
    method QuoteButton(pathname: string, inSheet: bool)
      modifies this
      ensures isOpen == (old(isOpen) && !inSheet)
      ensures actions == old(actions) + [ButtonAction(OpenQuoteDialog, QuoteAnchor, pathname)]
    {
      if inSheet {
        isOpen := false;
      }
      actions := actions + [ButtonAction(OpenQuoteDialog, QuoteAnchor, pathname)];
    }

    /** The admin button; only its copy in the mobile sheet closes the sheet. */
    method AdminButton(pathname: string, inSheet: bool)
      modifies this
      ensures isOpen == (old(isOpen) && !inSheet)
      ensures actions == old(actions) + [ButtonAction(ShowAdminSection, AdminAnchor, pathname)]
    {
      if inSheet {
        isOpen := false;
      }
      actions := actions + [ButtonAction(ShowAdminSection, AdminAnchor, pathname)];
    }
  }
}
