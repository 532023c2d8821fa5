/** The storefront's navigation bar: which link is highlighted for a path,
    whether the admin entry is offered, and the cart badge. */
module Navbar {
  import opened Common
  import opened Store
  import Auth

  /** How a link decides it is the current page: on its own path only, or on
      its path and everything below it. */
  datatype Rule = Exact | Section

  datatype NavLink = NavLink(name: string, href: string, rule: Rule)

  /** The links, both in the desktop bar and in the mobile menu. */
  const Links: seq<NavLink> := [
    NavLink("Home", "/", Exact),
    NavLink("Products", "/products", Section),
    NavLink("About", "/about", Exact),
    NavLink("Contact", "/contact", Exact)
  ]

  predicate IsActive(pathname: string, link: NavLink)
  {
    match link.rule
    case Exact => pathname == link.href
    case Section => pathname == link.href || StartsWith(pathname, link.href + "/")
  }

  /** Home, About and Contact are highlighted on their own path only;
      Products on "/products" and every path below it. */
  lemma HighlightRules(pathname: string)
    ensures IsActive(pathname, Links[0]) <==> pathname == "/"
    ensures IsActive(pathname, Links[1]) <==> pathname == "/products" || StartsWith(pathname, "/products/")
    ensures IsActive(pathname, Links[2]) <==> pathname == "/about"
    ensures IsActive(pathname, Links[3]) <==> pathname == "/contact"
  {
  }

  /** A product page highlights Products and not Home, although every path
      starts with "/". */
  lemma ProductPageHighlightsProducts()
    ensures IsActive("/products/lamp", Links[1])
    ensures !IsActive("/products/lamp", Links[0])
    ensures !IsActive("/productsale", Links[1])
  {
    assert "/products/lamp"[..10] == "/products/";
    assert "/productsale"[9] != '/';
  }

  /** `isAdmin`: false until a session is found, then whether the role read
      returned "admin" (`data?.role`, so a failed read gives false). */
  function IsAdmin(session: Option<string>, users: map<string, User>, roleReadFails: bool): (admin: bool)
    ensures admin ==> session.Some? && session.value in users && !roleReadFails
  {
    session.Some? && Auth.RoleOf(session.value, users, roleReadFails) == Some("admin")
  }

  /** The account menu: a sign-in link without a user; otherwise profile,
      order history and, for an admin only, the dashboard. */
  function MenuLinks(session: Option<string>, admin: bool): (links: seq<string>)
    ensures session.None? ==> links == ["/auth/signin"]
    ensures session.Some? ==> |links| >= 2 && links[..2] == ["/profile", "/profile/orders"]
  {
    if session.None? then ["/auth/signin"]
    else ["/profile", "/profile/orders"] + (if admin then ["/admin"] else [])
  }

  /** The dashboard entry is offered exactly to the users the admin gate lets
      through, when both role reads end the same way. */
  lemma AdminEntryMatchesGate(session: Option<string>, users: map<string, User>, roleReadFails: bool)
    ensures "/admin" in MenuLinks(session, IsAdmin(session, users, roleReadFails))
        <==> Auth.RequireAdmin(session, users, roleReadFails).Proceed?
  {
    Auth.ProceedOnlyForAdmins(session, users, roleReadFails);
    var links := MenuLinks(session, IsAdmin(session, users, roleReadFails));
    if session.Some? && !IsAdmin(session, users, roleReadFails) {
      assert links == ["/profile", "/profile/orders"];
    }
  }

  /** The count shown on the cart icon, when one is shown (here and in the
      header). */
  function CartBadge(cartCount: int): (badge: Option<int>)
    ensures badge.Some? <==> cartCount > 0
    ensures badge.Some? ==> badge.value == cartCount
  {
    if cartCount > 0 then Some(cartCount) else None
  }
}
