/** The admin sidebar: seven links, each highlighted when the current path is
    its page or lies below it. */
module AdminSidebar {
  import opened Common

  datatype NavItem = NavItem(name: string, href: string)

  const Navigation: seq<NavItem> := [
    NavItem("Dashboard", "/admin"),
    NavItem("Products", "/admin/products"),
    NavItem("Categories", "/admin/categories"),
    NavItem("Orders", "/admin/orders"),
    NavItem("Customers", "/admin/customers"),
    NavItem("Analytics", "/admin/analytics"),
    NavItem("Settings", "/admin/settings")
  ]

  /** `pathname === href || pathname.startsWith(href + "/")`. */
  predicate IsActive(pathname: string, href: string)
  {
    pathname == href || StartsWith(pathname, href + "/")
  }

  /** The highlighted entries, in menu order. */
  function ActiveItems(pathname: string, items: seq<NavItem>): (r: seq<NavItem>)
    ensures forall item :: item in r <==> item in items && IsActive(pathname, item.href)
  {
    if items == [] then []
    else if IsActive(pathname, items[0].href) then [items[0]] + ActiveItems(pathname, items[1..])
    else ActiveItems(pathname, items[1..])
  }

  /** An entry is highlighted exactly when the path is its href followed by
      nothing or by a segment boundary. */
  lemma ActiveMeansSegmentPrefix(pathname: string, href: string)
    ensures IsActive(pathname, href) <==>
      exists rest :: pathname == href + rest && (rest == "" || rest[0] == '/')
  {
    if IsActive(pathname, href) {
      var rest := pathname[|href|..];
      assert pathname == href + rest;
    }
    if exists rest :: pathname == href + rest && (rest == "" || rest[0] == '/') {
      var rest :| pathname == href + rest && (rest == "" || rest[0] == '/');
      if rest != "" {
        assert pathname[..|href| + 1] == href + "/";
      }
    }
  }

  /** There are seven entries and no two share an href. */
  lemma SevenDistinctEntries()
    ensures |Navigation| == 7
    ensures forall i, j :: 0 <= i < j < |Navigation| ==> Navigation[i].href != Navigation[j].href
  {
  }

  /** A longer word does not highlight an entry: "/admin/productsX" is not
      below "/admin/products". */
  lemma SlashBoundary()
    ensures !IsActive("/admin/productsX", "/admin/products")
  {
    assert "/admin/productsX"[15] != "/admin/products/"[15];
  }

  /** Dashboard is highlighted on every admin page, so on a section page two
      entries are highlighted at once. */
  lemma DashboardAlwaysActive(pathname: string)
    requires StartsWith(pathname, "/admin/")
    ensures IsActive(pathname, "/admin")
  {
  }

  lemma TwoActiveOnProductPage()
    ensures ActiveItems("/admin/products/7", Navigation) ==
      [NavItem("Dashboard", "/admin"), NavItem("Products", "/admin/products")]
  {
    var p := "/admin/products/7";
    assert IsActive(p, "/admin") && IsActive(p, "/admin/products");
    LaterEntriesInactive();
    assert Navigation[1..][1..] == Navigation[2..];
  }

  /** On a product page none of the entries after Products is highlighted. */
  lemma LaterEntriesInactive()
    ensures ActiveItems("/admin/products/7", Navigation[2..]) == []
  {
    var p := "/admin/products/7";
    var rest := Navigation[2..];
    forall i | 0 <= i < |rest| ensures !IsActive(p, rest[i].href) {
      DiffersAt(p, rest[i].href, 7);
    }
    NoneActive(p, rest);
  }

  /** A path that differs from `href` within `href`'s length is not below it. */
  lemma DiffersAt(pathname: string, href: string, k: nat)
    requires k < |href| && k < |pathname| && pathname[k] != href[k]
    ensures !IsActive(pathname, href)
  {
  }

  lemma {:induction false} NoneActive(pathname: string, items: seq<NavItem>)
    requires forall i :: 0 <= i < |items| ==> !IsActive(pathname, items[i].href)
    ensures ActiveItems(pathname, items) == []
  {
    if items != [] {
      NoneActive(pathname, items[1..]);
    }
  }
}
