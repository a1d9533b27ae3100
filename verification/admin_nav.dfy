/** The side navigation of src/app/admin/AdminShell.tsx: the table of links and the test
    that picks the highlighted one. Icons and markup are not modelled. */
module AdminNav {
  import opened Common

  datatype NavLink = NavLink(href: string, caption: string)

  const DashboardHref: string := "/admin"

  /** The `links` table, in display order. */
  const Links: seq<NavLink> := [
    NavLink("/admin", "Dashboard"),
    NavLink("/admin/products", "Products"),
    NavLink("/admin/orders", "Orders"),
    NavLink("/admin/categories", "Categories")
  ]

  /** `isActive`: the pathname is the link itself, or lies below it, except that the
      dashboard link never claims sub-paths. */
  predicate IsActive(pathname: string, href: string): (r: bool)
    ensures r ==> StartsWith(pathname, href)
  {
    if pathname == href then true
    else if StartsWith(pathname, href + "/") && href != DashboardHref then
      assert pathname[..|href|] == pathname[..|href + "/"|][..|href|];
      true
    else false
  }

  /** The table holds four links, in the order Dashboard, Products, Orders, Categories. */
  lemma LinkTable()
    ensures |Links| == 4
    ensures Links[0] == NavLink("/admin", "Dashboard")
    ensures Links[1] == NavLink("/admin/products", "Products")
    ensures Links[2] == NavLink("/admin/orders", "Orders")
    ensures Links[3] == NavLink("/admin/categories", "Categories")
  {
  }

  /** A link is active on its own pathname. */
  lemma ActiveOnItself(href: string)
    ensures IsActive(href, href)
  {
  }

  /** The dashboard link is active for exactly `/admin`, for no sub-path. */
  lemma DashboardOnlyExact(pathname: string)
    ensures IsActive(pathname, DashboardHref) <==> pathname == DashboardHref
  {
  }

  /** Any other link is active for every pathname below it. */
  lemma ActiveBelow(href: string, rest: string)
    requires href != DashboardHref
    ensures IsActive(href + "/" + rest, href)
  {
    assert (href + "/" + rest)[..|href + "/"|] == href + "/";
  }

  /** A pathname that runs on past `href` without a `/` separator is not active for it,
      so `/admin/productsX` does not light up `/admin/products`. */
  lemma NoSeparatorNotActive(href: string, rest: string)
    requires rest != [] && rest[0] != '/'
    ensures !IsActive(href + rest, href)
  {
    var p := href + rest;
    assert p != href by {
      assert |p| > |href|;
    }
    assert p[..|href| + 1][|href|] == rest[0];
    assert (href + "/")[|href|] == '/';
    assert p[..|href| + 1] != href + "/";
  }

  /** Whatever the pathname, at most one link of the table is active. */
  lemma AtMostOneActive(pathname: string, i: nat, j: nat)
    requires i < |Links| && j < |Links|
    requires IsActive(pathname, Links[i].href) && IsActive(pathname, Links[j].href)
    ensures i == j
  {
    if i == 0 || j == 0 {
      DashboardOnlyExact(pathname);
    } else {
      assert pathname[7] == Links[i].href[7] && pathname[7] == Links[j].href[7];
    }
  }
}
