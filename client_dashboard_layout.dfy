// The dashboard shell (app/dashboard/layout.tsx): the sidebar links by user type,
// which of them is highlighted, and the redirect of a visitor who is not signed in.

module DashboardLayout {
  import opened Common
  import opened Db
  import AuthContext

  datatype NavLink = NavLink(href: string, text: string)

  const CommonLinks: seq<NavLink> := [
    NavLink("/dashboard", "Dashboard"),
    NavLink("/dashboard/reservations", "Reservations"),
    NavLink("/dashboard/settings", "Settings")
  ]

  const CustomerLinks: seq<NavLink> := [
    NavLink("/dashboard/favorites", "Favorites"),
    NavLink("/dashboard/reviews", "My Reviews")
  ]

  const RestaurantLinks: seq<NavLink> := [
    NavLink("/dashboard/restaurant-profile", "Restaurant Profile"),
    NavLink("/dashboard/menu", "Menu Management"),
    NavLink("/dashboard/reviews", "Reviews"),
    NavLink("/dashboard/images", "Image Gallery")
  ]

  /**
   * getNavLinks: the common links, then the customer's or else the restaurant's;
   * `userType` is `user?.userType`, absent without a user.
   */
  function NavLinks(userType: Option<string>): (r: seq<NavLink>)
    ensures |r| == if userType == Some("customer") then 5 else 7
    ensures r[..3] == CommonLinks
    ensures r[3..] == if userType == Some("customer") then CustomerLinks else RestaurantLinks
  {
    if userType == Some("customer") then CommonLinks + CustomerLinks else CommonLinks + RestaurantLinks
  }

  /** isActive: the dashboard home only on its own path, every other link on its whole subtree. */
  function IsActive(pathname: string, path: string): (r: bool)
    ensures path == "/dashboard" ==> (r <==> pathname == "/dashboard")
    ensures path != "/dashboard" ==> (r <==> |path| <= |pathname| && pathname[..|path|] == path)
  {
    LinkActive("/dashboard", pathname, path)
  }

  /** Every user type gets the dashboard home, which is highlighted on the home page. */
  lemma HomeLinkFirst(userType: Option<string>)
    ensures NavLinks(userType)[0] == NavLink("/dashboard", "Dashboard")
    ensures IsActive("/dashboard", NavLinks(userType)[0].href)
    ensures !IsActive("/dashboard/menu", NavLinks(userType)[0].href)
  {
    assert NavLinks(userType)[0] == NavLinks(userType)[..3][0];
  }

  /** A sub-link is not highlighted on a path that differs from its own at a position both have. */
  lemma {:induction false} NotActiveAt(pathname: string, path: string, k: nat)
    requires path != "/dashboard"
    requires k < |path| && k < |pathname| && pathname[k] != path[k]
    ensures !IsActive(pathname, path)
  {
    if |path| <= |pathname| {
      assert pathname[..|path|][k] == pathname[k];
    }
  }

  /** Two sub-links whose paths differ at a position both have are never highlighted together. */
  lemma {:induction false} Apart(pathname: string, a: string, b: string, k: nat)
    requires a != "/dashboard" && b != "/dashboard"
    requires k < |a| && k < |b| && a[k] != b[k]
    ensures !IsActive(pathname, a) || !IsActive(pathname, b)
  {
    if |a| <= |pathname| && |b| <= |pathname| {
      assert pathname[..|a|][k] == pathname[k];
      assert pathname[..|b|][k] == pathname[k];
    }
  }

  /** The home link is highlighted only on the home page, where no sub-link is. */
  lemma {:induction false} HomeExcludesSubLinks(pathname: string, userType: Option<string>)
    ensures forall j :: 0 < j < |NavLinks(userType)| ==>
      !IsActive(pathname, NavLinks(userType)[0].href) || !IsActive(pathname, NavLinks(userType)[j].href)
  {
    var links := NavLinks(userType);
    HomeLinkFirst(userType);
    forall j | 0 < j < |links| ensures !IsActive(pathname, links[0].href) || !IsActive(pathname, links[j].href) {
      assert |links[j].href| > 10;
    }
  }

  /** Sub-links of one list differ right after "/dashboard/", or soon after among the "res…" paths. */
  lemma {:induction false} SubLinksApart(pathname: string, links: seq<NavLink>)
    requires links == CommonLinks + CustomerLinks || links == CommonLinks + RestaurantLinks
    ensures forall i, j :: 0 < i < j < |links| ==>
      !IsActive(pathname, links[i].href) || !IsActive(pathname, links[j].href)
  {
    forall i, j | 0 < i < j < |links|
      ensures !IsActive(pathname, links[i].href) || !IsActive(pathname, links[j].href)
    {
      var a := links[i].href;
      var b := links[j].href;
      var k := if a[11] != b[11] then 11 else if a[13] != b[13] then 13 else 14;
      Apart(pathname, a, b, k);
    }
  }

  /** Whatever the page, at most one sidebar link is highlighted. */
  lemma {:induction false} AtMostOneActive(pathname: string, userType: Option<string>)
    ensures forall i, j :: 0 <= i < j < |NavLinks(userType)| ==>
      !IsActive(pathname, NavLinks(userType)[i].href) || !IsActive(pathname, NavLinks(userType)[j].href)
  {
    HomeExcludesSubLinks(pathname, userType);
    if userType == Some("customer") {
      SubLinksApart(pathname, CommonLinks + CustomerLinks);
    } else {
      SubLinksApart(pathname, CommonLinks + RestaurantLinks);
    }
  }

  /** On a menu sub-page a restaurant owner sees Menu Management highlighted and neither neighbour. */
  lemma MenuSubpageHighlight()
    ensures IsActive("/dashboard/menu/categories/c1", NavLinks(Some("restaurant"))[4].href)
    ensures !IsActive("/dashboard/menu/categories/c1", NavLinks(Some("restaurant"))[3].href)
    ensures !IsActive("/dashboard/menu/categories/c1", NavLinks(Some("restaurant"))[5].href)
  {
    var p := "/dashboard/menu/categories/c1";
    var links := NavLinks(Some("restaurant"));
    assert links[3..] == RestaurantLinks;
    assert links[3] == RestaurantLinks[0] && links[4] == RestaurantLinks[1] && links[5] == RestaurantLinks[2];
    assert p[..15] == "/dashboard/menu";
    NotActiveAt(p, "/dashboard/restaurant-profile", 11);
    NotActiveAt(p, "/dashboard/reviews", 11);
  }

  /** The reviews link is shared: customers see it as "My Reviews", owners as "Reviews". */
  lemma ReviewsLinkLabels()
    ensures NavLinks(Some("customer"))[4] == NavLink("/dashboard/reviews", "My Reviews")
    ensures NavLinks(Some("restaurant"))[5] == NavLink("/dashboard/reviews", "Reviews")
    ensures NavLinks(None)[5] == NavLink("/dashboard/reviews", "Reviews")
  {
    assert NavLinks(Some("customer"))[3..] == CustomerLinks;
    assert NavLinks(Some("restaurant"))[3..] == RestaurantLinks;
    assert NavLinks(None)[3..] == RestaurantLinks;
  }

  /** The layout sends a visitor to the login page only when both the user and the token are missing. */
  function LoginRedirect(hasUser: bool, hasToken: bool): (r: Option<string>)
    ensures r.Some? <==> !hasUser && !hasToken
    ensures r.Some? ==> r.value == "/login"
  {
    if !hasUser && !hasToken then Some("/login") else None
  }

  /**
   * Fed from the auth context, whose `token` member is always undefined, the
   * layout redirects exactly when there is no session.
   */
  lemma LoginRedirectUnderAuthContext(session: Option<AuthContext.SessionUser>, isLoading: bool)
    ensures var c := AuthContext.UseAuth(session, isLoading);
      LoginRedirect(c.user.Some?, Truthy(Member(c.members, "token"))).Some? <==> session.None?
  {
    AuthContext.TokenAndUnderscoreIdUndefined(session, isLoading);
  }
}
