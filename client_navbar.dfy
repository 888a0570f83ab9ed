// The site header (components/navbar.tsx): the fixed links, which of them is
// highlighted, and the buttons that depend on whether someone is signed in.

module Navbar {
  import opened Common

  datatype NavLink = NavLink(href: string, text: string)

  const NavLinks: seq<NavLink> := [
    NavLink("/restaurants", "Restaurants"),
    NavLink("/about", "About"),
    NavLink("/contact", "Contact")
  ]

  /** isActive: the home page only on "/" itself, every other path on its whole subtree. */
  function IsActive(pathname: string, path: string): (r: bool)
    ensures path == "/" ==> (r <==> pathname == "/")
    ensures path != "/" ==> (r <==> |path| <= |pathname| && pathname[..|path|] == path)
  {
    LinkActive("/", pathname, path)
  }

  /** A button of the right-hand group: a link (or the log-out action) and whether it is highlighted. */
  datatype AuthButton = AuthButton(text: string, href: Option<string>, highlighted: bool)

  /** Dashboard and Log Out for a signed-in user; Log In and Sign Up otherwise. */
  function AuthButtons(signedIn: bool, pathname: string): (r: seq<AuthButton>)
    ensures |r| == 2
    ensures signedIn ==> r[0].text == "Dashboard" && r[0].href == Some("/dashboard") && r[1] == AuthButton("Log Out", None, false)
    ensures !signedIn ==> r[0].text == "Log In" && r[0].href == Some("/login")
    ensures !signedIn ==> r[1].text == "Sign Up" && r[1].href == Some("/register")
    ensures forall b :: b in r && b.href.Some? ==> (b.highlighted <==> IsActive(pathname, b.href.value))
  {
    if signedIn then
      [AuthButton("Dashboard", Some("/dashboard"), IsActive(pathname, "/dashboard")), AuthButton("Log Out", None, false)]
    else
      [AuthButton("Log In", Some("/login"), IsActive(pathname, "/login")),
       AuthButton("Sign Up", Some("/register"), IsActive(pathname, "/register"))]
  }

  /** A link is not highlighted on a path that differs from it at a position both have. */
  lemma NotActiveAt(pathname: string, path: string, k: nat)
    requires path != "/" && k < |path| && k < |pathname| && pathname[k] != path[k]
    ensures !IsActive(pathname, path)
  {
    if |path| <= |pathname| {
      assert pathname[..|path|][k] == pathname[k];
    }
  }

  /** The three header links differ at their second character, so no page highlights two of them. */
  lemma AtMostOneNavLink(pathname: string, i: nat, j: nat)
    requires i < |NavLinks| && j < |NavLinks| && i != j
    ensures !(IsActive(pathname, NavLinks[i].href) && IsActive(pathname, NavLinks[j].href))
  {
    if |pathname| > 1 {
      if pathname[1] != NavLinks[i].href[1] {
        NotActiveAt(pathname, NavLinks[i].href, 1);
      } else {
        NotActiveAt(pathname, NavLinks[j].href, 1);
      }
    } else {
      assert !IsActive(pathname, NavLinks[i].href);
    }
  }

  /** A dashboard sub-page highlights the Dashboard button. */
  lemma DashboardSubpage()
    ensures AuthButtons(true, "/dashboard/menu")[0].highlighted
  {
    assert "/dashboard/menu"[..10] == "/dashboard";
  }

  /** At most one button of the right-hand group is highlighted on any page. */
  lemma AtMostOneButton(signedIn: bool, pathname: string)
    ensures !(AuthButtons(signedIn, pathname)[0].highlighted && AuthButtons(signedIn, pathname)[1].highlighted)
  {
    if !signedIn && |pathname| > 1 {
      if pathname[1] != 'l' {
        NotActiveAt(pathname, "/login", 1);
      } else {
        NotActiveAt(pathname, "/register", 1);
      }
    }
  }
}
