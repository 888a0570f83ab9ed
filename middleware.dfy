// The request gate in front of the dashboard pages and the data APIs (middleware.ts).

module Middleware {
  import opened Common

  const ProtectedPaths: seq<string> :=
    ["/dashboard", "/api/restaurants", "/api/reservations", "/api/reviews", "/api/favorites"]

  /** One entry of the `some` test: dynamic entries match on their parent path. */
  predicate MatchesEntry(path: string, pathname: string) {
    if '[' in path && ']' in path then
      var pieces := Split(path, '/');
      StartsWith(pathname, Join(pieces[..|pieces| - 1], "/"))
    else StartsWith(pathname, path)
  }

  /** `protectedPaths.some(...)` */
  predicate IsProtectedPath(pathname: string) {
    exists i :: 0 <= i < |ProtectedPaths| && MatchesEntry(ProtectedPaths[i], pathname)
  }

  /** None of the listed entries is dynamic, so protection is plain prefix matching. */
  lemma ProtectedIsPrefix(pathname: string)
    ensures IsProtectedPath(pathname) <==> exists i :: 0 <= i < |ProtectedPaths| && StartsWith(pathname, ProtectedPaths[i])
  {
    forall i | 0 <= i < |ProtectedPaths|
      ensures MatchesEntry(ProtectedPaths[i], pathname) == StartsWith(pathname, ProtectedPaths[i])
    {
      assert '[' !in ProtectedPaths[i];
    }
  }

  datatype Decision =
    | Next
    | Unauthorized(status: int, error: string)
    | RedirectToLogin(callbackUrl: string)

  /**
   * The decision for a request: `bearer` is the authorization header, `hasSession`
   * whether a session token decodes (the lookup itself is an input).
   */
  function Decide(pathname: string, bearer: Option<string>, hasSession: bool): (r: Decision)
    ensures !IsProtectedPath(pathname) ==> r == Next
    ensures IsProtectedPath(pathname) && StartsWith(pathname, "/api") ==>
      (r == Next <==> (bearer.Some? && StartsWith(bearer.value, "Bearer ")) || hasSession)
    ensures IsProtectedPath(pathname) && StartsWith(pathname, "/api") && r != Next ==>
      r == Unauthorized(401, "Authorization required")
    ensures IsProtectedPath(pathname) && !StartsWith(pathname, "/api") ==>
      r == if hasSession then Next else RedirectToLogin(pathname)
  {
    if !IsProtectedPath(pathname) then Next
    else if StartsWith(pathname, "/api") then
      if bearer.Some? && StartsWith(bearer.value, "Bearer ") then Next
      else if hasSession then Next
      else Unauthorized(401, "Authorization required")
    else if !hasSession then RedirectToLogin(pathname)
    else Next
  }

  /**
   * The `config.matcher` entries `/base/:path*`: Next.js runs the middleware on
   * a base itself and on every path below it, and on no other path.
   */
  const MatcherBases: seq<string> :=
    ["/dashboard", "/api/restaurants", "/api/reservations", "/api/reviews", "/api/favorites"]

  /** `/base/:path*` selects the base and the paths below it. */
  predicate Selects(base: string, pathname: string) {
    pathname == base || StartsWith(pathname, base + "/")
  }

  predicate Matched(pathname: string) {
    exists i :: 0 <= i < |MatcherBases| && Selects(MatcherBases[i], pathname)
  }

  /** A path the matcher selects starts with a protected entry. */
  lemma MatchedIsProtected(pathname: string)
    requires Matched(pathname)
    ensures IsProtectedPath(pathname)
  {
    var i :| 0 <= i < |MatcherBases| && Selects(MatcherBases[i], pathname);
    var e := MatcherBases[i];
    assert e == ProtectedPaths[i];
    if pathname != e {
      assert pathname[..|e|] == pathname[..|e| + 1][..|e|];
      assert (e + "/")[..|e|] == e;
    }
    assert StartsWith(pathname, ProtectedPaths[i]);
    ProtectedIsPrefix(pathname);
  }

  /**
   * What happens to a request: a path the matcher does not select passes on
   * untouched; on a selected one the middleware's rules decide.
   */
  function Handle(pathname: string, bearer: Option<string>, hasSession: bool): (r: Decision)
    ensures !Matched(pathname) ==> r == Next
    ensures Matched(pathname) && StartsWith(pathname, "/api") ==>
      (r == Next <==> (bearer.Some? && StartsWith(bearer.value, "Bearer ")) || hasSession)
    ensures Matched(pathname) && StartsWith(pathname, "/api") && r != Next ==>
      r == Unauthorized(401, "Authorization required")
    ensures Matched(pathname) && !StartsWith(pathname, "/api") ==>
      r == if hasSession then Next else RedirectToLogin(pathname)
  {
    if Matched(pathname) then
      MatchedIsProtected(pathname);
      Decide(pathname, bearer, hasSession)
    else Next
  }

  /** A path that differs from an entry at some position does not start with it. */
  lemma Mismatch(pathname: string, entry: string, k: nat)
    requires k < |entry| && k < |pathname| && pathname[k] != entry[k]
    ensures !StartsWith(pathname, entry)
  {
    if |entry| <= |pathname| {
      assert pathname[..|entry|][k] == pathname[k];
    }
  }

  /** A path that differs from `base + "/"` at some position it has is not selected by `base`. */
  lemma NotSelected(base: string, pathname: string, k: nat)
    requires k <= |base| && k < |pathname| && pathname[k] != (base + "/")[k]
    ensures !Selects(base, pathname)
  {
    Mismatch(pathname, base + "/", k);
    if k < |base| {
      assert (base + "/")[k] == base[k];
    }
  }

  /**
   * "/dashboardX" only starts like a protected page: `isProtectedPath` alone
   * would send it to the login page, but the matcher does not select it, so it
   * passes on without a session.
   */
  lemma UnmatchedLookalike()
    ensures IsProtectedPath("/dashboardX") && !Matched("/dashboardX")
    ensures Decide("/dashboardX", None, false) == RedirectToLogin("/dashboardX")
    ensures Handle("/dashboardX", None, false) == Next
  {
    var p := "/dashboardX";
    ProtectedIsPrefix(p);
    assert StartsWith(p, ProtectedPaths[0]) by {
      assert p[..10] == "/dashboard";
    }
    Mismatch(p, "/api", 1);
    LookalikeUnmatched();
  }

  /** "/dashboardX" differs from "/dashboard/" at its eleventh character and from the API bases at the second. */
  lemma LookalikeUnmatched()
    ensures !Matched("/dashboardX")
  {
    var p := "/dashboardX";
    NotSelected(MatcherBases[0], p, 10);
    NotSelected(MatcherBases[1], p, 1);
    NotSelected(MatcherBases[2], p, 1);
    NotSelected(MatcherBases[3], p, 1);
    NotSelected(MatcherBases[4], p, 1);
    NoneSelects(p);
  }

  /** A path that none of the five entries selects is not matched. */
  lemma NoneSelects(pathname: string)
    requires !Selects(MatcherBases[0], pathname) && !Selects(MatcherBases[1], pathname)
    requires !Selects(MatcherBases[2], pathname) && !Selects(MatcherBases[3], pathname)
    requires !Selects(MatcherBases[4], pathname)
    ensures !Matched(pathname)
  {
    forall i | 0 <= i < |MatcherBases| ensures !Selects(MatcherBases[i], pathname) {
      assert i == 0 || i == 1 || i == 2 || i == 3 || i == 4;
    }
  }

  /** The public restaurant list is passed through: it differs from every base at the second character. */
  lemma PublicPageExample()
    ensures Handle("/restaurants", None, false) == Next
  {
    var p := "/restaurants";
    NotSelected(MatcherBases[0], p, 1);
    NotSelected(MatcherBases[1], p, 1);
    NotSelected(MatcherBases[2], p, 1);
    NotSelected(MatcherBases[3], p, 1);
    NotSelected(MatcherBases[4], p, 1);
    NoneSelects(p);
  }
}
