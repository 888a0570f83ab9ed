// The menu management page (app/dashboard/menu/page.tsx): who may open it, the
// categories in display order, the routes of its buttons and the dietary badges.

module MenuPage {
  import opened Common
  import opened Db
  import AuthContext

  /** The signed-in user as the auth context holds it. */
  datatype SessionUser = SessionUser(id: string, userType: string)

  /** Where the page's effect leaves the visitor. */
  datatype Access =
    | ToLogin
    | ToDashboard
    | ToRestaurantProfile
    | LoadFailed
    | Manage(restaurant: Restaurant)

  /**
   * The effect: sign-in and role checks, then the owned restaurant among the
   * fetched ones; `fetched` is absent when the fetch throws.
   */
  function PageAccess(user: Option<SessionUser>, token: Option<string>, fetched: Option<seq<Restaurant>>): (r: Access)
    ensures r == ToLogin <==> user.None? || !Present(token)
    ensures r == ToDashboard <==> user.Some? && Present(token) && user.value.userType != "restaurant"
    ensures r.Manage? ==> fetched.Some? && r.restaurant in fetched.value && r.restaurant.ownerId == user.value.id
    ensures r == ToRestaurantProfile ==>
      fetched.Some? && forall x :: x in fetched.value ==> x.ownerId != user.value.id
    ensures r == LoadFailed <==>
      user.Some? && Present(token) && user.value.userType == "restaurant" && fetched.None?
  {
    if user.None? || !Present(token) then ToLogin
    else if user.value.userType != "restaurant" then ToDashboard
    else if fetched.None? then LoadFailed
    else
      match FindFirst(fetched.value, (x: Restaurant) => x.ownerId == user.value.id)
      case Some(owned) => Manage(owned)
      case None => ToRestaurantProfile
  }

  /** An owner whose restaurant is among the fetched ones manages it; the first such one is taken. */
  lemma OwnerManages(user: SessionUser, token: string, fetched: seq<Restaurant>, mine: Restaurant)
    requires user.userType == "restaurant" && token != ""
    requires mine in fetched && mine.ownerId == user.id
    ensures PageAccess(Some(user), Some(token), Some(fetched)).Manage?
  {
  }

  /**
   * The effect as written: it reads `token` from the auth context and compares owner
   * ids with `user._id`, and the context provides neither (see PageAccess for the
   * effect with the stored token and the user's `id`).
   */
  function PageAccessAsWritten(c: AuthContext.ContextValue, fetched: Option<seq<Restaurant>>): (r: Access)
    ensures r == ToLogin <==> c.user.None? || !Truthy(Member(c.members, "token"))
    ensures r.Manage? ==> Str(r.restaurant.ownerId) == Member(c.user.value, "_id")
  {
    if c.user.None? || !Truthy(Member(c.members, "token")) then ToLogin
    else if Member(c.user.value, "userType") != Str("restaurant") then ToDashboard
    else if fetched.None? then LoadFailed
    else
      match FindFirst(fetched.value, (x: Restaurant) => Str(x.ownerId) == Member(c.user.value, "_id"))
      case Some(owned) => Manage(owned)
      case None => ToRestaurantProfile
  }

  /** As written, every visitor is sent to the login page, a signed-in owner included. */
  lemma MenuAlwaysSendsToLogin(session: Option<AuthContext.SessionUser>, isLoading: bool, fetched: Option<seq<Restaurant>>)
    ensures PageAccessAsWritten(AuthContext.UseAuth(session, isLoading), fetched) == ToLogin
  {
    AuthContext.TokenAndUnderscoreIdUndefined(session, isLoading);
  }

  /** Past the token check, `user._id` would match no owner, so no owner would ever manage a menu. */
  lemma UnderscoreIdMatchesNoOwner(c: AuthContext.ContextValue, fetched: Option<seq<Restaurant>>)
    requires c.user.Some? && "_id" !in c.user.value
    ensures !PageAccessAsWritten(c, fetched).Manage?
  {
  }

  /** The owner the corrected effect sees: the context user's `id` and `userType` members. */
  function SessionOf(s: AuthContext.SessionUser): (u: SessionUser)
    ensures Str(u.id) == Member(AuthContext.ContextUser(s), "id")
    ensures Str(u.userType) == Member(AuthContext.ContextUser(s), "userType")
  {
    SessionUser(s.id, if s.userType != "" then s.userType else "customer")
  }

  // ---- categories -------------------------------------------------------------

  predicate OrderLe(a: MenuCategory, b: MenuCategory) {
    a.order <= b.order
  }

  /**
   * `[...(restaurant.menu || [])].sort((a, b) => a.order - b.order)`: the menu's
   * own categories, in ascending `order`; no menu shows none. The restaurant's
   * own list is untouched.
   */
  function SortedCategories(menu: Option<seq<MenuCategory>>): (r: seq<MenuCategory>)
    ensures menu.None? ==> r == []
    ensures menu.Some? ==> multiset(r) == multiset(menu.value)
    ensures forall i, j :: 0 <= i < j < |r| ==> r[i].order <= r[j].order
  {
    SortBySorted(if menu.Some? then menu.value else [], OrderLe);
    SortBy(if menu.Some? then menu.value else [], OrderLe)
  }

  /** A menu already in order is shown as it is. */
  lemma {:induction false} SortedMenuUnchanged(menu: seq<MenuCategory>)
    requires forall i, j :: 0 <= i < j < |menu| ==> menu[i].order <= menu[j].order
    ensures SortBy(menu, OrderLe) == menu
  {
    if menu != [] {
      SortedMenuUnchanged(menu[1..]);
      var rest := menu[1..];
      assert rest == [] || OrderLe(menu[0], rest[0]);
    }
  }

  // ---- routes -------------------------------------------------------------------

  const AddCategoryRoute: string := "/dashboard/menu/categories/new"

  function EditCategoryRoute(categoryId: string): string {
    "/dashboard/menu/categories/" + categoryId
  }

  function AddItemRoute(categoryId: string): (r: string)
    ensures r == EditCategoryRoute(categoryId) + "/items/new"
  {
    "/dashboard/menu/categories/" + categoryId + "/items/new"
  }

  function EditItemRoute(categoryId: string, itemId: string): (r: string)
    ensures r == EditCategoryRoute(categoryId) + "/items/" + itemId
  {
    "/dashboard/menu/categories/" + categoryId + "/items/" + itemId
  }

  /** Each edit route names one category and one item: different ids, different routes. */
  lemma RoutesInjective(c1: string, i1: string, c2: string, i2: string)
    ensures EditCategoryRoute(c1) == EditCategoryRoute(c2) ==> c1 == c2
    ensures '/' !in c1 && '/' !in c2 && EditItemRoute(c1, i1) == EditItemRoute(c2, i2) ==> c1 == c2 && i1 == i2
  {
    var base := "/dashboard/menu/categories/";
    if EditCategoryRoute(c1) == EditCategoryRoute(c2) {
      assert c1 == EditCategoryRoute(c1)[|base|..];
      assert c2 == EditCategoryRoute(c2)[|base|..];
    }
    if '/' !in c1 && '/' !in c2 && EditItemRoute(c1, i1) == EditItemRoute(c2, i2) {
      var t1 := EditItemRoute(c1, i1)[|base|..];
      var t2 := EditItemRoute(c2, i2)[|base|..];
      assert t1 == c1 + "/" + ("items/" + i1);
      assert t2 == c2 + "/" + ("items/" + i2);
      SlashAt(c1, "items/" + i1);
      SlashAt(c2, "items/" + i2);
      assert c1 == t1[..|c1|] && c2 == t2[..|c2|];
      assert t1[|c1| + 7..] == i1 && t2[|c2| + 7..] == i2;
    }
  }

  /** The position of the first `c` in `s`, or `|s|` when there is none. */
  function IndexOf(s: string, c: char): (i: nat)
    ensures i <= |s|
  {
    if s == [] || s[0] == c then 0 else 1 + IndexOf(s[1..], c)
  }

  /** A piece without '/' followed by '/' is found again as the text before the first '/'. */
  lemma {:induction false} SlashAt(a: string, x: string)
    requires '/' !in a
    ensures IndexOf(a + "/" + x, '/') == |a|
  {
    if a != [] {
      assert (a + "/" + x)[1..] == a[1..] + "/" + x;
      SlashAt(a[1..], x);
    }
  }

  /** The category called "new" would share its edit route with the add-category page. */
  lemma NewCategoryRouteClash()
    ensures EditCategoryRoute("new") == AddCategoryRoute
  {
  }

  // ---- dietary badges -------------------------------------------------------

  /** renderDietaryIcons: V for vegetarian, then VG for vegan, then GF for gluten-free. */
  function DietaryBadges(item: MenuItem): (r: seq<string>)
    ensures "V" in r <==> item.isVegetarian == Some(true)
    ensures "VG" in r <==> item.isVegan == Some(true)
    ensures "GF" in r <==> item.isGlutenFree == Some(true)
    ensures |r| <= 3 && forall b :: b in r ==> b in {"V", "VG", "GF"}
  {
    (if item.isVegetarian == Some(true) then ["V"] else [])
      + (if item.isVegan == Some(true) then ["VG"] else [])
      + (if item.isGlutenFree == Some(true) then ["GF"] else [])
  }

  /** A badge text names one flag only, so the badges never repeat. */
  lemma BadgesDistinct(item: MenuItem)
    ensures Distinct(DietaryBadges(item))
  {
    var r := DietaryBadges(item);
    assert "V" != "VG" && "V" != "GF" && "VG" != "GF";
  }
}
