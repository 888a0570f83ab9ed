// GET, POST and DELETE /api/favorites (app/api/favorites/route.ts).

module FavoritesRoute {
  import opened Common
  import opened Db
  import opened Store
  import opened Auth

  /** The restaurant embedded in a favorite: `rating || 0`. */
  datatype RestaurantSummary = RestaurantSummary(id: string, name: string, cuisine: string, rating: real)

  datatype FavoriteView = FavoriteView(favorite: Favorite, restaurant: Option<RestaurantSummary>)

  function Summary(x: Restaurant): (r: RestaurantSummary)
    ensures r.id == x.id && r.name == x.name && r.cuisine == x.cuisine
    ensures r.rating == if x.rating.Some? then x.rating.value else 0.0
  {
    RestaurantSummary(x.id, x.name, x.cuisine, if x.rating.Some? && x.rating.value != 0.0 then x.rating.value else 0.0)
  }

  /** Each favorite with its restaurant's summary, or null when the restaurant is gone. */
  function Views(fs: seq<Favorite>, rs: seq<Restaurant>): (r: seq<FavoriteView>)
    ensures |r| == |fs|
    ensures forall i :: 0 <= i < |fs| ==> r[i].favorite == fs[i]
    ensures forall i :: 0 <= i < |fs| ==>
      r[i].restaurant == match FindRestaurant(rs, fs[i].restaurantId)
                         case None => None
                         case Some(x) => Some(Summary(x))
  {
    if fs == [] then []
    else
      var head := match FindRestaurant(rs, fs[0].restaurantId)
                  case None => None
                  case Some(x) => Some(Summary(x));
      [FavoriteView(fs[0], head)] + Views(fs[1..], rs)
  }

  /** `{ customerId: decoded.userId }` */
  function ByCustomer(userId: string): Favorite -> bool {
    (f: Favorite) => f.customerId == userId
  }

  /** The views of a customer's favorites show every favorite of theirs and nothing else. */
  lemma {:induction false} OwnViews(favorites: seq<Favorite>, rs: seq<Restaurant>, userId: string)
    ensures var views := Views(Filter(favorites, ByCustomer(userId)), rs);
      && (forall v :: v in views ==> v.favorite in favorites && v.favorite.customerId == userId)
      && (forall f :: f in favorites && f.customerId == userId ==> exists v :: v in views && v.favorite == f)
  {
    var mine := Filter(favorites, ByCustomer(userId));
    var views := Views(mine, rs);
    forall v | v in views ensures v.favorite in mine {
      var i :| 0 <= i < |views| && views[i] == v;
    }
    forall f | f in favorites && f.customerId == userId ensures exists v :: v in views && v.favorite == f {
      FilterMembership(favorites, ByCustomer(userId), f);
      var i :| 0 <= i < |mine| && mine[i] == f;
      assert views[i] in views;
    }
  }

  /** GET: 401, 403 for non-customers, otherwise exactly the caller's favorites in store order. */
  function GetFavorites(crypto: Crypto, header: Option<string>, favorites: seq<Favorite>, rs: seq<Restaurant>)
    : (r: Response<seq<FavoriteView>>)
    ensures var a := AuthenticateHeader(crypto, header);
      a.Err? ==> r == Err(a.status, a.error)
    ensures var a := AuthenticateHeader(crypto, header);
      a.Ok? && a.value.userType != "customer" ==> r == Err(403, "Only customers can access favorites")
    ensures var a := AuthenticateHeader(crypto, header);
      a.Ok? && a.value.userType == "customer" ==> r.Ok?
    ensures r.Ok? ==>
      var a := AuthenticateHeader(crypto, header);
      && a.Ok? && a.value.userType == "customer"
      && (forall v :: v in r.value ==> v.favorite in favorites && v.favorite.customerId == a.value.userId)
      && (forall f :: f in favorites && f.customerId == a.value.userId ==> exists v :: v in r.value && v.favorite == f)
    ensures r.Ok? ==>
      r.value == Views(Filter(favorites, ByCustomer(AuthenticateHeader(crypto, header).value.userId)), rs)
  {
    match AuthenticateHeader(crypto, header)
    case Err(code, msg) => Err(code, msg)
    case Ok(caller) =>
      if caller.userType != "customer" then Err(403, "Only customers can access favorites")
      else
        var mine := Filter(favorites, ByCustomer(caller.userId));
        var views := Views(mine, rs);
        OwnViews(favorites, rs, caller.userId);
        Ok(views)
  }

  // ---- POST --------------------------------------------------------------

  predicate AlreadyFavorite(fs: seq<Favorite>, customerId: string, restaurantId: string) {
    exists f :: f in fs && f.customerId == customerId && f.restaurantId == restaurantId
  }

  function DecideAddFavorite(crypto: Crypto, header: Option<string>, restaurantId: Option<string>,
                             rs: seq<Restaurant>, fs: seq<Favorite>, newId: string, now: int)
    : (r: Response<FavoriteView>)
    ensures var a := AuthenticateHeader(crypto, header);
      a.Err? ==> r == Err(a.status, a.error)
    ensures var a := AuthenticateHeader(crypto, header);
      a.Ok? && a.value.userType != "customer" ==> r == Err(403, "Only customers can add favorites")
    ensures var a := AuthenticateHeader(crypto, header);
      a.Ok? && a.value.userType == "customer" && !Present(restaurantId) ==>
      r == Err(400, "Restaurant ID is required")
    ensures var a := AuthenticateHeader(crypto, header);
      (a.Ok? && a.value.userType == "customer" && Present(restaurantId) &&
       FindRestaurant(rs, restaurantId.value).None?) ==> r == Err(404, "Restaurant not found")
    ensures var a := AuthenticateHeader(crypto, header);
      (a.Ok? && a.value.userType == "customer" && Present(restaurantId) &&
       FindRestaurant(rs, restaurantId.value).Some? &&
       AlreadyFavorite(fs, a.value.userId, restaurantId.value)) ==> r == Err(400, "Restaurant already in favorites")
    ensures var a := AuthenticateHeader(crypto, header);
      (a.Ok? && a.value.userType == "customer" && Present(restaurantId) &&
       FindRestaurant(rs, restaurantId.value).Some? &&
       !AlreadyFavorite(fs, a.value.userId, restaurantId.value)) ==> r.Ok?
    ensures r.Ok? ==>
      var a := AuthenticateHeader(crypto, header);
      && a.Ok? && a.value.userType == "customer" && Present(restaurantId)
      && !AlreadyFavorite(fs, a.value.userId, restaurantId.value)
      && r.value.favorite == Favorite(newId, a.value.userId, restaurantId.value, now)
      && FindRestaurant(rs, restaurantId.value).Some?
      && r.value.restaurant == Some(Summary(FindRestaurant(rs, restaurantId.value).value))
  {
    match AuthenticateHeader(crypto, header)
    case Err(code, msg) => Err(code, msg)
    case Ok(caller) =>
      if caller.userType != "customer" then Err(403, "Only customers can add favorites")
      else if !Present(restaurantId) then Err(400, "Restaurant ID is required")
      else
        match FindRestaurant(rs, restaurantId.value)
        case None => Err(404, "Restaurant not found")
        case Some(x) =>
          if FindFirst(fs, (f: Favorite) => f.customerId == caller.userId && f.restaurantId == restaurantId.value).Some? then
            Err(400, "Restaurant already in favorites")
          else
            Ok(FavoriteView(Favorite(newId, caller.userId, restaurantId.value, now), Some(Summary(x))))
  }

  /** The duplicate check keeps at most one favorite per customer and restaurant. */
  lemma {:induction false} AddFavoriteKeepsOnePerPair(crypto: Crypto, header: Option<string>, restaurantId: Option<string>,
                                                      rs: seq<Restaurant>, fs: seq<Favorite>, newId: string, now: int)
    requires OneFavoritePerPair(fs)
    requires DecideAddFavorite(crypto, header, restaurantId, rs, fs, newId, now).Ok?
    ensures OneFavoritePerPair(fs + [DecideAddFavorite(crypto, header, restaurantId, rs, fs, newId, now).value.favorite])
  {
    var n := DecideAddFavorite(crypto, header, restaurantId, rs, fs, newId, now).value.favorite;
    var all := fs + [n];
    forall i, j | 0 <= i < j < |all|
      ensures !(all[i].customerId == all[j].customerId && all[i].restaurantId == all[j].restaurantId)
    {
      if j == |fs| {
        assert all[i] == fs[i] && fs[i] in fs;
      } else {
        assert all[i] == fs[i] && all[j] == fs[j];
      }
    }
  }

  /** POST: insert the decided favorite, and nothing else. */
  method AddFavorite(st: Store, crypto: Crypto, header: Option<string>, restaurantId: Option<string>, newId: string, now: int)
    returns (r: Response<FavoriteView>)
    modifies st
    ensures r == DecideAddFavorite(crypto, header, restaurantId, old(st.restaurants), old(st.favorites), newId, now)
    ensures st.favorites == if r.Ok? then old(st.favorites) + [r.value.favorite] else old(st.favorites)
    ensures st.users == old(st.users) && st.restaurants == old(st.restaurants)
    ensures st.reservations == old(st.reservations) && st.reviews == old(st.reviews)
    ensures st.events == old(st.events)
    ensures old(st.Valid()) ==> st.Valid()
  {
    r := DecideAddFavorite(crypto, header, restaurantId, st.restaurants, st.favorites, newId, now);
    if r.Ok? {
      if st.Valid() {
        AddFavoriteKeepsOnePerPair(crypto, header, restaurantId, st.restaurants, st.favorites, newId, now);
      }
      st.favorites := st.favorites + [r.value.favorite];
    }
  }

  // ---- DELETE ------------------------------------------------------------

  /** DELETE only checks its two parameters and reports success; no collection is touched. */
  function DeleteFavorite(customerId: Option<string>, restaurantId: Option<string>): (r: Response<bool>)
    ensures r.Err? <==> !Present(customerId) || !Present(restaurantId)
    ensures r.Err? ==> r == Err(400, "Customer ID and Restaurant ID are required")
    ensures r.Ok? ==> r.value
  {
    if !Present(customerId) || !Present(restaurantId) then Err(400, "Customer ID and Restaurant ID are required")
    else Ok(true)
  }
}
