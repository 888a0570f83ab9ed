// GET and POST /api/restaurants (app/api/restaurants/route.ts).

module RestaurantsRoute {
  import opened Common
  import opened Db
  import opened Store
  import opened Auth

  // ---- GET ---------------------------------------------------------------

  /** The query string: three text filters and the feature parameters that were sent. */
  datatype RestaurantParams = RestaurantParams(
    cuisine: Option<string>,
    location: Option<string>,
    priceRange: Option<string>,
    flags: map<Feature, string>)

  predicate FlagRequested(p: RestaurantParams, f: Feature) {
    f in p.flags && p.flags[f] == "true"
  }

  /** The Mongo filter: exact text fields, and the features that must be true. */
  datatype RestaurantQuery = RestaurantQuery(
    cuisine: Option<string>,
    location: Option<string>,
    priceRange: Option<string>,
    features: set<Feature>)

  predicate Matches(q: RestaurantQuery, x: Restaurant) {
    && (q.cuisine.Some? ==> x.cuisine == q.cuisine.value)
    && (q.location.Some? ==> x.location == q.location.value)
    && (q.priceRange.Some? ==> x.priceRange == q.priceRange.value)
    && (forall f :: f in q.features ==> HasFeature(x, f))
  }

  /** `if (searchParams.get(name) === "true") query[field] = true` for one feature. */
  method AddIfRequested(features: set<Feature>, p: RestaurantParams, f: Feature) returns (r: set<Feature>)
    ensures forall g :: g in r <==> g in features || (g == f && FlagRequested(p, f))
  {
    r := features;
    if FlagRequested(p, f) {
      r := r + {f};
    }
  }

  /** Fills the filter field by field: text filters when present, features only for "true". */
  method BuildRestaurantQuery(p: RestaurantParams) returns (q: RestaurantQuery)
    ensures q.cuisine == (if Present(p.cuisine) then p.cuisine else None)
    ensures q.location == (if Present(p.location) then p.location else None)
    ensures q.priceRange == (if Present(p.priceRange) then p.priceRange else None)
    ensures forall f :: f in q.features <==> FlagRequested(p, f)
  {
    var cuisine: Option<string> := None;
    var location: Option<string> := None;
    var priceRange: Option<string> := None;
    var features: set<Feature> := {};
    if Present(p.cuisine) {
      cuisine := p.cuisine;
    }
    if Present(p.location) {
      location := p.location;
    }
    if Present(p.priceRange) {
      priceRange := p.priceRange;
    }
    features := AddIfRequested(features, p, LgbtqFriendly);
    features := AddIfRequested(features, p, SmokingAllowed);
    features := AddIfRequested(features, p, OutdoorSeating);
    features := AddIfRequested(features, p, WheelchairAccessible);
    features := AddIfRequested(features, p, VeganOptions);
    features := AddIfRequested(features, p, VegetarianOptions);
    forall f ensures f in features <==> FlagRequested(p, f) {
      match f
      case LgbtqFriendly =>
      case SmokingAllowed =>
      case OutdoorSeating =>
      case WheelchairAccessible =>
      case VeganOptions =>
      case VegetarianOptions =>
    }
    q := RestaurantQuery(cuisine, location, priceRange, features);
  }

  /** A restaurant the request asks for. */
  predicate Requested(p: RestaurantParams, x: Restaurant) {
    && (Present(p.cuisine) ==> x.cuisine == p.cuisine.value)
    && (Present(p.location) ==> x.location == p.location.value)
    && (Present(p.priceRange) ==> x.priceRange == p.priceRange.value)
    && (forall f :: FlagRequested(p, f) ==> HasFeature(x, f))
  }

  function RequestedRestaurants(p: RestaurantParams, xs: seq<Restaurant>): (r: seq<Restaurant>)
    ensures forall x :: x in r <==> x in xs && Requested(p, x)
  {
    forall x ensures x in Filter(xs, (x: Restaurant) => Requested(p, x)) <==> x in xs && Requested(p, x) {
      FilterMembership(xs, (x: Restaurant) => Requested(p, x), x);
    }
    Filter(xs, (x: Restaurant) => Requested(p, x))
  }

  /** GET: the matching restaurants, in store order. */
  method GetRestaurants(st: Store, p: RestaurantParams) returns (r: seq<Restaurant>)
    ensures r == RequestedRestaurants(p, st.restaurants)
  {
    var q := BuildRestaurantQuery(p);
    FilterCongruent(st.restaurants, (x: Restaurant) => Matches(q, x), (x: Restaurant) => Requested(p, x));
    r := Filter(st.restaurants, (x: Restaurant) => Matches(q, x));
  }

  /** Without parameters every restaurant is returned. */
  lemma {:induction false} NoParamsReturnsAll(xs: seq<Restaurant>)
    ensures RequestedRestaurants(RestaurantParams(None, None, None, map[]), xs) == xs
  {
    FilterAll(xs, (x: Restaurant) => Requested(RestaurantParams(None, None, None, map[]), x));
  }

  /** Sending a feature with any value but "true" (e.g. "false") filters nothing. */
  lemma {:induction false} NonTrueFlagIgnored(p: RestaurantParams, f: Feature, xs: seq<Restaurant>)
    requires f in p.flags && p.flags[f] != "true"
    ensures RequestedRestaurants(p, xs) == RequestedRestaurants(p.(flags := p.flags - {f}), xs)
  {
    var p' := p.(flags := p.flags - {f});
    forall g ensures FlagRequested(p, g) <==> FlagRequested(p', g) {
      if g != f {
        assert g in p.flags <==> g in p'.flags;
      }
    }
    FilterCongruent(xs, (x: Restaurant) => Requested(p, x), (x: Restaurant) => Requested(p', x));
  }

  // ---- POST --------------------------------------------------------------

  /** The JSON body; `flags` holds the feature members that were sent. */
  datatype RestaurantBody = RestaurantBody(
    name: Option<string>,
    description: Option<string>,
    cuisine: Option<string>,
    location: Option<string>,
    phone: Option<string>,
    hours: Option<string>,
    priceRange: Option<string>,
    flags: map<Feature, bool>)

  /** `value || default` for an optional text member. */
  function TextOr(o: Option<string>, default: string): (r: string)
    ensures Present(o) ==> r == o.value
    ensures !Present(o) ==> r == default
  {
    if Present(o) then o.value else default
  }

  /** `flag || false` */
  predicate BodyFlag(b: RestaurantBody, f: Feature) {
    f in b.flags && b.flags[f]
  }

  function DecideCreateRestaurant(crypto: Crypto, header: Option<string>, body: RestaurantBody, newId: string, now: int)
    : (r: Response<Restaurant>)
    ensures var a := AuthenticateHeader(crypto, header);
      a.Err? ==> r == Err(a.status, a.error)
    ensures var a := AuthenticateHeader(crypto, header);
      a.Ok? && a.value.userType != "restaurant" ==> r == Err(403, "Only restaurant owners can create restaurants")
    ensures var a := AuthenticateHeader(crypto, header);
      (a.Ok? && a.value.userType == "restaurant" &&
       (!Present(body.name) || !Present(body.cuisine) || !Present(body.location))) ==>
      r == Err(400, "Missing required fields")
    ensures var a := AuthenticateHeader(crypto, header);
      (a.Ok? && a.value.userType == "restaurant" &&
       Present(body.name) && Present(body.cuisine) && Present(body.location)) ==> r.Ok?
    ensures r.Ok? ==>
      var a := AuthenticateHeader(crypto, header);
      && a.Ok? && a.value.userType == "restaurant"
      && r.value.id == newId && r.value.createdAt == now
      && r.value.ownerId == a.value.userId
      && r.value.name == body.name.value && r.value.cuisine == body.cuisine.value
      && r.value.location == body.location.value
      && r.value.description == TextOr(body.description, "")
      && r.value.phone == TextOr(body.phone, "")
      && r.value.hours == TextOr(body.hours, "")
      && r.value.priceRange == TextOr(body.priceRange, "medium")
      && r.value.images == [] && r.value.menu == []
      && (forall f :: HasFeature(r.value, f) <==> BodyFlag(body, f))
      && r.value.rating.None?
  {
    match AuthenticateHeader(crypto, header)
    case Err(code, msg) => Err(code, msg)
    case Ok(caller) =>
      if caller.userType != "restaurant" then Err(403, "Only restaurant owners can create restaurants")
      else if !Present(body.name) || !Present(body.cuisine) || !Present(body.location) then
        Err(400, "Missing required fields")
      else
        Ok(Restaurant(newId, caller.userId, body.name.value, TextOr(body.description, ""),
                      body.cuisine.value, body.location.value, TextOr(body.phone, ""), TextOr(body.hours, ""),
                      [], [], now,
                      BodyFlag(body, LgbtqFriendly), BodyFlag(body, SmokingAllowed), BodyFlag(body, OutdoorSeating),
                      BodyFlag(body, WheelchairAccessible), BodyFlag(body, VeganOptions), BodyFlag(body, VegetarianOptions),
                      TextOr(body.priceRange, "medium"), None))
  }

  /** A body that sends only the required fields gets the documented defaults. */
  lemma MinimalRestaurantDefaults(crypto: Crypto, header: Option<string>, name: string, cuisine: string, location: string, newId: string, now: int)
    requires name != "" && cuisine != "" && location != ""
    requires DecideCreateRestaurant(crypto, header, RestaurantBody(Some(name), None, Some(cuisine), Some(location), None, None, None, map[]), newId, now).Ok?
    ensures var x := DecideCreateRestaurant(crypto, header, RestaurantBody(Some(name), None, Some(cuisine), Some(location), None, None, None, map[]), newId, now).value;
      x.description == "" && x.phone == "" && x.hours == "" && x.priceRange == "medium" &&
      forall f :: !HasFeature(x, f)
  {
  }

  /** POST: insert the decided restaurant, and nothing else. */
  method CreateRestaurant(st: Store, crypto: Crypto, header: Option<string>, body: RestaurantBody, newId: string, now: int)
    returns (r: Response<Restaurant>)
    modifies st
    ensures r == DecideCreateRestaurant(crypto, header, body, newId, now)
    ensures st.restaurants == if r.Ok? then old(st.restaurants) + [r.value] else old(st.restaurants)
    ensures st.users == old(st.users) && st.reservations == old(st.reservations)
    ensures st.reviews == old(st.reviews) && st.favorites == old(st.favorites)
    ensures st.events == old(st.events)
    ensures old(st.Valid()) ==> st.Valid()
  {
    r := DecideCreateRestaurant(crypto, header, body, newId, now);
    if r.Ok? {
      st.restaurants := st.restaurants + [r.value];
    }
  }
}
