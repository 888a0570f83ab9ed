// GET and POST /api/reservations (app/api/reservations/route.ts).

module ReservationsRoute {
  import opened Common
  import opened Db
  import opened Store
  import opened Auth

  // ---- GET ---------------------------------------------------------------

  datatype ReservationParams = ReservationParams(restaurantId: Option<string>, customerId: Option<string>)

  /** The restaurant part of the filter: none, one id, or `{ $in: ids }`. */
  datatype Scope = AnyRestaurant | OnlyRestaurant(id: string) | AmongRestaurants(ids: seq<string>)

  datatype ReservationQuery = ReservationQuery(customerId: Option<string>, scope: Scope)

  predicate Matches(q: ReservationQuery, x: Reservation) {
    && (q.customerId.Some? ==> x.customerId == q.customerId.value)
    && match q.scope
       case AnyRestaurant => true
       case OnlyRestaurant(id) => x.restaurantId == id
       case AmongRestaurants(ids) => x.restaurantId in ids
  }

  /** Builds the role-scoped filter step by step. */
  method BuildReservationQuery(crypto: Crypto, header: Option<string>, p: ReservationParams, rs: seq<Restaurant>)
    returns (r: Response<ReservationQuery>)
    ensures var a := AuthenticateHeader(crypto, header);
      a.Err? ==> r == Err(a.status, a.error)
    ensures var a := AuthenticateHeader(crypto, header);
      a.Ok? && a.value.userType == "customer" ==>
      r == Ok(ReservationQuery(Some(a.value.userId), AnyRestaurant))
    ensures var a := AuthenticateHeader(crypto, header);
      a.Ok? && a.value.userType == "restaurant" && Present(p.restaurantId) &&
      !OwnedBy(rs, p.restaurantId.value, a.value.userId) ==>
      r == Err(404, "Restaurant not found or not owned by you")
    ensures var a := AuthenticateHeader(crypto, header);
      a.Ok? && a.value.userType == "restaurant" && Present(p.restaurantId) &&
      OwnedBy(rs, p.restaurantId.value, a.value.userId) ==>
      r == Ok(ReservationQuery(if Present(p.customerId) then p.customerId else None, OnlyRestaurant(p.restaurantId.value)))
    ensures var a := AuthenticateHeader(crypto, header);
      a.Ok? && a.value.userType == "restaurant" && !Present(p.restaurantId) ==>
      r.Ok? && r.value.customerId == (if Present(p.customerId) then p.customerId else None) &&
      r.value.scope.AmongRestaurants? &&
      forall id :: id in r.value.scope.ids <==> OwnedBy(rs, id, a.value.userId)
    ensures var a := AuthenticateHeader(crypto, header);
      a.Ok? && a.value.userType != "customer" && a.value.userType != "restaurant" ==>
      r == Ok(ReservationQuery(None, AnyRestaurant))
  {
    var decoded := AuthenticateHeader(crypto, header);
    if decoded.Err? {
      return Err(decoded.status, decoded.error);
    }
    var caller := decoded.value;
    var customerId: Option<string> := None;
    var scope := AnyRestaurant;
    if caller.userType == "customer" {
      customerId := Some(caller.userId);
    } else if caller.userType == "restaurant" {
      if Present(p.restaurantId) {
        var owned := FindFirst(rs, (x: Restaurant) => x.id == p.restaurantId.value && x.ownerId == caller.userId);
        if owned.None? {
          return Err(404, "Restaurant not found or not owned by you");
        }
        scope := OnlyRestaurant(p.restaurantId.value);
      } else {
        scope := AmongRestaurants(OwnedIds(rs, caller.userId));
      }
    }
    if Present(p.customerId) && caller.userType == "restaurant" {
      customerId := p.customerId;
    }
    r := Ok(ReservationQuery(customerId, scope));
  }

  /**
   * Who sees a reservation: a customer only their own; a restaurant owner only rows of
   * restaurants they own (the requested one, when given, and the requested customer's);
   * any other role every row.
   */
  predicate Visible(caller: TokenPayload, p: ReservationParams, rs: seq<Restaurant>, x: Reservation) {
    if caller.userType == "customer" then x.customerId == caller.userId
    else if caller.userType == "restaurant" then
      && OwnedBy(rs, x.restaurantId, caller.userId)
      && (Present(p.restaurantId) ==> x.restaurantId == p.restaurantId.value)
      && (Present(p.customerId) ==> x.customerId == p.customerId.value)
    else true
  }

  function VisibleReservations(caller: TokenPayload, p: ReservationParams, rs: seq<Restaurant>, xs: seq<Reservation>)
    : (r: seq<Reservation>)
    ensures forall x :: x in r <==> x in xs && Visible(caller, p, rs, x)
  {
    var visible := (x: Reservation) => Visible(caller, p, rs, x);
    forall x ensures x in Filter(xs, visible) <==> x in xs && visible(x) {
      FilterMembership(xs, visible, x);
    }
    Filter(xs, visible)
  }

  /** A returned row: the stored reservation with its restaurant's and its customer's names. */
  datatype ReservationRow = ReservationRow(reservation: Reservation, restaurantName: string, customerName: Value)

  /**
   * The rows the GET answers with, one per reservation and in order: a restaurant or a
   * customer that is not found is named "Unknown Restaurant" or "Unknown Customer".
   */
  function WithNames(xs: seq<Reservation>, users: seq<User>, rs: seq<Restaurant>): (r: seq<ReservationRow>)
    ensures |r| == |xs|
    ensures forall i :: 0 <= i < |xs| ==> r[i].reservation == xs[i]
    ensures forall i :: 0 <= i < |xs| && FindRestaurant(rs, xs[i].restaurantId).Some? ==>
      r[i].restaurantName == FindRestaurant(rs, xs[i].restaurantId).value.name
    ensures forall i :: 0 <= i < |xs| && FindRestaurant(rs, xs[i].restaurantId).None? ==>
      r[i].restaurantName == "Unknown Restaurant"
    ensures forall i :: 0 <= i < |xs| && FindUser(users, xs[i].customerId).Some? ==>
      r[i].customerName == Field(FindUser(users, xs[i].customerId).value, "name")
    ensures forall i :: 0 <= i < |xs| && FindUser(users, xs[i].customerId).None? ==>
      r[i].customerName == Str("Unknown Customer")
  {
    if xs == [] then []
    else [ReservationRow(xs[0], RestaurantName(rs, xs[0].restaurantId), CustomerName(users, xs[0].customerId))]
         + WithNames(xs[1..], users, rs)
  }

  /** GET: the caller's reservations in store order, with names, after the 401/500/404 checks. */
  method GetReservations(st: Store, crypto: Crypto, header: Option<string>, p: ReservationParams)
    returns (r: Response<seq<ReservationRow>>)
    ensures !Present(header) ==> r == Err(401, "Authorization required")
    ensures var a := AuthenticateHeader(crypto, header);
      a.Err? ==> r == Err(a.status, a.error)
    ensures var a := AuthenticateHeader(crypto, header);
      a.Ok? && a.value.userType == "restaurant" && Present(p.restaurantId) &&
      !OwnedBy(st.restaurants, p.restaurantId.value, a.value.userId) ==>
      r == Err(404, "Restaurant not found or not owned by you")
    ensures var a := AuthenticateHeader(crypto, header);
      a.Ok? && !(a.value.userType == "restaurant" && Present(p.restaurantId) &&
                 !OwnedBy(st.restaurants, p.restaurantId.value, a.value.userId)) ==>
      r.Ok?
    ensures r.Ok? ==>
      var a := AuthenticateHeader(crypto, header);
      a.Ok? && r.value == WithNames(VisibleReservations(a.value, p, st.restaurants, st.reservations), st.users, st.restaurants)
  {
    var q := BuildReservationQuery(crypto, header, p, st.restaurants);
    if q.Err? {
      return Err(q.status, q.error);
    }
    var query := q.value;
    var caller := AuthenticateHeader(crypto, header).value;
    var rs := st.restaurants;
    FilterCongruent(st.reservations, (x: Reservation) => Matches(query, x), (x: Reservation) => Visible(caller, p, rs, x));
    r := Ok(WithNames(Filter(st.reservations, (x: Reservation) => Matches(query, x)), st.users, st.restaurants));
  }

  // ---- POST --------------------------------------------------------------

  /** The JSON body; `guests` is `Number(guests)`. */
  datatype ReservationBody = ReservationBody(
    restaurantId: Option<string>,
    date: Option<string>,
    time: Option<string>,
    guests: Option<real>,
    specialRequests: Option<string>)

  /** `!restaurantId || !date || !time || !guests`: zero guests counts as missing. */
  predicate MissingFields(b: ReservationBody) {
    !Present(b.restaurantId) || !Present(b.date) || !Present(b.time) || b.guests.None? || b.guests == Some(0.0)
  }

  /** The stored reservation and the notification for the restaurant's owner. */
  datatype Created = Created(reservation: Reservation, event: Event)

  function DecideCreateReservation(crypto: Crypto, header: Option<string>, body: ReservationBody,
                                   restaurants: seq<Restaurant>, users: seq<User>, newId: string, now: int)
    : (r: Response<Created>)
    ensures var a := AuthenticateHeader(crypto, header);
      a.Err? ==> r == Err(a.status, a.error)
    ensures var a := AuthenticateHeader(crypto, header);
      a.Ok? && a.value.userType != "customer" ==> r == Err(403, "Only customers can create reservations")
    ensures var a := AuthenticateHeader(crypto, header);
      a.Ok? && a.value.userType == "customer" && MissingFields(body) ==> r == Err(400, "Missing required fields")
    ensures var a := AuthenticateHeader(crypto, header);
      (a.Ok? && a.value.userType == "customer" && !MissingFields(body) &&
       FindRestaurant(restaurants, body.restaurantId.value).None?) ==> r == Err(404, "Restaurant not found")
    ensures var a := AuthenticateHeader(crypto, header);
      (a.Ok? && a.value.userType == "customer" && !MissingFields(body) &&
       FindRestaurant(restaurants, body.restaurantId.value).Some?) ==> r.Ok?
    ensures r.Ok? ==>
      var a := AuthenticateHeader(crypto, header);
      var x := r.value.reservation;
      && a.Ok? && a.value.userType == "customer" && !MissingFields(body)
      && FindRestaurant(restaurants, body.restaurantId.value).Some?
      && x.id == newId && x.createdAt == now
      && x.restaurantId == body.restaurantId.value
      && x.customerId == a.value.userId
      && x.date == body.date.value && x.time == body.time.value
      && x.guests == body.guests.value
      && x.status == ReservationPending
      && x.specialRequests == Some(if Present(body.specialRequests) then body.specialRequests.value else "")
    ensures r.Ok? ==>
      var owner := FindRestaurant(restaurants, body.restaurantId.value).value;
      r.value.event == Event(owner.ownerId, "new_reservation", r.value.reservation, owner.name,
                             CustomerName(users, r.value.reservation.customerId))
  {
    match AuthenticateHeader(crypto, header)
    case Err(code, msg) => Err(code, msg)
    case Ok(caller) =>
      if caller.userType != "customer" then Err(403, "Only customers can create reservations")
      else if MissingFields(body) then Err(400, "Missing required fields")
      else
        match FindRestaurant(restaurants, body.restaurantId.value)
        case None => Err(404, "Restaurant not found")
        case Some(restaurant) =>
          var x := Reservation(newId, body.restaurantId.value, caller.userId, body.date.value, body.time.value,
                               body.guests.value, ReservationPending,
                               Some(if Present(body.specialRequests) then body.specialRequests.value else ""), now);
          Ok(Created(x, Event(restaurant.ownerId, "new_reservation", x, restaurant.name, CustomerName(users, caller.userId))))
  }

  /**
   * POST: one reservation stored and one event emitted to the restaurant's owner.
   * `socketReady` says whether the Socket.IO server has been started; when it has
   * not, the emit throws after the insert, so the row is stored, nothing is sent
   * and the answer is the 500 carrying the thrown message.
   */
  method CreateReservation(st: Store, crypto: Crypto, header: Option<string>, body: ReservationBody, newId: string, now: int,
                           socketReady: bool)
    returns (r: Response<Reservation>)
    modifies st
    ensures var d := DecideCreateReservation(crypto, header, body, old(st.restaurants), old(st.users), newId, now);
      && (d.Err? ==> r == Err(d.status, d.error) && st.reservations == old(st.reservations) && st.events == old(st.events))
      && (d.Ok? ==> st.reservations == old(st.reservations) + [d.value.reservation])
      && (d.Ok? && socketReady ==> r == Ok(d.value.reservation) && st.events == old(st.events) + [d.value.event])
      && (d.Ok? && !socketReady ==> r == Err(500, SocketNotInitialized) && st.events == old(st.events))
    ensures r.Ok? ==> socketReady && st.events[|st.events| - 1].name == "new_reservation"
    ensures st.restaurants == old(st.restaurants) && st.users == old(st.users)
    ensures st.reviews == old(st.reviews) && st.favorites == old(st.favorites)
    ensures old(st.Valid()) ==> st.Valid()
  {
    var d := DecideCreateReservation(crypto, header, body, st.restaurants, st.users, newId, now);
    if d.Err? {
      return Err(d.status, d.error);
    }
    st.reservations := st.reservations + [d.value.reservation];
    if !socketReady {
      return Err(500, SocketNotInitialized);
    }
    st.events := st.events + [d.value.event];
    r := Ok(d.value.reservation);
  }

  /** The message `getSocketIO` throws before the server is started. */
  const SocketNotInitialized := "Socket.IO not initialized"
}
