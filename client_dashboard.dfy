// The dashboard overview (app/dashboard/page.tsx): the owner's restaurant, the
// reservation and review statistics and the recent-reservations list.

module DashboardPage {
  import opened Common
  import opened Db
  import AuthContext
  import UseApi

  /**
   * The page's `restaurant`: the `data` of the `/api/restaurants` fetch, that is
   * the raw answer, which lists every stored restaurant; `None` is null.
   */
  function RestaurantData(c: AuthContext.ContextValue, answer: UseApi.Answer<seq<Restaurant>>): Option<seq<Restaurant>> {
    UseApi.Fetch(true, c.user.Some?, Member(c.members, "token"), answer).data
  }

  /**
   * The fetch requires authentication and the context has no token, so
   * `restaurant` stays null and the `onSuccess` redirect never runs.
   */
  lemma RestaurantNeverLoads(session: Option<AuthContext.SessionUser>, isLoading: bool,
                             answer: UseApi.Answer<seq<Restaurant>>)
    ensures RestaurantData(AuthContext.UseAuth(session, isLoading), answer).None?
    ensures !UseApi.CallsOnSuccess(true, AuthContext.UseAuth(session, isLoading).user.Some?,
                                   Member(AuthContext.UseAuth(session, isLoading).members, "token"), answer)
  {
    UseApi.AuthRequiredNeverLoads(session, isLoading, answer);
  }

  /** The redirect as written: an owner is sent to create a profile only when no restaurant is stored at all. */
  function ProfileRedirectAsWritten(userType: Option<string>, data: Option<seq<Restaurant>>): (r: Option<string>)
    ensures r.Some? <==> userType == Some("restaurant") && (data.None? || data.value == [])
    ensures r.Some? ==> r.value == "/dashboard/restaurant-profile"
  {
    if userType == Some("restaurant") && (data.None? || |data.value| == 0) then Some("/dashboard/restaurant-profile")
    else None
  }

  /** The owner's restaurant: the first fetched restaurant the user owns, as the menu page looks it up. */
  function OwnedRestaurant(data: Option<seq<Restaurant>>, userId: string): (r: Option<Restaurant>)
    ensures r.Some? ==> data.Some? && r.value in data.value && r.value.ownerId == userId
    ensures r.None? <==> data.None? || forall x :: x in data.value ==> x.ownerId != userId
  {
    if data.Some? then FindFirst(data.value, (x: Restaurant) => x.ownerId == userId) else None
  }

  /** An owner none of whose restaurants is stored is sent to create the restaurant profile. */
  function ProfileRedirect(userType: Option<string>, userId: string, data: Option<seq<Restaurant>>): (r: Option<string>)
    ensures r.Some? <==> userType == Some("restaurant") && OwnedRestaurant(data, userId).None?
    ensures r.Some? ==> r.value == "/dashboard/restaurant-profile"
  {
    if userType == Some("restaurant") && OwnedRestaurant(data, userId).None? then Some("/dashboard/restaurant-profile")
    else None
  }

  /**
   * As written, an owner is not sent to create a profile although they own no
   * restaurant, as soon as another owner's restaurant is stored.
   */
  lemma FirstListedIsNotOwned(userId: string, other: Restaurant)
    requires other.ownerId != userId
    ensures ProfileRedirectAsWritten(Some("restaurant"), Some([other])).None?
    ensures OwnedRestaurant(Some([other]), userId).None?
    ensures ProfileRedirect(Some("restaurant"), userId, Some([other])) == Some("/dashboard/restaurant-profile")
  {
    assert forall x :: x in [other] ==> x.ownerId != userId;
  }

  /**
   * The reviews URL as written: `restaurant._id` of the raw answer, an array,
   * which has no `_id`; the empty URL when the answer is null.
   */
  function ReviewsUrlAsWritten(restaurant: Option<seq<Restaurant>>): (r: string)
    ensures restaurant.None? ==> r == ""
    ensures restaurant.Some? ==> r == "/api/reviews?restaurantId=undefined"
  {
    if restaurant.Some? then "/api/reviews?restaurantId=" + "undefined" else ""
  }

  /** As written, every answer, whatever restaurants it lists, gives the same reviews URL. */
  lemma ReviewsUrlIgnoresAnswer(a: seq<Restaurant>, b: seq<Restaurant>)
    ensures ReviewsUrlAsWritten(Some(a)) == ReviewsUrlAsWritten(Some(b))
  {
  }

  /** The reviews URL of the owner's restaurant, and the empty URL while none is known. */
  function ReviewsUrl(restaurant: Option<Restaurant>): (r: string)
    ensures r == "" <==> restaurant.None?
    ensures restaurant.Some? ==> r == "/api/reviews?restaurantId=" + restaurant.value.id
  {
    if restaurant.Some? then "/api/reviews?restaurantId=" + restaurant.value.id else ""
  }

  /** Two restaurants with different ids get different reviews URLs. */
  lemma ReviewsUrlDistinguishes(x: Restaurant, y: Restaurant)
    requires x.id != y.id
    ensures ReviewsUrl(Some(x)) != ReviewsUrl(Some(y))
  {
    var prefix := "/api/reviews?restaurantId=";
    assert (prefix + x.id)[|prefix|..] == x.id;
    assert (prefix + y.id)[|prefix|..] == y.id;
  }

  function WithReservationStatus(st: ReservationStatus): Reservation -> bool {
    (r: Reservation) => r.status == st
  }

  /** The "Pending Reservations" and "Confirmed" cards. */
  function PendingCount(rs: seq<Reservation>): (n: nat)
    ensures n <= |rs|
    ensures n == 0 <==> forall r :: r in rs ==> r.status != ReservationPending
  {
    CountZero(rs, WithReservationStatus(ReservationPending));
    Count(rs, WithReservationStatus(ReservationPending))
  }

  function ConfirmedCount(rs: seq<Reservation>): (n: nat)
    ensures n <= |rs|
    ensures n == 0 <==> forall r :: r in rs ==> r.status != Confirmed
  {
    CountZero(rs, WithReservationStatus(Confirmed));
    Count(rs, WithReservationStatus(Confirmed))
  }

  /** A reservation is pending or confirmed, never both, so the two cards add up to at most the total. */
  lemma {:induction false} PendingAndConfirmedBounded(rs: seq<Reservation>)
    ensures PendingCount(rs) + ConfirmedCount(rs) <= |rs|
    ensures PendingCount(rs) + ConfirmedCount(rs) == |rs| <==> forall r :: r in rs ==> r.status != Cancelled
  {
    CountExclusive(rs, WithReservationStatus(ReservationPending), WithReservationStatus(Confirmed));
    CancelledComplement(rs);
  }

  lemma {:induction false} CancelledComplement(rs: seq<Reservation>)
    ensures PendingCount(rs) + ConfirmedCount(rs) + Count(rs, WithReservationStatus(Cancelled)) == |rs|
    ensures Count(rs, WithReservationStatus(Cancelled)) == 0 <==> forall r :: r in rs ==> r.status != Cancelled
  {
    if rs != [] {
      CancelledComplement(rs[1..]);
      assert rs == [rs[0]] + rs[1..];
    }
  }

  /** `reviews.reduce((sum, r) => sum + r.rating, 0)` */
  function RatingSum(reviews: seq<Review>): (r: real)
    ensures (forall i :: 0 <= i < |reviews| ==> reviews[i].rating >= 0.0) ==> r >= 0.0
  {
    if reviews == [] then 0.0 else reviews[0].rating + RatingSum(reviews[1..])
  }

  /** The pending and confirmed reservation cards. */
  datatype Cards = Cards(pending: nat, confirmed: nat)

  /**
   * The cards as written: `data: reservations = []` keeps a null answer null, and
   * `reservations.filter` then throws a TypeError, which `None` stands for.
   */
  function CardsAsWritten(reservations: Option<seq<Reservation>>): (r: Option<Cards>)
    ensures r.None? <==> reservations.None?
    ensures r.Some? ==> r.value.pending == PendingCount(reservations.value)
    ensures r.Some? ==> r.value.confirmed == ConfirmedCount(reservations.value)
  {
    match reservations
    case None => None
    case Some(rs) => Some(Cards(PendingCount(rs), ConfirmedCount(rs)))
  }

  /**
   * The first render sees the hook's initial null, so it throws before the page
   * returns; the fetch runs from an effect, which only follows a render that did
   * not throw, so the answer never arrives and the cards are never shown.
   */
  lemma FirstRenderThrows()
    ensures CardsAsWritten(UseApi.Initial<seq<Reservation>>().data).None?
  {
  }

  /** Corrected, `reservations ?? []`: zero cards before the answer, its counts after. */
  function CardsOf(reservations: Option<seq<Reservation>>): (r: Cards)
    ensures reservations.None? ==> r == Cards(0, 0)
    ensures r.pending + r.confirmed <= |OrElse(reservations, [])|
  {
    var rs := OrElse(reservations, []);
    PendingAndConfirmedBounded(rs);
    Cards(PendingCount(rs), ConfirmedCount(rs))
  }

  /** The two versions differ exactly on the null before the answer: once it has arrived they agree. */
  lemma CardsAgreeOnceLoaded(reservations: Option<seq<Reservation>>)
    ensures CardsAsWritten(reservations).None? <==> reservations.None?
    ensures reservations.Some? ==> CardsAsWritten(reservations) == Some(CardsOf(reservations))
  {
  }

  /** The average rating card: none ("N/A") without reviews, else the mean rating. */
  function AverageRating(reviews: seq<Review>): (r: Option<real>)
    ensures r.None? <==> reviews == []
  {
    if |reviews| == 0 then None else Some(RatingSum(reviews) / (|reviews| as real))
  }

  /** `k` copies of `x` added up. */
  function Times(k: nat, x: real): real {
    if k == 0 then 0.0 else x + Times(k - 1, x)
  }

  lemma {:induction false} TimesIsProduct(k: nat, x: real)
    ensures Times(k, x) == (k as real) * x
  {
    if k > 0 {
      TimesIsProduct(k - 1, x);
      assert (k as real) * x == ((k - 1) as real) * x + x;
    }
  }

  lemma {:induction false} RatingSumBounds(reviews: seq<Review>, lo: real, hi: real)
    requires forall rv :: rv in reviews ==> lo <= rv.rating <= hi
    ensures Times(|reviews|, lo) <= RatingSum(reviews) <= Times(|reviews|, hi)
  {
    if reviews != [] {
      assert reviews[0] in reviews;
      assert forall rv :: rv in reviews[1..] ==> rv in reviews;
      RatingSumBounds(reviews[1..], lo, hi);
    }
  }

  /** Dividing by a positive count keeps a lower and an upper bound. */
  lemma MeanBounds(sum: real, n: real, lo: real, hi: real)
    requires n > 0.0 && n * lo <= sum <= n * hi
    ensures lo <= sum / n <= hi
  {
  }

  /** Bounds on a sum of `k` terms bound their mean. */
  lemma MeanOfTimesBounds(k: nat, sum: real, lo: real, hi: real)
    requires k > 0 && Times(k, lo) <= sum <= Times(k, hi)
    ensures lo <= sum / (k as real) <= hi
  {
    TimesIsProduct(k, lo);
    TimesIsProduct(k, hi);
    MeanBounds(sum, k as real, lo, hi);
  }

  /** The mean lies within any bounds of the ratings, so ratings of 1 to 5 stars average 1 to 5. */
  lemma AverageWithinBounds(reviews: seq<Review>, lo: real, hi: real)
    requires forall rv :: rv in reviews ==> lo <= rv.rating <= hi
    ensures AverageRating(reviews).Some? ==> lo <= AverageRating(reviews).value <= hi
  {
    if reviews != [] {
      RatingSumBounds(reviews, lo, hi);
      MeanOfTimesBounds(|reviews|, RatingSum(reviews), lo, hi);
    }
  }

  function WrittenBy(userId: string): Review -> bool {
    (rv: Review) => rv.customerId == userId
  }

  /**
   * The "My Reviews" card as written: reviews whose customerId equals `user._id`,
   * a member the context user does not have.
   */
  function MyReviewCountAsWritten(reviews: seq<Review>, user: map<string, Value>): (n: nat)
    ensures n <= |reviews|
    ensures n == |Filter(reviews, (rv: Review) => Str(rv.customerId) == Member(user, "_id"))|
  {
    Count(reviews, (rv: Review) => Str(rv.customerId) == Member(user, "_id"))
  }

  /** As written, the card shows 0 for every signed-in user, whatever they have written. */
  lemma MyReviewsAlwaysZero(reviews: seq<Review>, session: AuthContext.SessionUser, isLoading: bool)
    ensures MyReviewCountAsWritten(reviews, AuthContext.UseAuth(Some(session), isLoading).user.value) == 0
  {
    var user := AuthContext.UseAuth(Some(session), isLoading).user.value;
    AuthContext.TokenAndUnderscoreIdUndefined(Some(session), isLoading);
    FilterNone(reviews, (rv: Review) => Str(rv.customerId) == Member(user, "_id"));
  }

  /** The customer's "My Reviews" card: the reviews written by this user, by the user's `id`. */
  function MyReviewCount(reviews: seq<Review>, userId: string): (n: nat)
    ensures n <= |reviews|
    ensures n == 0 <==> forall rv :: rv in reviews ==> rv.customerId != userId
  {
    var mine := Filter(reviews, WrittenBy(userId));
    forall rv | rv in reviews && rv.customerId == userId ensures rv in mine {
      FilterMembership(reviews, WrittenBy(userId), rv);
    }
    assert mine != [] ==> mine[0] in mine;
    |mine|
  }

  /** Recent reservations: at most the first five, in the order the server sent them. */
  function RecentReservations(rs: seq<Reservation>): (r: seq<Reservation>)
    ensures |r| == if |rs| < 5 then |rs| else 5
    ensures forall i :: 0 <= i < |r| ==> r[i] == rs[i]
  {
    Take(rs, 5)
  }
}
