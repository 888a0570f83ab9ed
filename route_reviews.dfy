// GET and POST /api/reviews (app/api/reviews/route.ts).

module ReviewsRoute {
  import opened Common
  import opened Db
  import opened Store
  import opened Auth

  // ---- GET ---------------------------------------------------------------

  /** The query-string parameters; `None` is an absent parameter. */
  datatype ReviewParams = ReviewParams(
    restaurantId: Option<string>,
    customerId: Option<string>,
    status: Option<string>,
    sortBy: Option<string>,
    sortOrder: Option<string>)

  /** The Mongo filter: a present member must equal the review's field. */
  datatype ReviewQuery = ReviewQuery(
    restaurantId: Option<string>,
    customerId: Option<string>,
    status: Option<string>)

  predicate Matches(q: ReviewQuery, rv: Review) {
    && (q.restaurantId.Some? ==> rv.restaurantId == q.restaurantId.value)
    && (q.customerId.Some? ==> rv.customerId == q.customerId.value)
    && (q.status.Some? ==> rv.status.Some? && ReviewStatusName(rv.status.value) == q.status.value)
  }

  /** The caller's token verifies, names the restaurant role, and the caller owns `restaurantId`. */
  predicate IsRestaurantOwner(crypto: Crypto, header: Option<string>, restaurantId: Option<string>, rs: seq<Restaurant>) {
    && Present(header)
    && VerifyToken(crypto, header.value).Success?
    && VerifyToken(crypto, header.value).value.userType == "restaurant"
    && Present(restaurantId)
    && OwnedBy(rs, restaurantId.value, VerifyToken(crypto, header.value).value.userId)
  }

  /** The status filter a request ends up with: given verbatim, "approved" by default, none for the owner. */
  function StatusFilter(p: ReviewParams, owner: bool): Option<string> {
    if owner then None else if Present(p.status) then p.status else Some("approved")
  }

  /** Builds the filter field by field, then lifts the status filter for the owner. */
  method BuildReviewQuery(crypto: Crypto, header: Option<string>, p: ReviewParams, rs: seq<Restaurant>)
    returns (r: Response<ReviewQuery>)
    ensures r.Err? <==> !Present(p.restaurantId) && !Present(p.customerId)
    ensures r.Err? ==> r == Err(400, "Either restaurantId or customerId is required")
    ensures r.Ok? ==> (r.value.restaurantId.Some? <==> Present(p.restaurantId))
    ensures r.Ok? ==> (r.value.customerId.Some? <==> Present(p.customerId))
    ensures r.Ok? && r.value.restaurantId.Some? ==> r.value.restaurantId == p.restaurantId
    ensures r.Ok? && r.value.customerId.Some? ==> r.value.customerId == p.customerId
    ensures r.Ok? ==> r.value.status == StatusFilter(p, IsRestaurantOwner(crypto, header, p.restaurantId, rs))
  {
    if !Present(p.restaurantId) && !Present(p.customerId) {
      return Err(400, "Either restaurantId or customerId is required");
    }
    var restaurantId: Option<string> := None;
    var customerId: Option<string> := None;
    var status: Option<string>;
    if Present(p.restaurantId) {
      restaurantId := p.restaurantId;
    }
    if Present(p.customerId) {
      customerId := p.customerId;
    }
    if Present(p.status) {
      status := p.status;
    } else {
      status := Some("approved");
    }
    if Present(header) {
      var decoded := VerifyToken(crypto, header.value);
      if decoded.Success? && decoded.value.userType == "restaurant" && Present(p.restaurantId) {
        var owned := FindFirst(rs, (x: Restaurant) => x.id == p.restaurantId.value && x.ownerId == decoded.value.userId);
        if owned.Some? {
          status := None;
        }
      }
    }
    r := Ok(ReviewQuery(restaurantId, customerId, status));
  }

  datatype SortField = ByDate | ByRating | ByHelpful

  datatype SortOptions = SortOptions(field: SortField, ascending: bool)

  /** `sortBy` defaults to "date" and `sortOrder` to "desc"; only the exact names switch. */
  predicate SortRequested(p: ReviewParams, s: SortOptions) {
    && (s.field == ByRating <==> p.sortBy == Some("rating"))
    && (s.field == ByHelpful <==> p.sortBy == Some("helpful"))
    && (s.ascending <==> p.sortOrder == Some("asc"))
  }

  method BuildSortOptions(p: ReviewParams) returns (s: SortOptions)
    ensures SortRequested(p, s)
    ensures p.sortBy.None? && p.sortOrder.None? ==> s == SortOptions(ByDate, false)
  {
    var sortBy := if Present(p.sortBy) then p.sortBy.value else "date";
    var sortOrder := if Present(p.sortOrder) then p.sortOrder.value else "desc";
    var ascending := sortOrder == "asc";
    if sortBy == "rating" {
      s := SortOptions(ByRating, ascending);
    } else if sortBy == "helpful" {
      s := SortOptions(ByHelpful, ascending);
    } else {
      s := SortOptions(ByDate, ascending);
    }
  }

  /** Mongo orders a missing `helpful` before every number. */
  predicate HelpfulLe(a: Option<int>, b: Option<int>) {
    a.None? || (b.Some? && a.value <= b.value)
  }

  /** The order `sort(sortOptions)` puts the reviews in. */
  function ReviewOrder(s: SortOptions): (Review, Review) -> bool {
    match s.field
    case ByRating =>
      if s.ascending then (a: Review, b: Review) => a.rating <= b.rating
      else (a: Review, b: Review) => a.rating >= b.rating
    case ByHelpful =>
      if s.ascending then (a: Review, b: Review) => HelpfulLe(a.helpful, b.helpful)
      else (a: Review, b: Review) => HelpfulLe(b.helpful, a.helpful)
    case ByDate =>
      if s.ascending then (a: Review, b: Review) => a.date <= b.date
      else (a: Review, b: Review) => a.date >= b.date
  }

  lemma ReviewOrderTotal(s: SortOptions)
    ensures TotalPreorder(ReviewOrder(s))
  {
  }

  /** Whether the GET returns a review: the requested restaurant/customer, and the status rule. */
  predicate Visible(crypto: Crypto, header: Option<string>, p: ReviewParams, rs: seq<Restaurant>, rv: Review) {
    && (Present(p.restaurantId) ==> rv.restaurantId == p.restaurantId.value)
    && (Present(p.customerId) ==> rv.customerId == p.customerId.value)
    && (!IsRestaurantOwner(crypto, header, p.restaurantId, rs) ==>
          rv.status.Some? &&
          ReviewStatusName(rv.status.value) == if Present(p.status) then p.status.value else "approved")
  }

  /** The reviews the GET returns, in store order. */
  function VisibleReviews(crypto: Crypto, header: Option<string>, p: ReviewParams, rs: seq<Restaurant>, reviews: seq<Review>)
    : (r: seq<Review>)
    ensures forall rv :: rv in r <==> rv in reviews && Visible(crypto, header, p, rs, rv)
  {
    var visible := (rv: Review) => Visible(crypto, header, p, rs, rv);
    forall rv ensures rv in Filter(reviews, visible) <==> rv in reviews && visible(rv) {
      FilterMembership(reviews, visible, rv);
    }
    Filter(reviews, visible)
  }

  /** A returned row: the stored review with its customer's and its restaurant's names. */
  datatype ReviewRow = ReviewRow(review: Review, customerName: Value, restaurantName: string)

  /**
   * The rows the GET answers with, one per review and in order: a customer or a
   * restaurant that is not found is named "Unknown Customer" or "Unknown Restaurant".
   */
  function WithNames(xs: seq<Review>, users: seq<User>, rs: seq<Restaurant>): (r: seq<ReviewRow>)
    ensures |r| == |xs|
    ensures forall i :: 0 <= i < |xs| ==> r[i].review == xs[i]
    ensures forall i :: 0 <= i < |xs| && FindUser(users, xs[i].customerId).Some? ==>
      r[i].customerName == Field(FindUser(users, xs[i].customerId).value, "name")
    ensures forall i :: 0 <= i < |xs| && FindUser(users, xs[i].customerId).None? ==>
      r[i].customerName == Str("Unknown Customer")
    ensures forall i :: 0 <= i < |xs| && FindRestaurant(rs, xs[i].restaurantId).Some? ==>
      r[i].restaurantName == FindRestaurant(rs, xs[i].restaurantId).value.name
    ensures forall i :: 0 <= i < |xs| && FindRestaurant(rs, xs[i].restaurantId).None? ==>
      r[i].restaurantName == "Unknown Restaurant"
  {
    if xs == [] then []
    else [ReviewRow(xs[0], CustomerName(users, xs[0].customerId), RestaurantName(rs, xs[0].restaurantId))]
         + WithNames(xs[1..], users, rs)
  }

  /** The stored reviews behind a list of rows. */
  function Reviews(rows: seq<ReviewRow>): (r: seq<Review>)
    ensures |r| == |rows| && forall i :: 0 <= i < |rows| ==> r[i] == rows[i].review
  {
    if rows == [] then [] else [rows[0].review] + Reviews(rows[1..])
  }

  /** Adding the names keeps the reviews, in their order. */
  lemma ReviewsOfWithNames(xs: seq<Review>, users: seq<User>, rs: seq<Restaurant>)
    ensures Reviews(WithNames(xs, users, rs)) == xs
  {
  }

  /**
   * GET: 400 without restaurantId and customerId; otherwise the visible reviews,
   * sorted, each with its customer's and its restaurant's names.
   */
  method GetReviews(st: Store, crypto: Crypto, header: Option<string>, p: ReviewParams)
    returns (r: Response<seq<ReviewRow>>)
    ensures !Present(p.restaurantId) && !Present(p.customerId) ==>
      r == Err(400, "Either restaurantId or customerId is required")
    ensures Present(p.restaurantId) || Present(p.customerId) ==> r.Ok?
    ensures r.Ok? ==> r.value == WithNames(Reviews(r.value), st.users, st.restaurants)
    ensures r.Ok? ==>
      forall rv :: rv in Reviews(r.value) <==> rv in st.reviews && Visible(crypto, header, p, st.restaurants, rv)
    ensures r.Ok? ==> multiset(Reviews(r.value)) == multiset(VisibleReviews(crypto, header, p, st.restaurants, st.reviews))
    ensures r.Ok? ==> forall s :: SortRequested(p, s) ==> SortedBy(Reviews(r.value), ReviewOrder(s))
  {
    var q := BuildReviewQuery(crypto, header, p, st.restaurants);
    if q.Err? {
      return Err(q.status, q.error);
    }
    var s := BuildSortOptions(p);
    var query := q.value;
    var found := Filter(st.reviews, (rv: Review) => Matches(query, rv));
    QueryFindsVisible(crypto, header, p, st.restaurants, st.reviews, query);
    var sorted := SortBy(found, ReviewOrder(s));
    SortedReviews(found, s);
    ReviewsOfWithNames(sorted, st.users, st.restaurants);
    r := Ok(WithNames(sorted, st.users, st.restaurants));
  }

  /** The filter the GET builds selects exactly the visible reviews. */
  lemma {:induction false} QueryFindsVisible(crypto: Crypto, header: Option<string>, p: ReviewParams,
                                             rs: seq<Restaurant>, reviews: seq<Review>, query: ReviewQuery)
    requires query.restaurantId.Some? <==> Present(p.restaurantId)
    requires query.customerId.Some? <==> Present(p.customerId)
    requires query.restaurantId.Some? ==> query.restaurantId == p.restaurantId
    requires query.customerId.Some? ==> query.customerId == p.customerId
    requires query.status == StatusFilter(p, IsRestaurantOwner(crypto, header, p.restaurantId, rs))
    ensures Filter(reviews, (rv: Review) => Matches(query, rv)) == VisibleReviews(crypto, header, p, rs, reviews)
  {
    FilterCongruent(reviews, (rv: Review) => Matches(query, rv), (rv: Review) => Visible(crypto, header, p, rs, rv));
  }

  /** Sorting keeps the reviews, sorted in the requested order. */
  lemma {:induction false} SortedReviews(found: seq<Review>, s: SortOptions)
    ensures multiset(SortBy(found, ReviewOrder(s))) == multiset(found)
    ensures SortedBy(SortBy(found, ReviewOrder(s)), ReviewOrder(s))
    ensures forall rv :: rv in SortBy(found, ReviewOrder(s)) <==> rv in found
  {
    var sorted := SortBy(found, ReviewOrder(s));
    ReviewOrderTotal(s);
    SortBySorted(found, ReviewOrder(s));
    forall rv ensures rv in sorted <==> rv in found {
      assert rv in sorted <==> rv in multiset(sorted);
      assert rv in found <==> rv in multiset(found);
    }
  }

  // ---- POST --------------------------------------------------------------

  /** The body's `images` member: left out, sent as null, or a list of URLs. */
  datatype ImagesMember = ImagesAbsent | ImagesNull | ImageList(urls: seq<string>)

  /** The JSON body; `rating` is `Number(rating)`. */
  datatype ReviewBody = ReviewBody(
    restaurantId: Option<string>,
    rating: Option<real>,
    comment: Option<string>,
    images: ImagesMember)

  /**
   * `const { images = [] } = body`: the default replaces only a missing member, so
   * a null is stored as null (`None`).
   */
  function StoredImages(m: ImagesMember): (r: Option<seq<string>>)
    ensures m.ImagesAbsent? ==> r == Some([])
    ensures m.ImagesNull? ==> r.None?
    ensures m.ImageList? ==> r == Some(m.urls)
  {
    match m
    case ImagesAbsent => Some([])
    case ImagesNull => None
    case ImageList(urls) => Some(urls)
  }

  /** `!restaurantId || !rating || !comment`: a rating of 0 counts as missing. */
  predicate MissingFields(b: ReviewBody) {
    !Present(b.restaurantId) || b.rating.None? || b.rating == Some(0.0) || !Present(b.comment)
  }

  predicate AlreadyReviewed(reviews: seq<Review>, restaurantId: string, customerId: string) {
    exists rv :: rv in reviews && rv.restaurantId == restaurantId && rv.customerId == customerId
  }

  /** The guard chain of the POST, in the order the route runs it, then the new review. */
  function DecideCreateReview(crypto: Crypto, header: Option<string>, body: ReviewBody,
                              restaurants: seq<Restaurant>, reviews: seq<Review>, newId: string, now: int)
    : (r: Response<Review>)
    ensures var a := AuthenticateHeader(crypto, header);
      a.Err? ==> r == Err(a.status, a.error)
    ensures var a := AuthenticateHeader(crypto, header);
      a.Ok? && a.value.userType != "customer" ==> r == Err(403, "Only customers can create reviews")
    ensures var a := AuthenticateHeader(crypto, header);
      a.Ok? && a.value.userType == "customer" && MissingFields(body) ==> r == Err(400, "Missing required fields")
    ensures var a := AuthenticateHeader(crypto, header);
      (a.Ok? && a.value.userType == "customer" && !MissingFields(body) &&
       (body.rating.value < 1.0 || body.rating.value > 5.0)) ==> r == Err(400, "Rating must be between 1 and 5")
    ensures var a := AuthenticateHeader(crypto, header);
      a.Ok? && a.value.userType == "customer" && !MissingFields(body) &&
      1.0 <= body.rating.value <= 5.0 && FindRestaurant(restaurants, body.restaurantId.value).None? ==>
      r == Err(404, "Restaurant not found")
    ensures var a := AuthenticateHeader(crypto, header);
      a.Ok? && a.value.userType == "customer" && !MissingFields(body) &&
      1.0 <= body.rating.value <= 5.0 && FindRestaurant(restaurants, body.restaurantId.value).Some? &&
      AlreadyReviewed(reviews, body.restaurantId.value, a.value.userId) ==>
      r == Err(400, "You have already reviewed this restaurant")
    ensures var a := AuthenticateHeader(crypto, header);
      a.Ok? && a.value.userType == "customer" && !MissingFields(body) &&
      1.0 <= body.rating.value <= 5.0 && FindRestaurant(restaurants, body.restaurantId.value).Some? &&
      !AlreadyReviewed(reviews, body.restaurantId.value, a.value.userId) ==>
      r.Ok?
    ensures r.Ok? ==>
      var a := AuthenticateHeader(crypto, header);
      && a.Ok? && a.value.userType == "customer" && !MissingFields(body)
      && FindRestaurant(restaurants, body.restaurantId.value).Some?
      && !AlreadyReviewed(reviews, body.restaurantId.value, a.value.userId)
      && r.value.id == newId && r.value.date == now
      && r.value.customerId == a.value.userId
      && r.value.restaurantId == body.restaurantId.value
      && r.value.rating == body.rating.value && 1.0 <= r.value.rating <= 5.0
      && r.value.comment == body.comment.value
      && r.value.images == StoredImages(body.images)
      && r.value.status == Some(ReviewPending)
      && r.value.helpful == Some(0) && r.value.reportCount == Some(0)
      && r.value.reply.None? && r.value.updatedAt.None?
  {
    match AuthenticateHeader(crypto, header)
    case Err(code, msg) => Err(code, msg)
    case Ok(caller) =>
      if caller.userType != "customer" then Err(403, "Only customers can create reviews")
      else if MissingFields(body) then Err(400, "Missing required fields")
      else if body.rating.value < 1.0 || body.rating.value > 5.0 then Err(400, "Rating must be between 1 and 5")
      else if FindRestaurant(restaurants, body.restaurantId.value).None? then Err(404, "Restaurant not found")
      else if FindFirst(reviews, (rv: Review) => rv.restaurantId == body.restaurantId.value && rv.customerId == caller.userId).Some? then
        Err(400, "You have already reviewed this restaurant")
      else
        Ok(Review(newId, body.restaurantId.value, caller.userId, body.rating.value, body.comment.value, now,
                  None, StoredImages(body.images), Some(ReviewPending), Some(0), Some(0), None))
  }

  /** The duplicate check keeps at most one review per restaurant and customer. */
  lemma {:induction false} CreateReviewKeepsOnePerPair(crypto: Crypto, header: Option<string>, body: ReviewBody,
                                                       restaurants: seq<Restaurant>, reviews: seq<Review>, newId: string, now: int)
    requires OneReviewPerPair(reviews)
    requires DecideCreateReview(crypto, header, body, restaurants, reviews, newId, now).Ok?
    ensures OneReviewPerPair(reviews + [DecideCreateReview(crypto, header, body, restaurants, reviews, newId, now).value])
  {
    var n := DecideCreateReview(crypto, header, body, restaurants, reviews, newId, now).value;
    var all := reviews + [n];
    forall i, j | 0 <= i < j < |all|
      ensures !(all[i].restaurantId == all[j].restaurantId && all[i].customerId == all[j].customerId)
    {
      if j == |reviews| {
        assert all[i] == reviews[i] && reviews[i] in reviews;
      } else {
        assert all[i] == reviews[i] && all[j] == reviews[j];
      }
    }
  }

  /** POST: insert the decided review, and nothing else. */
  method CreateReview(st: Store, crypto: Crypto, header: Option<string>, body: ReviewBody, newId: string, now: int)
    returns (r: Response<Review>)
    modifies st
    ensures r == DecideCreateReview(crypto, header, body, old(st.restaurants), old(st.reviews), newId, now)
    ensures st.reviews == if r.Ok? then old(st.reviews) + [r.value] else old(st.reviews)
    ensures st.restaurants == old(st.restaurants) && st.users == old(st.users)
    ensures st.reservations == old(st.reservations) && st.favorites == old(st.favorites)
    ensures st.events == old(st.events)
    ensures old(st.Valid()) ==> st.Valid()
  {
    r := DecideCreateReview(crypto, header, body, st.restaurants, st.reviews, newId, now);
    if r.Ok? {
      if st.Valid() {
        CreateReviewKeepsOnePerPair(crypto, header, body, st.restaurants, st.reviews, newId, now);
      }
      st.reviews := st.reviews + [r.value];
    }
  }
}
