// The document shapes stored in the restaurant-reservation database (lib/db.ts).
// Every collection is modelled as a sequence of these values in `Store`;
// ids are opaque strings and dates are integer timestamps.

module Db {
  import opened Common

  /** A JSON leaf value as a request body or a settings document carries it. */
  datatype Value = Null | Bool(b: bool) | Num(n: real) | Str(s: string) | Object

  /** JavaScript's `Boolean(v)`: false exactly for null, false, 0 and "". */
  function Truthy(v: Value): (r: bool)
    ensures v.Bool? ==> r == v.b
    ensures r <==> !(v.Null? || v == Bool(false) || v == Num(0.0) || v == Str(""))
  {
    match v
    case Null => false
    case Bool(b) => b
    case Num(n) => n != 0.0
    case Str(s) => s != ""
    case Object => true
  }

  /**
   * A property read on an object held as its members by name; JavaScript's
   * `undefined` for an absent member is `Null`.
   */
  function Member(m: map<string, Value>, k: string): (r: Value)
    ensures k in m ==> r == m[k]
    ensures k !in m ==> r == Null
  {
    if k in m then m[k] else Null
  }

  // ---- closed string enumerations ----------------------------------------

  datatype UserType = CustomerRole | RestaurantRole

  function UserTypeName(t: UserType): string {
    match t
    case CustomerRole => "customer"
    case RestaurantRole => "restaurant"
  }

  /** Reads a stored `userType`; only the two declared names are accepted. */
  function ParseUserType(s: string): (r: Option<UserType>)
    ensures r.Some? <==> s == "customer" || s == "restaurant"
    ensures r.Some? ==> UserTypeName(r.value) == s
    ensures forall t :: s == UserTypeName(t) ==> r == Some(t)
  {
    if s == "customer" then Some(CustomerRole)
    else if s == "restaurant" then Some(RestaurantRole)
    else None
  }

  datatype ReservationStatus = ReservationPending | Confirmed | Cancelled

  function ReservationStatusName(t: ReservationStatus): string {
    match t
    case ReservationPending => "pending"
    case Confirmed => "confirmed"
    case Cancelled => "cancelled"
  }

  function ParseReservationStatus(s: string): (r: Option<ReservationStatus>)
    ensures r.Some? <==> s == "pending" || s == "confirmed" || s == "cancelled"
    ensures r.Some? ==> ReservationStatusName(r.value) == s
    ensures forall t :: s == ReservationStatusName(t) ==> r == Some(t)
  {
    if s == "pending" then Some(ReservationPending)
    else if s == "confirmed" then Some(Confirmed)
    else if s == "cancelled" then Some(Cancelled)
    else None
  }

  datatype ReviewStatus = ReviewPending | Approved | Rejected

  function ReviewStatusName(t: ReviewStatus): string {
    match t
    case ReviewPending => "pending"
    case Approved => "approved"
    case Rejected => "rejected"
  }

  function ParseReviewStatus(s: string): (r: Option<ReviewStatus>)
    ensures r.Some? <==> s == "pending" || s == "approved" || s == "rejected"
    ensures r.Some? ==> ReviewStatusName(r.value) == s
    ensures forall t :: s == ReviewStatusName(t) ==> r == Some(t)
  {
    if s == "pending" then Some(ReviewPending)
    else if s == "approved" then Some(Approved)
    else if s == "rejected" then Some(Rejected)
    else None
  }

  datatype ReportStatus = ReportPending | Resolved | Dismissed

  function ReportStatusName(t: ReportStatus): string {
    match t
    case ReportPending => "pending"
    case Resolved => "resolved"
    case Dismissed => "dismissed"
  }

  function ParseReportStatus(s: string): (r: Option<ReportStatus>)
    ensures r.Some? <==> s == "pending" || s == "resolved" || s == "dismissed"
    ensures r.Some? ==> ReportStatusName(r.value) == s
    ensures forall t :: s == ReportStatusName(t) ==> r == Some(t)
  {
    if s == "pending" then Some(ReportPending)
    else if s == "resolved" then Some(Resolved)
    else if s == "dismissed" then Some(Dismissed)
    else None
  }

  /** The declared price ranges; the stored field is a plain string (see `Restaurant`). */
  datatype PriceRange = Low | Medium | High

  function PriceRangeName(t: PriceRange): string {
    match t
    case Low => "low"
    case Medium => "medium"
    case High => "high"
  }

  function ParsePriceRange(s: string): (r: Option<PriceRange>)
    ensures r.Some? <==> s == "low" || s == "medium" || s == "high"
    ensures r.Some? ==> PriceRangeName(r.value) == s
    ensures forall t :: s == PriceRangeName(t) ==> r == Some(t)
  {
    if s == "low" then Some(Low)
    else if s == "medium" then Some(Medium)
    else if s == "high" then Some(High)
    else None
  }

  /** Distinct names map to distinct values, so every enumeration round-trips through its name. */
  lemma NamesAreInjective()
    ensures forall a, b :: UserTypeName(a) == UserTypeName(b) ==> a == b
    ensures forall a, b :: ReservationStatusName(a) == ReservationStatusName(b) ==> a == b
    ensures forall a, b :: ReviewStatusName(a) == ReviewStatusName(b) ==> a == b
    ensures forall a, b :: ReportStatusName(a) == ReportStatusName(b) ==> a == b
    ensures forall a, b :: PriceRangeName(a) == PriceRangeName(b) ==> a == b
  {
  }

  // ---- documents ---------------------------------------------------------

  /** The three settings sections, each an object of named JSON values. */
  datatype Settings = Settings(
    notifications: map<string, Value>,
    privacy: map<string, Value>,
    personalization: map<string, Value>)

  /**
   * A user document. `profile` holds the editable JSON fields (name, email, phone,
   * profileImage, bio, preferences), since the profile update writes arbitrary JSON
   * values into them; the password is the bcrypt hash.
   */
  datatype User = User(
    id: string,
    password: string,
    userType: UserType,
    createdAt: int,
    profile: map<string, Value>,
    settings: Option<Settings>)

  /** The `name` / `email` member of a user document; `Null` when the member is absent. */
  function Field(u: User, key: string): (r: Value)
    ensures key !in u.profile ==> r == Null
  {
    if key in u.profile then u.profile[key] else Null
  }

  datatype MenuItem = MenuItem(
    id: string,
    name: string,
    description: string,
    price: real,
    imageUrl: Option<string>,
    isAvailable: bool,
    category: string,
    allergens: Option<seq<string>>,
    isVegetarian: Option<bool>,
    isVegan: Option<bool>,
    isGlutenFree: Option<bool>,
    createdAt: int,
    updatedAt: Option<int>)

  datatype MenuCategory = MenuCategory(
    id: string,
    name: string,
    description: Option<string>,
    items: seq<MenuItem>,
    order: int)

  /** The six boolean restaurant attributes. */
  datatype Feature =
    | LgbtqFriendly | SmokingAllowed | OutdoorSeating
    | WheelchairAccessible | VeganOptions | VegetarianOptions

  /** The document field, and query parameter, that carries each attribute. */
  function FeatureKey(f: Feature): string {
    match f
    case LgbtqFriendly => "isLgbtqFriendly"
    case SmokingAllowed => "isSmokingAllowed"
    case OutdoorSeating => "hasOutdoorSeating"
    case WheelchairAccessible => "isWheelchairAccessible"
    case VeganOptions => "hasVeganOptions"
    case VegetarianOptions => "hasVegetarianOptions"
  }

  /**
   * A restaurant document. `priceRange` is kept as the stored string: the interface
   * declares low/medium/high, but the creating route stores whatever it is sent.
   */
  datatype Restaurant = Restaurant(
    id: string,
    ownerId: string,
    name: string,
    description: string,
    cuisine: string,
    location: string,
    phone: string,
    hours: string,
    images: seq<string>,
    menu: seq<MenuCategory>,
    createdAt: int,
    isLgbtqFriendly: bool,
    isSmokingAllowed: bool,
    hasOutdoorSeating: bool,
    isWheelchairAccessible: bool,
    hasVeganOptions: bool,
    hasVegetarianOptions: bool,
    priceRange: string,
    rating: Option<real>)

  function HasFeature(r: Restaurant, f: Feature): bool {
    match f
    case LgbtqFriendly => r.isLgbtqFriendly
    case SmokingAllowed => r.isSmokingAllowed
    case OutdoorSeating => r.hasOutdoorSeating
    case WheelchairAccessible => r.isWheelchairAccessible
    case VeganOptions => r.hasVeganOptions
    case VegetarianOptions => r.hasVegetarianOptions
  }

  /** `date` is the request's date string; `guests` is `Number(guests)`. */
  datatype Reservation = Reservation(
    id: string,
    restaurantId: string,
    customerId: string,
    date: string,
    time: string,
    guests: real,
    status: ReservationStatus,
    specialRequests: Option<string>,
    createdAt: int)

  /** `status`, `helpful` and `reportCount` are optional members of the document. */
  datatype Review = Review(
    id: string,
    restaurantId: string,
    customerId: string,
    rating: real,
    comment: string,
    date: int,
    reply: Option<string>,
    images: Option<seq<string>>,
    status: Option<ReviewStatus>,
    helpful: Option<int>,
    reportCount: Option<int>,
    updatedAt: Option<int>)

  datatype Favorite = Favorite(
    id: string,
    customerId: string,
    restaurantId: string,
    createdAt: int)

  datatype Report = Report(
    id: string,
    reviewId: string,
    reporterId: string,
    reason: string,
    date: int,
    status: ReportStatus)

  // ---- collection lookups -------------------------------------------------

  /** `findOne({ _id })` on the restaurants collection. */
  function FindRestaurant(rs: seq<Restaurant>, id: string): (r: Option<Restaurant>)
    ensures r.Some? ==> r.value in rs && r.value.id == id
    ensures r.None? <==> forall x :: x in rs ==> x.id != id
  {
    FindFirst(rs, (x: Restaurant) => x.id == id)
  }

  /** `findOne({ _id: restaurantId, ownerId })` finds a document. */
  predicate OwnedBy(rs: seq<Restaurant>, restaurantId: string, ownerId: string) {
    exists x :: x in rs && x.id == restaurantId && x.ownerId == ownerId
  }

  /** `restaurants.map(r => r._id)`. */
  function RestaurantIds(rs: seq<Restaurant>): (r: seq<string>)
    ensures |r| == |rs|
    ensures forall i :: 0 <= i < |rs| ==> r[i] == rs[i].id
  {
    if rs == [] then [] else [rs[0].id] + RestaurantIds(rs[1..])
  }

  /** The ids of `find({ ownerId })`: exactly the restaurants the owner has. */
  function OwnedIds(rs: seq<Restaurant>, ownerId: string): (r: seq<string>)
    ensures forall id :: id in r <==> OwnedBy(rs, id, ownerId)
  {
    var owned := Filter(rs, (x: Restaurant) => x.ownerId == ownerId);
    var ids := RestaurantIds(owned);
    forall id ensures id in ids <==> OwnedBy(rs, id, ownerId) {
      if id in ids {
        var i :| 0 <= i < |ids| && ids[i] == id;
        assert owned[i] in owned;
      }
      if OwnedBy(rs, id, ownerId) {
        var x :| x in rs && x.id == id && x.ownerId == ownerId;
        FilterMembership(rs, (x: Restaurant) => x.ownerId == ownerId, x);
        var i :| 0 <= i < |owned| && owned[i] == x;
        assert ids[i] == id;
      }
    }
    ids
  }

  /** `findOne({ _id })` on the users collection. */
  function FindUser(us: seq<User>, id: string): (r: Option<User>)
    ensures r.Some? ==> r.value in us && r.value.id == id
    ensures r.None? <==> forall x :: x in us ==> x.id != id
  {
    FindFirst(us, (x: User) => x.id == id)
  }

  /** `customer ? customer.name : "Unknown Customer"` for the user a row names. */
  function CustomerName(users: seq<User>, customerId: string): Value {
    match FindUser(users, customerId)
    case Some(u) => Field(u, "name")
    case None => Str("Unknown Customer")
  }

  /** `restaurant ? restaurant.name : "Unknown Restaurant"` for the restaurant a row names. */
  function RestaurantName(rs: seq<Restaurant>, restaurantId: string): string {
    match FindRestaurant(rs, restaurantId)
    case Some(x) => x.name
    case None => "Unknown Restaurant"
  }

  /** The position of the document `updateOne({ _id })` changes. */
  function UserIndex(us: seq<User>, id: string): (r: Option<nat>)
    ensures r.Some? ==> r.value < |us| && us[r.value].id == id
    ensures r.Some? ==> forall j :: 0 <= j < r.value ==> us[j].id != id
    ensures r.None? <==> forall x :: x in us ==> x.id != id
  {
    FindIndex(us, (x: User) => x.id == id)
  }

  /** Looking up by index and looking up by value agree. */
  lemma UserIndexFinds(us: seq<User>, id: string)
    ensures UserIndex(us, id).Some? <==> FindUser(us, id).Some?
    ensures UserIndex(us, id).Some? ==> FindUser(us, id) == Some(us[UserIndex(us, id).value])
  {
  }

  // ---- collection invariants kept by the creating routes ------------------

  /** At most one review per (restaurant, customer) pair. */
  predicate OneReviewPerPair(rs: seq<Review>) {
    forall i, j :: 0 <= i < j < |rs| ==>
      !(rs[i].restaurantId == rs[j].restaurantId && rs[i].customerId == rs[j].customerId)
  }

  /** At most one favorite per (customer, restaurant) pair. */
  predicate OneFavoritePerPair(fs: seq<Favorite>) {
    forall i, j :: 0 <= i < j < |fs| ==>
      !(fs[i].customerId == fs[j].customerId && fs[i].restaurantId == fs[j].restaurantId)
  }

  /** At most one user per email. */
  predicate UniqueEmails(us: seq<User>) {
    forall i, j :: 0 <= i < j < |us| ==> Field(us[i], "email") != Field(us[j], "email")
  }
}
