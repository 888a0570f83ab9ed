// The database as the route handlers see it: one sequence per collection, in
// insertion order, plus the log of real-time events sent to connected clients.

module Store {
  import opened Common
  import opened Db

  /** One socket emission: event `name` sent to the room of user `recipient`. */
  datatype Event = Event(
    recipient: string,
    name: string,
    reservation: Reservation,
    restaurantName: string,
    customerName: Value)

  class Store {
    var users: seq<User>
    var restaurants: seq<Restaurant>
    var reservations: seq<Reservation>
    var reviews: seq<Review>
    var favorites: seq<Favorite>
    var events: seq<Event>

    /** The invariants the creating routes maintain. */
    predicate Valid()
      reads this
    {
      OneReviewPerPair(reviews) && OneFavoritePerPair(favorites) && UniqueEmails(users)
    }

    constructor ()
      ensures Valid()
      ensures users == [] && restaurants == [] && reservations == []
      ensures reviews == [] && favorites == [] && events == []
    {
      users, restaurants, reservations := [], [], [];
      reviews, favorites, events := [], [], [];
    }
  }
}
