/**
 * The browser store shared by every component. Each key holds a JSON array
 * (or the session user); reading and writing it whole is plain field access here.
 */
module Storage {
  import opened Types

  class Store {
    /** `ember_orders_db` */
    var orders: seq<Order>
    /** `ember_users_db` */
    var users: seq<Account>
    /** `ember_bookings_db` */
    var bookings: seq<Booking>
    /** `currentUser` */
    var currentUser: Option<User>

    /** A fresh browser: every missing key reads as `[]` (or no session). */
    constructor ()
      ensures orders == [] && users == [] && bookings == [] && currentUser == None
    {
      orders, users, bookings, currentUser := [], [], [], None;
    }
  }
}
