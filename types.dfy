/** The plain records the storefront passes around and keeps in the browser store. */
module Types {

  datatype Option<+T> = None | Some(value: T)

  datatype Category = Starter | Main | Dessert | Drink

  /** A dish on the menu; money is an exact `real`. */
  datatype MenuItem = MenuItem(
    id: string,
    name: string,
    description: string,
    price: real,
    category: Category,
    image: string,
    calories: Option<int>,
    isVegetarian: Option<bool>,
    isSpicy: Option<bool>)

  /** A cart line: the menu item's fields plus how many of it are ordered. */
  datatype CartItem = CartItem(item: MenuItem, quantity: int)
  {
    function Id(): string { item.id }
  }

  datatype OrderStatus = Received | Preparing | Delivering | Delivered | Cancelled

  datatype Order = Order(
    id: string,
    customerName: string,
    userEmail: Option<string>,
    items: seq<CartItem>,
    total: real,
    status: OrderStatus,
    address: string,
    timestamp: int)

  /** The reservation form. */
  datatype BookingRequest = BookingRequest(
    name: string,
    email: string,
    phone: string,
    date: string,
    time: string,
    guests: int,
    specialRequests: Option<string>)

  datatype BookingStatus = Confirmed | BookingCancelled

  datatype Booking = Booking(
    request: BookingRequest,
    id: string,
    userEmail: Option<string>,
    status: BookingStatus,
    timestamp: int)

  /** The session user; `None` in an optional field means the key is absent. */
  datatype User = User(
    name: string,
    email: string,
    isAuthenticated: bool,
    isAdmin: Option<bool>,
    password: Option<string>)

  /**
   * An entry of the users table. Sign-up writes only name, email and password;
   * a profile merge may add the session fields later.
   */
  datatype Account = Account(
    name: string,
    email: string,
    password: Option<string>,
    isAuthenticated: Option<bool>,
    isAdmin: Option<bool>)

  function OrderTime(o: Order): int { o.timestamp }

  function BookingTime(b: Booking): int { b.timestamp }
}
