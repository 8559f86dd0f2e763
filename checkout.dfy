/**
 * The cart drawer (components/Cart.tsx): totals, checkout, placing an order in
 * the store, tracking it by polling the store, and the one-minute window in
 * which the customer may still cancel it.
 */
module Checkout {
  import opened Types
  import Seqs
  import CartLines
  import Digits
  import Admin
  import App
  import opened Storage

  const DeliveryFee: real := 5.0

  /** The gratuity buttons offer 0, 10, 15 and 20 percent. */
  predicate IsTipOption(p: int)
  {
    p == 0 || p == 10 || p == 15 || p == 20
  }

  /** The gratuity: no tip adds nothing, an offered tip on a non-negative subtotal adds at most a fifth. */
  function TipAmount(subtotal: real, tipPercentage: int): (r: real)
    ensures tipPercentage == 0 ==> r == 0.0
    ensures IsTipOption(tipPercentage) && subtotal >= 0.0 ==> 0.0 <= r <= subtotal / 5.0
  {
    subtotal * tipPercentage as real / 100.0
  }

  /** finalTotal: subtotal + delivery fee + tip; an empty cart or no tip leaves only the fee on top. */
  function FinalTotal(items: seq<CartItem>, tipPercentage: int): (r: real)
    ensures items == [] ==> r == DeliveryFee
    ensures tipPercentage == 0 ==> r == CartLines.TotalPrice(items) + DeliveryFee
  {
    var subtotal := CartLines.TotalPrice(items);
    subtotal + DeliveryFee + TipAmount(subtotal, tipPercentage)
  }

  /** With non-negative prices the total is at least subtotal + fee, and a tip adds at most a fifth. */
  lemma FinalTotalBounds(items: seq<CartItem>, tipPercentage: int)
    requires CartLines.AllPositive(items)
    requires forall i :: 0 <= i < |items| ==> items[i].item.price >= 0.0
    requires IsTipOption(tipPercentage)
    ensures CartLines.TotalPrice(items) + DeliveryFee <= FinalTotal(items, tipPercentage)
    ensures FinalTotal(items, tipPercentage) <= CartLines.TotalPrice(items) * 1.2 + DeliveryFee
  {
    CartLines.TotalsNonNegative(items);
  }

  /** The cart's view of an order: before checkout, on the form, or tracking a placed order. */
  datatype Phase = Idle | CheckingOut | Tracking(status: OrderStatus)

  datatype PaymentMethod = Card | Wallet | Cash

  datatype CheckoutForm = CheckoutForm(
    name: string, address: string, city: string, zip: string, paymentMethod: PaymentMethod)

  /**
   * The tracker step checkUpdates sets for a changed status: the kitchen's
   * pipeline rank, 0 for a cancellation, unchanged for a received order.
   */
  function StepFor(status: OrderStatus, step: int): (r: int)
    ensures status == Received ==> r == step
    ensures status == Cancelled ==> r == 0
    ensures status != Received && status != Cancelled ==> r == Admin.Rank(status) && 1 <= r <= 3
  {
    match status
    case Preparing => 1
    case Delivering => 2
    case Delivered => 3
    case Cancelled => 0
    case Received => step
  }

  /** The countdown: seconds of the 60 left, counted from the order's timestamp while it is received. */
  function TimeLeft(order: Order, now: int): (t: int)
    ensures t >= 0
    ensures order.timestamp <= now ==> t <= 60
    ensures order.status != Received ==> t == 0
    ensures order.status == Received ==> (t > 0 <==> now - order.timestamp < 60000)
  {
    if order.status == Received then
      var elapsedSeconds := (now - order.timestamp) / 1000;
      if 60 - elapsedSeconds > 0 then 60 - elapsedSeconds else 0
    else 0
  }

  /**
   * handleCancelOrder's guard as written: only the elapsed time is checked. The
   * window closes exactly when more than 60000 ms have passed; 60 s on the dot
   * still cancels.
   */
  predicate CanCancel(order: Order, now: int)
    ensures CanCancel(order, now) <==> now - order.timestamp <= 60000
  {
    !((now - order.timestamp) as real / 1000.0 > 60.0)
  }

  /**
   * The guard the cancel screen promises ("orders cannot be cancelled once
   * preparation begins"): still received, and within the minute.
   */
  predicate MayCancel(order: Order, now: int)
    ensures MayCancel(order, now) <==> order.status == Received && now - order.timestamp <= 60000
  {
    order.status == Received && CanCancel(order, now)
  }

  /** While the countdown shows time left (the only time the cancel button is shown), cancelling succeeds. */
  lemma CountdownAllowsCancel(order: Order, now: int)
    requires TimeLeft(order, now) > 0
    ensures MayCancel(order, now)
  {
  }

  /**
   * As written, the time-only guard lets a cancellation through for an order
   * the kitchen has already started, and the write-back then marks it cancelled.
   */
  lemma CancelAsWrittenHitsStartedOrder(orders: seq<Order>, id: string, now: int, k: nat)
    requires FindOrder(orders, id) == Some(k)
    requires orders[k].status == Preparing && now - orders[k].timestamp <= 60000
    ensures CanCancel(orders[k], now)
    ensures Admin.SetStatus(orders, id, Cancelled)[k].status == Cancelled
  {
  }

  /** The corrected guard never lets a cancellation through for an order that has left 'received'. */
  lemma CancelSparesStartedOrder(orders: seq<Order>, id: string, now: int, k: nat)
    requires FindOrder(orders, id) == Some(k)
    requires orders[k].status != Received
    ensures !MayCancel(orders[k], now)
  {
  }

  /** `storedOrders.find(o => o.id === id)`, as the index where the search stops. */
  function FindOrder(orders: seq<Order>, id: string): (r: Option<nat>)
    ensures r.Some? ==> r.value < |orders| && orders[r.value].id == id
    ensures r.Some? ==> forall j :: 0 <= j < r.value ==> orders[j].id != id
    ensures r.None? ==> forall j :: 0 <= j < |orders| ==> orders[j].id != id
  {
    Seqs.FindFirst(orders, (o: Order) => o.id == id)
  }

  /**
   * The order handleFinalizeOrder stores: never nameless, linked to the user
   * exactly when one is logged in, showing the full minute and cancellable at once.
   */
  function NewOrder(form: CheckoutForm, user: Option<User>, items: seq<CartItem>,
                    tipPercentage: int, number: nat, now: int): (r: Order)
    ensures r.customerName != ""
    ensures r.userEmail.Some? <==> user.Some?
    ensures |r.id| > 4 && r.id[..4] == "ORD-"
    ensures TimeLeft(r, now) == 60 && MayCancel(r, now)
  {
    Order(
      Digits.TaggedId("ORD-", number),
      if form.name == "" then "Guest" else form.name,
      if user.Some? then Some(user.value.email) else None,
      items,
      FinalTotal(items, tipPercentage),
      Received,
      form.address + ", " + form.city + " " + form.zip,
      now)
  }

  /** Two placed orders with different numbers never share an id. */
  lemma NewOrderIdsDistinct(form: CheckoutForm, user: Option<User>, items: seq<CartItem>,
                            tipPercentage: int, a: nat, b: nat, now: int)
    requires a != b
    ensures NewOrder(form, user, items, tipPercentage, a, now).id
         != NewOrder(form, user, items, tipPercentage, b, now).id
  {
    if Digits.TaggedId("ORD-", a) == Digits.TaggedId("ORD-", b) {
      Digits.TaggedIdInjective("ORD-", a, b);
    }
  }

  class CartPanel {
    var orderStatus: Phase
    var orderId: string
    var currentStep: int
    var timeLeft: int
    var form: CheckoutForm
    var tipPercentage: int
    var isSubmitting: bool

    ghost predicate Valid()
      reads this
    {
      IsTipOption(tipPercentage) && 0 <= currentStep <= 3 && timeLeft >= 0
    }

    constructor ()
      ensures orderStatus == Idle && orderId == "" && currentStep == 0 && timeLeft == 60
      ensures form == CheckoutForm("", "", "", "", Card) && tipPercentage == 0 && !isSubmitting
      ensures Valid()
    {
      orderStatus, orderId, currentStep, timeLeft := Idle, "", 0, 60;
      form, tipPercentage, isSubmitting := CheckoutForm("", "", "", "", Card), 0, false;
    }

    /** The effect that pre-fills the name of a logged-in user. */
    method PrefillName(currentUser: Option<User>)
      modifies this`form
      ensures currentUser.Some? ==> form == old(form).(name := currentUser.value.name)
      ensures currentUser.None? ==> form == old(form)
    {
      if currentUser.Some? {
        form := form.(name := currentUser.value.name);
      }
    }

    /** handleProceedToCheckout: only a logged-in user reaches the form; otherwise the app asks for a login. */
    method ProceedToCheckout(app: App.App)
      modifies this`orderStatus, app`checkoutMessage, app`isCartOpen, app`isLoginOpen
      ensures app.currentUser.Some? ==> orderStatus == CheckingOut && unchanged(app)
      ensures app.currentUser.None? ==>
        && orderStatus == old(orderStatus) && app.isLoginOpen && !app.isCartOpen
        && app.checkoutMessage == "Please log in or create an account to complete your order."
    {
      if app.currentUser.None? {
        app.OnLoginRequired();
        return;
      }
      orderStatus := CheckingOut;
    }

    /** handleBackToCart */
    method BackToCart()
      modifies this`orderStatus
      ensures orderStatus == Idle
    {
      orderStatus := Idle;
    }

    /** A gratuity button. */
    method SelectTip(percent: int)
      requires IsTipOption(percent)
      modifies this`tipPercentage
      ensures tipPercentage == percent
    {
      tipPercentage := percent;
    }

    /**
     * handleFinalizeOrder, including its delayed callback: store one received
     * order holding the cart, start tracking it, and empty the cart.
     */
    method FinalizeOrder(app: App.App, store: Store, random: real, now: int)
      requires 0.0 <= random < 1.0
      requires Valid()
      modifies this`orderId, this`orderStatus, this`currentStep, this`timeLeft, this`isSubmitting
      modifies store`orders, app`cartItems
      ensures Valid()
      ensures store.orders == old(store.orders) + [NewOrder(form, app.currentUser, old(app.cartItems),
                                                   tipPercentage, Digits.IdNumber(random), now)]
      ensures var placed := store.orders[|old(store.orders)|];
        && placed.id == orderId && placed.status == Received && placed.timestamp == now
        && placed.items == old(app.cartItems) && placed.total == FinalTotal(old(app.cartItems), tipPercentage)
        && placed.customerName == (if form.name == "" then "Guest" else form.name)
      ensures orderId == Digits.TaggedId("ORD-", Digits.IdNumber(random)) && |orderId| == 10
      ensures orderStatus == Tracking(Received) && currentStep == 0 && timeLeft == 60
      ensures app.cartItems == [] && !isSubmitting
    {
      isSubmitting := true;
      var number := Digits.IdNumber(random);
      var order := NewOrder(form, app.currentUser, app.cartItems, tipPercentage, number, now);
      Digits.DrawnIdLength("ORD-", random);
      store.orders := store.orders + [order];
      orderId := order.id;
      orderStatus := Tracking(Received);
      currentStep := 0;
      timeLeft := 60;
      app.ClearCart();
      isSubmitting := false;
    }

    /** checkUpdates: mirror the stored status of the tracked order and refresh the countdown. */
    method CheckUpdates(store: Store, now: int)
      requires Valid()
      modifies this`orderStatus, this`currentStep, this`timeLeft
      ensures Valid()
      ensures FindOrder(store.orders, orderId).None? ==>
        orderStatus == old(orderStatus) && currentStep == old(currentStep) && timeLeft == old(timeLeft)
      ensures FindOrder(store.orders, orderId).Some? ==>
        var o := store.orders[FindOrder(store.orders, orderId).value];
        && orderStatus == Tracking(o.status)
        && currentStep == (if old(orderStatus) == Tracking(o.status) then old(currentStep) else StepFor(o.status, old(currentStep)))
        && timeLeft == TimeLeft(o, now)
    {
      var found := FindOrder(store.orders, orderId);
      if found.Some? {
        var o := store.orders[found.value];
        if Tracking(o.status) != orderStatus {
          orderStatus := Tracking(o.status);
          currentStep := StepFor(o.status, currentStep);
        }
        timeLeft := TimeLeft(o, now);
      }
    }

    /** One tick of the polling effect: it runs only for a placed order with an id. */
    method PollStep(store: Store, now: int)
      requires Valid()
      modifies this`orderStatus, this`currentStep, this`timeLeft
      ensures Valid()
      ensures old(orderStatus) in {Idle, CheckingOut} || orderId == "" ==>
        orderStatus == old(orderStatus) && currentStep == old(currentStep) && timeLeft == old(timeLeft)
      ensures old(orderStatus).Tracking? && orderId != "" && FindOrder(store.orders, orderId).None? ==>
        orderStatus == old(orderStatus) && currentStep == old(currentStep) && timeLeft == old(timeLeft)
      ensures old(orderStatus).Tracking? && orderId != "" && FindOrder(store.orders, orderId).Some? ==>
        var o := store.orders[FindOrder(store.orders, orderId).value];
        && orderStatus == Tracking(o.status)
        && currentStep == (if old(orderStatus) == Tracking(o.status) then old(currentStep) else StepFor(o.status, old(currentStep)))
        && timeLeft == TimeLeft(o, now)
    {
      if orderStatus != Idle && orderStatus != CheckingOut && orderId != "" {
        CheckUpdates(store, now);
      }
    }

    /**
     * handleCancelOrder with the corrected guard: a received order within the
     * minute becomes cancelled in the store; a missing order changes nothing; a
     * late attempt, or one on an order the kitchen has started, only zeroes the
     * countdown.
     */
    method CancelOrder(store: Store, now: int)
      requires Valid()
      modifies this`orderStatus, this`currentStep, this`timeLeft, store`orders
      ensures Valid()
      ensures FindOrder(old(store.orders), orderId).None? ==>
        store.orders == old(store.orders) && orderStatus == old(orderStatus)
        && currentStep == old(currentStep) && timeLeft == old(timeLeft)
      ensures FindOrder(old(store.orders), orderId).Some? ==>
        var o := old(store.orders)[FindOrder(old(store.orders), orderId).value];
        if MayCancel(o, now) then
          && store.orders == Admin.SetStatus(old(store.orders), orderId, Cancelled)
          && orderStatus == Tracking(Cancelled) && currentStep == 0 && timeLeft == old(timeLeft)
        else
          && store.orders == old(store.orders) && orderStatus == old(orderStatus)
          && currentStep == old(currentStep) && timeLeft == 0
    {
      var found := FindOrder(store.orders, orderId);
      if found.Some? {
        var o := store.orders[found.value];
        if !MayCancel(o, now) {
          timeLeft := 0;
          return;
        }
        store.orders := Admin.SetStatus(store.orders, orderId, Cancelled);
        orderStatus := Tracking(Cancelled);
        currentStep := 0;
      }
    }

    /** resetOrder: back to an empty cart view; the name stays, the rest of the form is cleared. */
    method ResetOrder(app: App.App)
      modifies this`orderStatus, this`orderId, this`currentStep, this`timeLeft, this`tipPercentage, this`form
      modifies app`isCartOpen
      ensures orderStatus == Idle && orderId == "" && currentStep == 0 && timeLeft == 60 && tipPercentage == 0
      ensures form == CheckoutForm(old(form).name, "", "", "", Card)
      ensures !app.isCartOpen
      ensures Valid()
    {
      orderStatus := Idle;
      orderId := "";
      currentStep := 0;
      timeLeft := 60;
      tipPercentage := 0;
      form := form.(address := "", city := "", zip := "", paymentMethod := Card);
      app.CloseCart();
    }
  }
}
