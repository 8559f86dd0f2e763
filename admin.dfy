/**
 * The kitchen display (components/AdminDashboard.tsx): it loads the stored
 * orders newest first, filters them by lifecycle stage and offers the staff the
 * next step of each order's lifecycle.
 */
module Admin {
  import opened Types
  import Seqs
  import opened Storage

  datatype StatusFilter = All | Active | Completed

  /** An order the kitchen still has to act on. */
  predicate IsActive(s: OrderStatus)
  {
    s == Received || s == Preparing || s == Delivering
  }

  /** An order whose lifecycle is over. */
  predicate IsCompleted(s: OrderStatus)
  {
    s == Delivered || s == Cancelled
  }

  function Shows(filter: StatusFilter): Order -> bool
  {
    (o: Order) =>
      match filter
      case Active => IsActive(o.status)
      case Completed => IsCompleted(o.status)
      case All => true
  }

  /** filteredOrders: the orders the selected filter shows, in list order. */
  function FilterOrders(orders: seq<Order>, filter: StatusFilter): (r: seq<Order>)
    ensures filter == Active ==> forall o :: o in r <==> o in orders && IsActive(o.status)
    ensures filter == Completed ==> forall o :: o in r <==> o in orders && IsCompleted(o.status)
    ensures Seqs.IsSubsequence(r, orders)
  {
    Seqs.Filter(orders, Shows(filter))
  }

  /** The 'all' filter shows the list as it is. */
  lemma FilterAllIsIdentity(orders: seq<Order>)
    ensures FilterOrders(orders, All) == orders
  {
    Seqs.FilterKeepsAll(orders, Shows(All));
  }

  /** 'active' and 'completed' split the list: every order is shown by exactly one of them. */
  lemma ActiveCompletedPartition(orders: seq<Order>)
    ensures forall o :: o in orders ==> (o in FilterOrders(orders, Active) <==> o !in FilterOrders(orders, Completed))
    ensures multiset(FilterOrders(orders, Active)) + multiset(FilterOrders(orders, Completed)) == multiset(orders)
    ensures |FilterOrders(orders, Active)| + |FilterOrders(orders, Completed)| == |orders|
  {
    Seqs.FilterPartition(orders, Shows(Active), Shows(Completed));
  }

  /**
   * The action buttons on an order card, as the statuses they set, in display
   * order: at most two, each one a real change, none back to 'received'.
   */
  function Actions(s: OrderStatus): (r: seq<OrderStatus>)
    ensures |r| <= 2
    ensures s !in r
    ensures Received !in r
  {
    match s
    case Received => [Cancelled, Preparing]
    case Preparing => [Delivering]
    case Delivering => [Delivered]
    case Delivered => []
    case Cancelled => []
  }

  /** The position of a non-cancelled order along the pipeline. */
  function Rank(s: OrderStatus): nat
  {
    match s
    case Received => 0
    case Preparing => 1
    case Delivering => 2
    case Delivered => 3
    case Cancelled => 0
  }

  /** Each offered step either cancels a received order or advances exactly one stage. */
  lemma ActionsAdvance(s: OrderStatus, t: OrderStatus)
    requires t in Actions(s)
    ensures t == Cancelled ==> s == Received
    ensures t != Cancelled ==> s != Cancelled && Rank(t) == Rank(s) + 1
  {
  }

  /** The finished orders, and only they, offer no action. */
  lemma TerminalIffCompleted(s: OrderStatus)
    ensures Actions(s) == [] <==> IsCompleted(s)
  {
  }

  /** A sequence of statuses, each reached from the one before by an offered action. */
  ghost predicate IsRun(p: seq<OrderStatus>)
  {
    |p| <= 1 || (p[1] in Actions(p[0]) && IsRun(p[1..]))
  }

  /**
   * Along any run the rank of a non-cancelled order rises by one per step, a
   * cancellation can only end the run, and no run has more than four statuses.
   */
  lemma {:induction false} RunShape(p: seq<OrderStatus>)
    requires |p| > 0 && IsRun(p) && p[0] != Cancelled
    ensures forall i :: 0 <= i < |p| && p[i] != Cancelled ==> Rank(p[i]) == Rank(p[0]) + i
    ensures forall i :: 0 <= i < |p| && p[i] == Cancelled ==> i == |p| - 1
    ensures |p| <= 4 - Rank(p[0])
  {
    if |p| > 1 {
      var q := p[1..];
      ActionsAdvance(p[0], p[1]);
      if p[1] == Cancelled {
        assert |q| <= 1;
      } else {
        RunShape(q);
        forall i | 0 < i < |p| ensures p[i] == q[i - 1] { }
      }
    }
  }

  /** updateOrderStatus's rewrite: every order with the id takes the new status. */
  function SetStatus(orders: seq<Order>, id: string, status: OrderStatus): (r: seq<Order>)
    ensures |r| == |orders|
    ensures forall i :: 0 <= i < |orders| ==> r[i].(status := orders[i].status) == orders[i]
    ensures forall i :: 0 <= i < |orders| ==> r[i].status == if orders[i].id == id then status else orders[i].status
  {
    seq(|orders|, i requires 0 <= i < |orders| =>
      if orders[i].id == id then orders[i].(status := status) else orders[i])
  }

  /** An unknown id leaves the list as it is. */
  lemma SetStatusUnknownId(orders: seq<Order>, id: string, status: OrderStatus)
    requires forall i :: 0 <= i < |orders| ==> orders[i].id != id
    ensures SetStatus(orders, id, status) == orders
  {
  }

  /** A status change keeps a newest-first list newest first. */
  lemma SetStatusKeepsOrder(orders: seq<Order>, id: string, status: OrderStatus)
    requires Seqs.SortedDesc(orders, OrderTime)
    ensures Seqs.SortedDesc(SetStatus(orders, id, status), OrderTime)
  {
    var r := SetStatus(orders, id, status);
    assert forall i :: 0 <= i < |r| ==> OrderTime(r[i]) == OrderTime(orders[i]);
  }

  /**
   * updateOrderStatus as written stores the changed list the display fetched
   * earlier. An order stored since that fetch (no fetched order has its id) is
   * missing from what is written, and a customer's cancellation stored since
   * then for another fetched order is overwritten by the fetched status.
   */
  lemma StaleWriteBackLosesUpdates(fetched: seq<Order>, placed: Order, c: string, id: string, status: OrderStatus, k: nat)
    requires forall i :: 0 <= i < |fetched| ==> fetched[i].id != placed.id
    requires k < |fetched| && fetched[k].id == c && fetched[k].status == Received && c != id
    ensures var stored := SetStatus(fetched, c, Cancelled) + [placed];
      && placed in stored && stored[k].status == Cancelled
      && placed !in SetStatus(fetched, id, status)
      && SetStatus(fetched, id, status)[k].status == Received
  {
  }

  /**
   * The corrected write-back applies the change to the list currently stored:
   * every order of another id, including one placed or cancelled since the
   * last fetch, is stored exactly as it was.
   */
  lemma FreshWriteBackKeepsUpdates(stored: seq<Order>, id: string, status: OrderStatus)
    ensures |SetStatus(stored, id, status)| == |stored|
    ensures forall i :: 0 <= i < |stored| && stored[i].id != id ==> SetStatus(stored, id, status)[i] == stored[i]
    ensures forall o :: o in stored && o.id != id ==> o in SetStatus(stored, id, status)
  {
    var written := SetStatus(stored, id, status);
    forall o | o in stored && o.id != id
      ensures o in written
    {
      var i :| 0 <= i < |stored| && stored[i] == o;
      assert written[i] == o;
    }
  }

  class KitchenDisplay {
    var orders: seq<Order>
    var filter: StatusFilter

    constructor ()
      ensures orders == [] && filter == Active
    {
      orders, filter := [], Active;
    }

    /** fetchOrders: the stored orders, newest first; the store is only read. */
    method FetchOrders(store: Store)
      modifies this`orders
      ensures orders == Seqs.SortDesc(store.orders, OrderTime)
      ensures multiset(orders) == multiset(store.orders)
      ensures Seqs.SortedDesc(orders, OrderTime)
    {
      orders := Seqs.SortDesc(store.orders, OrderTime);
    }

    /**
     * updateOrderStatus with the corrected write-back: the list shown takes the
     * new status, and so does the list currently stored, which keeps every order
     * placed or changed since the last fetch.
     */
    method UpdateOrderStatus(id: string, status: OrderStatus, store: Store)
      modifies this`orders, store`orders
      ensures orders == SetStatus(old(orders), id, status)
      ensures store.orders == SetStatus(old(store.orders), id, status)
      ensures forall o :: o in old(store.orders) && o.id != id ==> o in store.orders
      ensures Seqs.SortedDesc(old(orders), OrderTime) ==> Seqs.SortedDesc(orders, OrderTime)
    {
      if Seqs.SortedDesc(orders, OrderTime) {
        SetStatusKeepsOrder(orders, id, status);
      }
      FreshWriteBackKeepsUpdates(store.orders, id, status);
      orders := SetStatus(orders, id, status);
      store.orders := SetStatus(store.orders, id, status);
    }

    method SetFilter(f: StatusFilter)
      modifies this`filter
      ensures filter == f
    {
      filter := f;
    }

    function FilteredOrders(): seq<Order>
      reads this
    {
      FilterOrders(orders, filter)
    }
  }
}
