/** The order history screen (`src/screens/OrderHistoryScreen.tsx`): the orders it loaded,
    the status tab chosen ("all" or one status), the orders that tab lists, and the
    short preview of each order's items. */
module OrderHistory {
  import opened Common
  import opened Types

  /** `getFilteredOrders`: with no tab chosen every order, otherwise the orders in the
      chosen status, in their loaded order. */
  function FilteredOrders(orders: seq<Order>, selected: Option<OrderStatus>): (r: seq<Order>)
    ensures selected.None? ==> r == orders
    ensures IsSubsequence(r, orders)
    ensures selected.Some? ==> forall o :: o in r <==> o in orders && o.status == selected.value
    ensures selected.Some? ==> forall o {:trigger multiset(r)[o]} ::
      multiset(r)[o] == if o.status == selected.value then multiset(orders)[o] else 0
    ensures |r| <= |orders|
  {
    match selected
    case None =>
      SubsequenceReflexive(orders);
      orders
    case Some(status) => Select(orders, (o: Order) => o.status == status)
  }

  /** One step of a status tab's filter: the first order counts when it is in that status. */
  lemma FilterStep(orders: seq<Order>, status: OrderStatus)
    requires orders != []
    ensures |FilteredOrders(orders, Some(status))|
      == (if orders[0].status == status then 1 else 0) + |FilteredOrders(orders[1..], Some(status))|
  {
  }

  /** The five status tabs split the orders between them: every order is listed under
      exactly one tab, so their counts add up to the "all" tab's count. */
  lemma {:induction false} StatusTabsPartition(orders: seq<Order>)
    ensures |FilteredOrders(orders, Some(Pending))| + |FilteredOrders(orders, Some(Processing))|
      + |FilteredOrders(orders, Some(Shipped))| + |FilteredOrders(orders, Some(Delivered))|
      + |FilteredOrders(orders, Some(Cancelled))| == |FilteredOrders(orders, None)|
  {
    if orders != [] {
      StatusTabsPartition(orders[1..]);
      FilterStep(orders, Pending);
      FilterStep(orders, Processing);
      FilterStep(orders, Shipped);
      FilterStep(orders, Delivered);
      FilterStep(orders, Cancelled);
    }
  }

  datatype HistoryView = EmptyState | OrderList(orders: seq<Order>)

  /** The body of the screen: the list when the chosen tab has orders, else the empty
      state. */
  function HistoryScreen(orders: seq<Order>, selected: Option<OrderStatus>): (v: HistoryView)
    ensures v.EmptyState? <==> forall o :: o in orders ==> selected.Some? && o.status != selected.value
    ensures v.OrderList? ==> v.orders != [] && v.orders == FilteredOrders(orders, selected)
    ensures v.OrderList? ==> forall o :: o in v.orders <==> o in orders && (selected.Some? ==> o.status == selected.value)
  {
    var shown := FilteredOrders(orders, selected);
    if |shown| > 0 then
      assert shown[0] in shown;
      OrderList(shown)
    else EmptyState
  }

  /** What an order card lists: its first two items, then "+n more" for the rest. */
  datatype ItemPreview = ItemPreview(shown: seq<OrderItem>, moreCount: Option<nat>)

  const PreviewItems: nat := 2

  function PreviewOf(order: Order): (p: ItemPreview)
    ensures |p.shown| == Min(PreviewItems, |order.items|)
    ensures p.shown == order.items[..|p.shown|]
    ensures p.moreCount.Some? <==> |order.items| > PreviewItems
    ensures |p.shown| + (if p.moreCount.Some? then p.moreCount.value else 0) == |order.items|
  {
    var n := |order.items|;
    ItemPreview(order.items[..Min(PreviewItems, n)], if n > PreviewItems then Some(n - PreviewItems) else None)
  }

  class OrderHistoryState {
    var orders: seq<Order>
    var selectedStatus: Option<OrderStatus>

    /** The state once the screen has mounted and loaded the order fixture. */
    constructor (fixture: seq<Order>)
      ensures orders == fixture && selectedStatus == None
    {
      orders, selectedStatus := fixture, None;
    }

    /** `filterOrdersByStatus`: chooses a tab; the orders themselves are untouched. */
    method FilterOrdersByStatus(status: Option<OrderStatus>)
      modifies this
      ensures selectedStatus == status && orders == old(orders)
      ensures forall o :: o in FilteredOrders(orders, selectedStatus) <==>
        o in orders && (status.Some? ==> o.status == status.value)
    {
      selectedStatus := status;
    }
  }
}
