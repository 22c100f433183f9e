/** The customer's order list: the status tabs, their counts, the status colours and the item preview. */
module OrdersPage {
  import opened Common
  import opened Schema
  import opened Sorting
  import OrderController

  function HasStatus(status: string): Order -> bool {
    (o: Order) => o.orderStatus == status
  }

  /** The count on a status tab. */
  function TabCount(orders: seq<Order>, status: string): nat {
    Count(orders, HasStatus(status))
  }

  /** filteredOrders: 'all' keeps every order, any other tab the orders with exactly that status. */
  function FilteredOrders(orders: seq<Order>, filter: string): (r: seq<Order>)
    ensures filter == "all" ==> r == orders
    ensures filter != "all" ==> r == Filter(orders, HasStatus(filter))
    ensures filter != "all" ==> forall o :: o in r <==> o in orders && o.orderStatus == filter
    ensures |r| == if filter == "all" then |orders| else TabCount(orders, filter)
  {
    var keep := (o: Order) => filter == "all" || o.orderStatus == filter;
    if filter == "all" then
      FilterAll(orders, keep);
      Filter(orders, keep)
    else
      FilterSame(orders, keep, HasStatus(filter));
      Filter(orders, keep)
  }

  /** The pending and delivered tabs count what the admin statistics count. */
  lemma TabsMatchStats(orders: seq<Order>)
    ensures TabCount(orders, Pending) == OrderController.Stats(orders).pendingOrders
    ensures TabCount(orders, Delivered) == OrderController.Stats(orders).deliveredOrders
  {
    FilterSame(orders, HasStatus(Pending), (o: Order) => o.orderStatus == Pending);
    FilterSame(orders, HasStatus(Delivered), (o: Order) => o.orderStatus == Delivered);
  }

  predicate KnownStatus(s: string) {
    s == Pending || s == Processing || s == Shipped || s == Delivered || s == Cancelled
  }

  /** When every order has one of the five statuses, the five per-status counts add up to all orders. */
  lemma {:induction false} StatusCountsPartition(orders: seq<Order>)
    requires forall i :: 0 <= i < |orders| ==> KnownStatus(orders[i].orderStatus)
    ensures TabCount(orders, Pending) + TabCount(orders, Processing) + TabCount(orders, Shipped)
          + TabCount(orders, Delivered) + TabCount(orders, Cancelled) == |orders|
  {
    if orders != [] {
      StatusCountsPartition(orders[1..]);
      assert KnownStatus(orders[0].orderStatus);
    }
  }

  const DefaultColor := "#6b7280"

  function StatusColor(status: string): (r: string)
    ensures status == Pending ==> r == "#f59e0b"
    ensures status == Processing ==> r == "#3b82f6"
    ensures status == Shipped ==> r == "#8b5cf6"
    ensures status == Delivered ==> r == "#10b981"
    ensures status == Cancelled ==> r == "#ef4444"
    ensures r == DefaultColor <==> !KnownStatus(status)
  {
    if status == Pending then "#f59e0b"
    else if status == Processing then "#3b82f6"
    else if status == Shipped then "#8b5cf6"
    else if status == Delivered then "#10b981"
    else if status == Cancelled then "#ef4444"
    else DefaultColor
  }

  /** Different known statuses get different colours. */
  lemma StatusColorsDistinct(s: string, t: string)
    requires KnownStatus(s) && KnownStatus(t) && s != t
    ensures StatusColor(s) != StatusColor(t)
  {
  }

  datatype Preview = Preview(shown: seq<OrderItem>, more: Option<string>)

  /** `items.slice(0, 3)` and the "+n more" tag shown only beyond three items. */
  function ItemPreview(items: seq<OrderItem>): (r: Preview)
    ensures |r.shown| == Min(3, |items|) && r.shown == items[..|r.shown|]
    ensures r.more.Some? <==> |items| > 3
    ensures r.more.Some? ==> r.more.value == "+" + NatToString(|items| - 3) + " more"
  {
    Preview(Take(items, 3), if |items| > 3 then Some("+" + NatToString(|items| - 3) + " more") else None)
  }

  /** The number in the tag and the items shown together account for every item. */
  lemma PreviewAccountsForAll(items: seq<OrderItem>, hidden: nat)
    requires ItemPreview(items).more == Some("+" + NatToString(hidden) + " more")
    ensures |ItemPreview(items).shown| + hidden == |items|
  {
    var n: nat := |items| - 3;
    assert NatToString(hidden) == NatToString(n) by {
      var a, b := "+" + NatToString(hidden) + " more", "+" + NatToString(n) + " more";
      assert a == b;
      assert a[1..|a| - 5] == NatToString(hidden);
      assert b[1..|b| - 5] == NatToString(n);
    }
    NatToStringInjective(hidden, n);
  }
}
