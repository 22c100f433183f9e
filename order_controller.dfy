/**
 * The order workflow: placing an order (validation, persisting it, then adjusting stock
 * item by item), changing its status, cancelling it, and the read-only queries.
 */
module OrderController {
  import opened Common
  import opened Schema
  import opened Store
  import opened Sorting

  /** An HTTP response: the status code and the JSON envelope `{success, message, data}`. */
  datatype Response = Response(status: int, success: bool, message: string, data: Option<Order>)

  const NotFound := Response(404, false, "Order not found", None)

  // ---------------------------------------------------------------------------
  // Stock bookkeeping
  // ---------------------------------------------------------------------------

  /** Some line item refers to product `id`. */
  predicate Referenced(items: seq<OrderItem>, id: Id) {
    exists k :: 0 <= k < |items| && items[k].product == id
  }

  /** The total quantity that `items` order of product `id`. */
  function QtyFor(items: seq<OrderItem>, id: Id): (r: int)
    ensures !Referenced(items, id) ==> r == 0
  {
    if items == [] then 0
    else
      var last := items[|items| - 1];
      QtyFor(items[..|items| - 1], id) + (if last.product == id then last.quantity else 0)
  }

  /** One pass of the placement loop: clamp the stock at zero, count the sale unclamped. */
  function Sold(p: Product, qty: int): Product {
    p.(stock := Max(0, p.stock - qty), totalSales := Some(OrZero(p.totalSales) + qty))
  }

  /** The products after the placement loop has handled `items`, in order; missing products are skipped. */
  function Placed(m: map<Id, Product>, items: seq<OrderItem>): (r: map<Id, Product>)
    ensures r.Keys == m.Keys
  {
    if items == [] then m
    else
      var prefix := items[..|items| - 1];
      var last := items[|items| - 1];
      var prev := Placed(m, prefix);
      if last.product in prev then prev[last.product := Sold(prev[last.product], last.quantity)]
      else prev
  }

  /** One pass of the cancellation loop: the quantity goes back, unclamped. */
  function Restocked(p: Product, qty: int): Product {
    p.(stock := p.stock + qty)
  }

  /** The products after the cancellation loop has put back the quantities of `items`. */
  function Restored(m: map<Id, Product>, items: seq<OrderItem>): (r: map<Id, Product>)
    ensures r.Keys == m.Keys
  {
    if items == [] then m
    else
      var prefix := items[..|items| - 1];
      var last := items[|items| - 1];
      var prev := Restored(m, prefix);
      if last.product in prev then prev[last.product := Restocked(prev[last.product], last.quantity)]
      else prev
  }

  /** One more pass of the placement loop. */
  lemma PlacedStep(m: map<Id, Product>, items: seq<OrderItem>, i: nat)
    requires i < |items|
    ensures var prev := Placed(m, items[..i]);
      Placed(m, items[..i + 1]) ==
        if items[i].product in prev
        then prev[items[i].product := Sold(prev[items[i].product], items[i].quantity)]
        else prev
  {
    assert items[..i + 1][..i] == items[..i];
  }

  /** One more pass of the cancellation loop. */
  lemma RestoredStep(m: map<Id, Product>, items: seq<OrderItem>, i: nat)
    requires i < |items|
    ensures var prev := Restored(m, items[..i]);
      Restored(m, items[..i + 1]) ==
        if items[i].product in prev
        then prev[items[i].product := Restocked(prev[items[i].product], items[i].quantity)]
        else prev
  {
    assert items[..i + 1][..i] == items[..i];
  }

  lemma ReferencedSplit(items: seq<OrderItem>, id: Id)
    requires items != []
    ensures Referenced(items, id) <==>
      Referenced(items[..|items| - 1], id) || items[|items| - 1].product == id
  {
    var prefix := items[..|items| - 1];
    if Referenced(items, id) && items[|items| - 1].product != id {
      var k :| 0 <= k < |items| && items[k].product == id;
      assert prefix[k] == items[k];
    }
    if Referenced(prefix, id) {
      var k :| 0 <= k < |prefix| && prefix[k].product == id;
      assert items[k] == prefix[k];
    }
  }

  /** What the placement loop does to the one product stored under `id`. */
  function SoldAll(p: Product, items: seq<OrderItem>, id: Id): (r: Product)
    ensures r == p.(stock := r.stock, totalSales := r.totalSales)
    ensures !Referenced(items, id) ==> r == p
  {
    if items == [] then p
    else
      var last := items[|items| - 1];
      var prev := SoldAll(p, items[..|items| - 1], id);
      ReferencedSplit(items, id);
      if last.product == id then Sold(prev, last.quantity) else prev
  }

  /** The map-level loop acts on each product independently of the others. */
  lemma {:induction false} PlacedAt(m: map<Id, Product>, items: seq<OrderItem>, id: Id)
    requires id in m
    ensures Placed(m, items)[id] == SoldAll(m[id], items, id)
  {
    if items != [] {
      PlacedAt(m, items[..|items| - 1], id);
    }
  }

  /** Products the order does not mention come out of placement unchanged. */
  lemma {:induction false} PlacedUntouched(m: map<Id, Product>, items: seq<OrderItem>, id: Id)
    requires id in m && !Referenced(items, id)
    ensures Placed(m, items)[id] == m[id]
  {
    PlacedAt(m, items, id);
  }

  lemma {:induction false} SoldAllCounts(p: Product, items: seq<OrderItem>, id: Id)
    requires forall k :: 0 <= k < |items| ==> items[k].quantity >= 0
    requires Referenced(items, id)
    ensures SoldAll(p, items, id).stock == Max(0, p.stock - QtyFor(items, id))
    ensures SoldAll(p, items, id).totalSales == Some(OrZero(p.totalSales) + QtyFor(items, id))
  {
    var prefix := items[..|items| - 1];
    var last := items[|items| - 1];
    ReferencedSplit(items, id);
    if Referenced(prefix, id) {
      SoldAllCounts(p, prefix, id);
    }
  }

  /**
   * With every quantity at least zero, the clamped decrements compose: each existing product
   * that the order refers to ends at max(0, stock - ordered) and its sales grow by the amount
   * ordered, however the quantities are split over line items.
   */
  lemma {:induction false} PlacedProduct(m: map<Id, Product>, items: seq<OrderItem>, id: Id)
    requires forall k :: 0 <= k < |items| ==> items[k].quantity >= 0
    requires id in m && Referenced(items, id)
    ensures Placed(m, items)[id].stock == Max(0, m[id].stock - QtyFor(items, id))
    ensures Placed(m, items)[id].totalSales == Some(OrZero(m[id].totalSales) + QtyFor(items, id))
  {
    PlacedAt(m, items, id);
    SoldAllCounts(m[id], items, id);
  }

  /** Stock never goes negative: placement clamps every product it touches at zero. */
  lemma {:induction false} PlacedNonNegative(m: map<Id, Product>, items: seq<OrderItem>)
    requires forall id :: id in m ==> m[id].stock >= 0
    ensures forall id :: id in m ==> Placed(m, items)[id].stock >= 0
  {
    if items != [] {
      PlacedNonNegative(m, items[..|items| - 1]);
    }
  }

  /** When no two line items share a product, each touched product loses exactly its own item's quantity. */
  lemma {:induction false} PlacedDistinct(m: map<Id, Product>, items: seq<OrderItem>, k: nat)
    requires forall i, j :: 0 <= i < j < |items| ==> items[i].product != items[j].product
    requires k < |items| && items[k].product in m
    ensures Placed(m, items)[items[k].product] == Sold(m[items[k].product], items[k].quantity)
  {
    var prefix := items[..|items| - 1];
    var id := items[k].product;
    if k == |items| - 1 {
      assert !Referenced(prefix, id);
      PlacedUntouched(m, prefix, id);
    } else {
      assert prefix[k] == items[k];
      PlacedDistinct(m, prefix, k);
    }
  }

  /**
   * Placement changes nothing but the two counters; in particular every document keeps its
   * id, so the collection stays indexed.
   */
  lemma PlacedCounters(m: map<Id, Product>, items: seq<OrderItem>)
    ensures forall id :: id in m ==>
      Placed(m, items)[id] == m[id].(stock := Placed(m, items)[id].stock, totalSales := Placed(m, items)[id].totalSales)
  {
    forall id | id in m
      ensures Placed(m, items)[id] == m[id].(stock := Placed(m, items)[id].stock, totalSales := Placed(m, items)[id].totalSales)
    {
      PlacedAt(m, items, id);
    }
  }

  /**
   * Cancellation adds each product's ordered quantity back, unclamped, and changes nothing
   * else about it (totalSales keeps the cancelled sale).
   */
  lemma {:induction false} RestoredProduct(m: map<Id, Product>, items: seq<OrderItem>, id: Id)
    requires id in m
    ensures Restored(m, items)[id] == Restocked(m[id], QtyFor(items, id))
  {
    if items != [] {
      RestoredProduct(m, items[..|items| - 1], id);
    }
  }

  lemma RestoredStockOnly(m: map<Id, Product>, items: seq<OrderItem>)
    ensures forall id :: id in m ==> Restored(m, items)[id] == m[id].(stock := Restored(m, items)[id].stock)
  {
    forall id | id in m
      ensures Restored(m, items)[id] == m[id].(stock := Restored(m, items)[id].stock)
    {
      RestoredProduct(m, items, id);
    }
  }

  /**
   * Placing an order and then cancelling it gives every product its stock back, provided the
   * placement did not have to clamp; the sales counters keep the cancelled sale.
   */
  lemma {:induction false} PlaceThenCancel(m: map<Id, Product>, items: seq<OrderItem>, id: Id)
    requires forall k :: 0 <= k < |items| ==> items[k].quantity >= 0
    requires id in m && m[id].stock >= QtyFor(items, id)
    ensures Restored(Placed(m, items), items)[id].stock == m[id].stock
    ensures Referenced(items, id) ==>
      Restored(Placed(m, items), items)[id].totalSales == Some(OrZero(m[id].totalSales) + QtyFor(items, id))
  {
    RestoredProduct(Placed(m, items), items, id);
    if Referenced(items, id) {
      PlacedProduct(m, items, id);
    } else {
      PlacedUntouched(m, items, id);
    }
  }

  // ---------------------------------------------------------------------------
  // POST /orders
  // ---------------------------------------------------------------------------

  predicate HasItems(req: OrderRequest) {
    req.orderItems.Some? && req.orderItems.value != []
  }

  /** How many line items the stock loop gets through when the update of item `failAt` throws. */
  function Reached(n: nat, failAt: Option<nat>): (r: nat)
    ensures r <= n
    ensures r < n <==> failAt.Some? && failAt.value < n
  {
    if failAt.Some? && failAt.value < n then failAt.value else n
  }

  /**
   * createOrder. The order number, the identifier the store assigns, the clock and the point
   * (if any) where a stock update throws are parameters.
   */
  method CreateOrder(db: Database, user: Option<Id>, req: OrderRequest,
                     orderId: Id, orderNumber: string, now: int, failAt: Option<nat>)
    returns (res: Response)
    requires db.Valid()
    requires orderId !in db.orders
    modifies db
    ensures db.Valid()
    ensures !HasItems(req) ==>
      res == Response(400, false, "No order items", None) && unchanged(db)
    ensures HasItems(req) ==>
      var items := req.orderItems.value;
      && orderId in db.orders
      && db.orders == old(db.orders)[orderId := db.orders[orderId]]
      && db.log == old(db.log) + [orderId]
      && db.catalog == old(db.catalog)
      && db.orders[orderId] == Order(orderId, orderNumber, user, items, req.shippingAddress,
           req.paymentMethod, req.paymentResult, req.itemsPrice, req.taxPrice,
           req.shippingPrice, req.totalPrice, true, Some(now), Pending, false, None, None, now)
      && db.products == Placed(old(db.products), items[..Reached(|items|, failAt)])
      && res == if Reached(|items|, failAt) < |items|
                then Response(500, false, "Failed to create order", None)
                else Response(201, true, "Order created successfully", Some(db.orders[orderId]))
  {
    if req.orderItems.None? || req.orderItems.value == [] {
      return Response(400, false, "No order items", None);
    }
    var items := req.orderItems.value;
    var order := Order(orderId, orderNumber, user, items, req.shippingAddress,
      req.paymentMethod, req.paymentResult, req.itemsPrice, req.taxPrice,
      req.shippingPrice, req.totalPrice, true, Some(now), Pending, false, None, None, now);
    // The order is persisted before any stock is touched.
    IndexedAdd(db.orders, db.log, OrderId, order);
    db.orders := db.orders[orderId := order];
    db.log := db.log + [orderId];
    ghost var products0 := db.products;
    var failed := PlaceStock(db, items, failAt);
    PlacedCounters(products0, items[..Reached(|items|, failAt)]);
    IndexedKept(products0, db.products, db.catalog, ProductId);
    res := if failed then Response(500, false, "Failed to create order", None)
           else Response(201, true, "Order created successfully", Some(order));
  }

  /**
   * The stock loop of createOrder: each line item whose product exists loses its quantity
   * (clamped at zero) and gains it as sales, one save at a time; the save of item `failAt`
   * throws and ends the loop.
   */
  method PlaceStock(db: Database, items: seq<OrderItem>, failAt: Option<nat>) returns (failed: bool)
    modifies db
    ensures db.orders == old(db.orders) && db.log == old(db.log) && db.catalog == old(db.catalog)
    ensures failed <==> Reached(|items|, failAt) < |items|
    ensures db.products == Placed(old(db.products), items[..Reached(|items|, failAt)])
  {
    var i := 0;
    while i < |items| && failAt != Some(i)
      invariant 0 <= i <= |items|
      invariant db.orders == old(db.orders) && db.log == old(db.log) && db.catalog == old(db.catalog)
      invariant failAt.Some? ==> i <= failAt.value
      invariant db.products == Placed(old(db.products), items[..i])
    {
      var item := items[i];
      PlacedStep(old(db.products), items, i);
      if item.product in db.products {
        db.products := db.products[item.product := Sold(db.products[item.product], item.quantity)];
      }
      i := i + 1;
    }
    // A throwing save ends the loop early.
    failed := i < |items|;
    assert !failed ==> items[..i] == items;
  }

  // ---------------------------------------------------------------------------
  // PUT /orders/:id/status and PUT /orders/:id/cancel
  // ---------------------------------------------------------------------------

  /**
   * Any requested status is stored; only 'delivered' also records the delivery. When the save
   * throws (`saveFails`), the stored order keeps its old state and the reply is a 500.
   */
  method UpdateOrderStatus(db: Database, id: Id, status: string, now: int, saveFails: bool) returns (res: Response)
    requires db.Valid()
    modifies db
    ensures db.Valid()
    ensures db.products == old(db.products) && db.catalog == old(db.catalog) && db.log == old(db.log)
    ensures id !in old(db.orders) ==> res == NotFound && db.orders == old(db.orders)
    ensures id in old(db.orders) && saveFails ==>
      res == Response(500, false, "Failed to update order", None) && db.orders == old(db.orders)
    ensures id in old(db.orders) && !saveFails ==>
      var o := old(db.orders[id]);
      var updated := if status == Delivered
                     then o.(orderStatus := status, isDelivered := true, deliveredAt := Some(now))
                     else o.(orderStatus := status);
      db.orders == old(db.orders)[id := updated] &&
      res == Response(200, true, "Order status updated", Some(updated))
  {
    if id !in db.orders {
      return NotFound;
    }
    var order := db.orders[id];
    order := order.(orderStatus := status);
    if status == Delivered {
      order := order.(isDelivered := true, deliveredAt := Some(now));
    }
    if saveFails {
      return Response(500, false, "Failed to update order", None);
    }
    IndexedKept(db.orders, db.orders[id := order], db.log, OrderId);
    db.orders := db.orders[id := order];
    res := Response(200, true, "Order status updated", Some(order));
  }

  predicate Cancellable(status: string) {
    status == Pending || status == Processing
  }

  /**
   * cancelOrder: no ownership check; the status guard decides. The order is saved before any
   * stock is restored: when that save throws (`orderSaveFails`) nothing changes and the reply is
   * a 500; when the save of restock item `failAt` throws, the order stays cancelled.
   */
  method CancelOrder(db: Database, id: Id, orderSaveFails: bool, failAt: Option<nat>) returns (res: Response)
    requires db.Valid()
    modifies db
    ensures db.Valid()
    ensures id !in old(db.orders) ==> res == NotFound && unchanged(db)
    ensures id in old(db.orders) && !Cancellable(old(db.orders[id].orderStatus)) ==>
      res == Response(400, false, "Order cannot be cancelled", None) && unchanged(db)
    ensures id in old(db.orders) && Cancellable(old(db.orders[id].orderStatus)) && orderSaveFails ==>
      res == Response(500, false, "Failed to cancel order", None) && unchanged(db)
    ensures id in old(db.orders) && Cancellable(old(db.orders[id].orderStatus)) && !orderSaveFails ==>
      var o := old(db.orders[id]).(orderStatus := Cancelled);
      && db.orders == old(db.orders)[id := o]
      && db.log == old(db.log) && db.catalog == old(db.catalog)
      && db.products == Restored(old(db.products), o.orderItems[..Reached(|o.orderItems|, failAt)])
      && res == if Reached(|o.orderItems|, failAt) < |o.orderItems|
                then Response(500, false, "Failed to cancel order", None)
                else Response(200, true, "Order cancelled", Some(o))
  {
    if id !in db.orders {
      return NotFound;
    }
    var order := db.orders[id];
    if !(order.orderStatus == Pending || order.orderStatus == Processing) {
      return Response(400, false, "Order cannot be cancelled", None);
    }
    order := order.(orderStatus := Cancelled);
    if orderSaveFails {
      return Response(500, false, "Failed to cancel order", None);
    }
    IndexedKept(db.orders, db.orders[id := order], db.log, OrderId);
    db.orders := db.orders[id := order];

    ghost var products0 := db.products;
    var failed := RestoreStock(db, order.orderItems, failAt);
    RestoredStockOnly(products0, order.orderItems[..Reached(|order.orderItems|, failAt)]);
    IndexedKept(products0, db.products, db.catalog, ProductId);
    res := if failed then Response(500, false, "Failed to cancel order", None)
           else Response(200, true, "Order cancelled", Some(order));
  }

  /** The stock loop of cancelOrder: each existing product gets its quantity back, unclamped. */
  method RestoreStock(db: Database, items: seq<OrderItem>, failAt: Option<nat>) returns (failed: bool)
    modifies db
    ensures db.orders == old(db.orders) && db.log == old(db.log) && db.catalog == old(db.catalog)
    ensures failed <==> Reached(|items|, failAt) < |items|
    ensures db.products == Restored(old(db.products), items[..Reached(|items|, failAt)])
  {
    var i := 0;
    while i < |items| && failAt != Some(i)
      invariant 0 <= i <= |items|
      invariant db.orders == old(db.orders) && db.log == old(db.log) && db.catalog == old(db.catalog)
      invariant failAt.Some? ==> i <= failAt.value
      invariant db.products == Restored(old(db.products), items[..i])
    {
      var item := items[i];
      RestoredStep(old(db.products), items, i);
      if item.product in db.products {
        db.products := db.products[item.product := Restocked(db.products[item.product], item.quantity)];
      }
      i := i + 1;
    }
    // A throwing save ends the loop early.
    failed := i < |items|;
    assert !failed ==> items[..i] == items;
  }

  // ---------------------------------------------------------------------------
  // Reads
  // ---------------------------------------------------------------------------

  /** GET /orders/:id */
  function GetOrder(db: Database, id: Id): (res: Response)
    reads db
    requires db.Valid()
    ensures res.status == 404 <==> id !in db.orders
    ensures res.status == 200 ==> res.data == Some(db.orders[id]) && res.data.value.id == id
  {
    if id in db.orders then Response(200, true, "", Some(db.orders[id])) else NotFound
  }

  /** `findOne({orderNumber})`: the first order in natural order with that number. */
  function FindByNumber(orders: seq<Order>, orderNumber: string): (r: Option<Order>)
    ensures r.Some? ==> r.value in orders && r.value.orderNumber == orderNumber
    ensures r.None? <==> forall i :: 0 <= i < |orders| ==> orders[i].orderNumber != orderNumber
    ensures r.Some? ==> exists i :: FirstWithNumber(orders, orderNumber, i) && orders[i] == r.value
  {
    if orders == [] then None
    else if orders[0].orderNumber == orderNumber then
      assert FirstWithNumber(orders, orderNumber, 0);
      Some(orders[0])
    else
      var rest := FindByNumber(orders[1..], orderNumber);
      if rest.Some? then
        var i :| FirstWithNumber(orders[1..], orderNumber, i) && orders[1..][i] == rest.value;
        assert FirstWithNumber(orders, orderNumber, i + 1);
        rest
      else rest
  }

  /** Position `i` holds the first order carrying `orderNumber`. */
  predicate FirstWithNumber(orders: seq<Order>, orderNumber: string, i: int) {
    && 0 <= i < |orders| && orders[i].orderNumber == orderNumber
    && forall j :: 0 <= j < i ==> orders[j].orderNumber != orderNumber
  }

  /** GET /orders/track/:orderNumber */
  function GetOrderByNumber(db: Database, orderNumber: string): (res: Response)
    reads db
    requires db.Valid()
    ensures res.status == 404 <==> forall id :: id in db.orders ==> db.orders[id].orderNumber != orderNumber
    ensures res.status == 200 ==> res.data.Some? && res.data.value.orderNumber == orderNumber
    ensures res.status == 200 ==>
      exists i :: FirstWithNumber(db.OrderDocs(), orderNumber, i) && res.data == Some(db.orders[db.log[i]])
  {
    var docs := db.OrderDocs();
    var found := FindByNumber(docs, orderNumber);
    assert (forall i :: 0 <= i < |docs| ==> docs[i].orderNumber != orderNumber) <==>
           (forall id :: id in db.orders ==> db.orders[id].orderNumber != orderNumber) by {
      if exists id :: id in db.orders && db.orders[id].orderNumber == orderNumber {
        var id :| id in db.orders && db.orders[id].orderNumber == orderNumber;
        var i :| 0 <= i < |db.log| && db.log[i] == id;
        assert docs[i].orderNumber == orderNumber;
      }
    }
    if found.Some? then Response(200, true, "", found) else NotFound
  }

  function NewerFirst(): (Order, Order) -> bool {
    (a: Order, b: Order) => a.createdAt > b.createdAt
  }


  /** GET /orders/myorders: the user's orders, newest first. */
  function MyOrders(orders: seq<Order>, user: Id): (r: seq<Order>)
    ensures multiset(r) == multiset(Filter(orders, (o: Order) => o.user == Some(user)))
    ensures SortedBy(r, NewerFirst())
  {
    var mine := Filter(orders, (o: Order) => o.user == Some(user));
    SortBySorted(mine, NewerFirst());
    SortBy(mine, NewerFirst())
  }

  /** GET /orders/admin/all: every order, newest first. */
  function AllOrders(orders: seq<Order>): (r: seq<Order>)
    ensures multiset(r) == multiset(orders)
    ensures SortedBy(r, NewerFirst())
  {
    SortBySorted(orders, NewerFirst());
    SortBy(orders, NewerFirst())
  }

  // ---------------------------------------------------------------------------
  // GET /orders/admin/stats
  // ---------------------------------------------------------------------------

  datatype OrderStats = OrderStats(totalOrders: nat, pendingOrders: nat, deliveredOrders: nat, totalRevenue: real)

  predicate IsPaidFor(o: Order) {
    o.paymentStatus == Some("paid")
  }

  /** Σ totalPrice over the orders whose paymentStatus is 'paid'. */
  function PaidSum(orders: seq<Order>): real {
    if orders == [] then 0.0
    else PaidSum(orders[..|orders| - 1])
         + (if IsPaidFor(orders[|orders| - 1]) then orders[|orders| - 1].totalPrice else 0.0)
  }

  /** The `$match`/`$group` pipeline: no group at all when nothing matches. */
  function RevenueGroups(orders: seq<Order>): (r: seq<real>)
    ensures |r| <= 1
  {
    if exists i :: 0 <= i < |orders| && IsPaidFor(orders[i]) then [PaidSum(orders)] else []
  }

  function Stats(orders: seq<Order>): OrderStats {
    var groups := RevenueGroups(orders);
    OrderStats(
      |orders|,
      Count(orders, (o: Order) => o.orderStatus == Pending),
      Count(orders, (o: Order) => o.orderStatus == Delivered),
      if |groups| > 0 && groups[0] != 0.0 then groups[0] else 0.0)
  }

  function GetOrderStats(db: Database): OrderStats
    reads db
    requires db.Valid()
  {
    Stats(db.OrderDocs())
  }

  lemma {:induction false} PaidSumOfUnpaid(orders: seq<Order>)
    requires forall i :: 0 <= i < |orders| ==> !IsPaidFor(orders[i])
    ensures PaidSum(orders) == 0.0
  {
    if orders != [] {
      PaidSumOfUnpaid(orders[..|orders| - 1]);
    }
  }

  lemma {:induction false} PaidSumNonNegative(orders: seq<Order>)
    requires forall i :: 0 <= i < |orders| ==> orders[i].totalPrice >= 0.0
    ensures PaidSum(orders) >= 0.0
  {
    if orders != [] {
      PaidSumNonNegative(orders[..|orders| - 1]);
    }
  }

  /**
   * The reported revenue is exactly the sum of the paid orders' totals: the `|| 0` fallback
   * only ever replaces a missing group or a zero sum by zero.
   */
  lemma StatsRevenue(orders: seq<Order>)
    ensures Stats(orders).totalRevenue == PaidSum(orders)
  {
    if !exists i :: 0 <= i < |orders| && IsPaidFor(orders[i]) {
      PaidSumOfUnpaid(orders);
    }
  }

  /** The per-status counts never exceed the number of orders, so they are a partition of part of it. */
  lemma StatsCountsBounded(orders: seq<Order>)
    ensures Stats(orders).pendingOrders + Stats(orders).deliveredOrders <= Stats(orders).totalOrders
  {
    PendingDeliveredDisjoint(orders);
  }

  lemma {:induction false} PendingDeliveredDisjoint(orders: seq<Order>)
    ensures Count(orders, (o: Order) => o.orderStatus == Pending)
          + Count(orders, (o: Order) => o.orderStatus == Delivered) <= |orders|
  {
    if orders != [] {
      PendingDeliveredDisjoint(orders[1..]);
    }
  }
}
