/** The profile page's order history: status classes, tolerant field fallbacks and the cancel button. */
module Profile {
  import opened Common
  import opened Schema
  import opened Sorting
  import OrderController

  /**
   * An order as this page reads it: older records may carry `items` instead of `orderItems` and
   * `totalAmount` instead of `totalPrice`, so each may be missing.
   */
  datatype OrderView = OrderView(
    id: string, orderStatus: string,
    orderItems: Option<seq<OrderItem>>, items: Option<seq<OrderItem>>,
    totalPrice: Option<real>, totalAmount: Option<real>)

  function StatusClass(status: string): (r: string)
    ensures status == Pending ==> r == "status-pending"
    ensures status == "confirmed" ==> r == "status-confirmed"
    ensures status == Shipped ==> r == "status-shipped"
    ensures status == Delivered ==> r == "status-delivered"
    ensures status == Cancelled ==> r == "status-cancelled"
    ensures r == "status-default" <==>
      status != Pending && status != "confirmed" && status != Shipped && status != Delivered && status != Cancelled
  {
    if status == Pending then "status-pending"
    else if status == "confirmed" then "status-confirmed"
    else if status == Shipped then "status-shipped"
    else if status == Delivered then "status-delivered"
    else if status == Cancelled then "status-cancelled"
    else "status-default"
  }

  /** `order.orderItems || order.items || []`: an array, even an empty one, is truthy. */
  function OrderItemsOf(o: OrderView): (r: seq<OrderItem>)
    ensures o.orderItems.Some? ==> r == o.orderItems.value
    ensures o.orderItems.None? && o.items.Some? ==> r == o.items.value
    ensures r == [] <==>
      || (o.orderItems.Some? && o.orderItems.value == [])
      || (o.orderItems.None? && (o.items.None? || o.items.value == []))
  {
    if o.orderItems.Some? then o.orderItems.value
    else if o.items.Some? then o.items.value
    else []
  }

  /** `order._id.slice(-8)` */
  function IdLabel(id: string): (r: string)
    ensures |r| == Min(8, |id|) && r == id[|id| - |r|..]
  {
    TakeLast(id, 8)
  }

  /** `order.totalPrice || order.totalAmount || 0`: a zero total is falsy and falls through. */
  function TotalShown(o: OrderView): (r: real)
    ensures o.totalPrice.Some? && o.totalPrice.value != 0.0 ==> r == o.totalPrice.value
    ensures RealOrZero(o.totalPrice) == 0.0 && o.totalAmount.Some? ==> r == o.totalAmount.value
    ensures r == 0.0 <==> RealOrZero(o.totalPrice) == 0.0 && RealOrZero(o.totalAmount) == 0.0
  {
    if o.totalPrice.Some? && o.totalPrice.value != 0.0 then o.totalPrice.value
    else if o.totalAmount.Some? && o.totalAmount.value != 0.0 then o.totalAmount.value
    else 0.0
  }

  /** The Cancel button as written: shown for 'pending' and 'confirmed'. */
  predicate CancelVisibleAsWritten(status: string) {
    status == Pending || status == "confirmed"
  }

  /**
   * As written the button is missing on a 'processing' order, which the server would cancel, and
   * shown on 'confirmed', a status the admin page can set but the server refuses to cancel.
   */
  lemma CancelButtonMismatch()
    ensures OrderController.Cancellable(Processing) && !CancelVisibleAsWritten(Processing)
    ensures CancelVisibleAsWritten("confirmed") && !OrderController.Cancellable("confirmed")
  {
  }

  /** The Cancel button shown exactly for the statuses the server accepts a cancellation from. */
  predicate CancelVisible(status: string) {
    status == Pending || status == Processing
  }

  lemma CancelVisibleMatchesServer(status: string)
    ensures CancelVisible(status) <==> OrderController.Cancellable(status)
    ensures CancelVisible(status) ==> status != Shipped && status != Delivered && status != Cancelled
  {
  }
}
