/**
 * The documents the shop stores and exchanges: products, orders and their line items.
 * The same records travel to the client as JSON, so the pages use them too.
 */
module Schema {
  import opened Common

  /** A document identifier (an ObjectId in its string form). */
  type Id = string

  datatype Product = Product(
    id: Id,
    name: string,
    description: string,
    price: real,
    originalPrice: Option<real>,
    category: string,
    stock: int,
    totalSales: Option<int>,
    rating: Option<real>,
    numReviews: Option<int>,
    isActive: bool,
    isFeatured: bool,
    createdAt: int,
    images: seq<string>,      // a missing `images` array is the empty sequence
    image: Option<string>,
    imageUrl: Option<string>)

  /** One line of an order: a product reference and snapshots taken when the order was placed. */
  datatype OrderItem = OrderItem(product: Id, name: string, quantity: int, price: real, image: string)

  datatype ShippingAddress = ShippingAddress(
    fullName: string,
    email: string,
    phone: string,
    address: string,
    city: string,
    state: string,
    zipCode: string,
    country: string)

  /** The method-specific payment details the checkout page sends. */
  datatype PaymentResult =
    | NoDetails                                     // `{}`
    | UpiDetails(upiId: Option<string>)
    | CardDetails(cardLastFour: string, cardName: string)
    | CodDetails                                    // `{ cod: true }`

  /** The body of a POST to the orders endpoint; `orderItems` is None when missing or null. */
  datatype OrderRequest = OrderRequest(
    orderItems: Option<seq<OrderItem>>,
    shippingAddress: ShippingAddress,
    paymentMethod: string,
    paymentResult: PaymentResult,
    itemsPrice: real,
    taxPrice: real,
    shippingPrice: real,
    totalPrice: real)

  datatype Order = Order(
    id: Id,
    orderNumber: string,
    user: Option<Id>,
    orderItems: seq<OrderItem>,
    shippingAddress: ShippingAddress,
    paymentMethod: string,
    paymentResult: PaymentResult,
    itemsPrice: real,
    taxPrice: real,
    shippingPrice: real,
    totalPrice: real,
    isPaid: bool,
    paidAt: Option<int>,
    orderStatus: string,
    isDelivered: bool,
    deliveredAt: Option<int>,
    paymentStatus: Option<string>,
    createdAt: int)

  const Pending := "pending"
  const Processing := "processing"
  const Shipped := "shipped"
  const Delivered := "delivered"
  const Cancelled := "cancelled"
}
