/**
 * The checkout page: input formatting for the card fields, the shipping and payment
 * validators, the price formula, the order request it sends, and the three-step flow
 * (shipping, payment, confirmation).
 */
module Checkout {
  import opened Common
  import opened Schema
  import opened Sorting
  import opened CartContext

  // ---------------------------------------------------------------------------
  // Card number: `value.replace(/\s/g, '').replace(/(\d{4})/g, '$1 ').trim()`
  // ---------------------------------------------------------------------------

  /** The global replace: scanning left to right, every run of four digits gets a space after it. */
  function GroupDigits(s: string): string {
    if |s| >= 4 && AllDigits(s[..4]) then s[..4] + " " + GroupDigits(s[4..])
    else if s == [] then []
    else [s[0]] + GroupDigits(s[1..])
  }

  function FormatCardNumber(s: string): string {
    Trim(GroupDigits(StripSpaces(s)))
  }

  lemma {:induction false} GroupDigitsContent(s: string)
    ensures StripSpaces(GroupDigits(s)) == StripSpaces(s)
  {
    if |s| >= 4 && AllDigits(s[..4]) {
      GroupDigitsContent(s[4..]);
      StripSpacesAppend(s[..4] + " ", GroupDigits(s[4..]));
      StripSpacesAppend(s[..4], " ");
      StripSpacesAppend(s[..4], s[4..]);
      assert s == s[..4] + s[4..];
    } else if s != [] {
      GroupDigitsContent(s[1..]);
      StripSpacesAppend([s[0]], GroupDigits(s[1..]));
      StripSpacesAppend([s[0]], s[1..]);
      assert s == [s[0]] + s[1..];
    }
  }

  /** Formatting only moves white space: the characters that are not white space are kept, in order. */
  lemma FormatCardContent(s: string)
    ensures StripSpaces(FormatCardNumber(s)) == StripSpaces(s)
  {
    var u := StripSpaces(s);
    TrimKeepsContent(GroupDigits(u));
    GroupDigitsContent(u);
    StripSpacesOfNoSpace(u);
  }

  /** Reformatting a formatted card number changes nothing, so every keystroke sees a stable value. */
  lemma FormatCardIdempotent(s: string)
    ensures FormatCardNumber(FormatCardNumber(s)) == FormatCardNumber(s)
  {
    FormatCardContent(s);
  }

  lemma {:induction false} GroupShort(s: string)
    requires |s| < 4
    ensures GroupDigits(s) == s
  {
    if s != [] {
      GroupShort(s[1..]);
      assert s == [s[0]] + s[1..];
    }
  }

  lemma GroupStep(s: string)
    requires |s| >= 4 && AllDigits(s)
    ensures GroupDigits(s) == s[..4] + " " + GroupDigits(s[4..])
  {
    assert AllDigits(s[..4]);
  }

  /** A fifteen-digit number comes out in four groups, the last one of three digits. */
  lemma FormatFifteenDigits(d: string)
    requires |d| == 15 && AllDigits(d)
    ensures FormatCardNumber(d) == d[..4] + " " + d[4..8] + " " + d[8..12] + " " + d[12..]
  {
    StripSpacesOfNoSpace(d);
    var a, b, c := d[4..], d[8..], d[12..];
    GroupStep(d);
    GroupStep(a);
    GroupStep(b);
    GroupShort(c);
    assert a[..4] == d[4..8] && a[4..] == b;
    assert b[..4] == d[8..12] && b[4..] == c;
    var g := d[..4] + " " + d[4..8] + " " + d[8..12] + " " + c;
    assert GroupDigits(d) == g;
    assert g[0] == d[0] && g[|g| - 1] == d[14];
  }

  // ---------------------------------------------------------------------------
  // Expiry: `value.replace(/\D/g, '').replace(/(\d{2})(\d{0,2})/, '$1/$2').substr(0, 5)`
  // ---------------------------------------------------------------------------

  /** The first match of `(\d{2})(\d{0,2})` in a digit string starts at 0; a slash goes after two digits. */
  function ExpirySlash(d: string): string {
    if |d| >= 2 then d[..2] + "/" + d[2..] else d
  }

  /** `substr(0, n)` */
  function Prefix(s: string, n: nat): (r: string)
    ensures |r| == Min(n, |s|) && r == s[..|r|]
  {
    s[..Min(n, |s|)]
  }

  function FormatExpiry(s: string): string {
    Prefix(ExpirySlash(DigitsOf(s)), 5)
  }

  /**
   * The expiry field holds at most five characters: with two or more digits typed, the first two,
   * a slash and up to two more; otherwise the digits alone.
   */
  lemma FormatExpiryShape(s: string)
    ensures |FormatExpiry(s)| <= 5
    ensures var d := DigitsOf(s);
      if |d| >= 2 then FormatExpiry(s) == d[..2] + "/" + d[2..Min(4, |d|)] else FormatExpiry(s) == d
  {
    var d := DigitsOf(s);
    if |d| >= 2 {
      var x := d[..2] + "/" + d[2..];
      assert x[..Min(5, |x|)] == d[..2] + "/" + d[2..Min(4, |d|)];
    }
  }

  lemma FormatExpiryIdempotent(s: string)
    ensures FormatExpiry(FormatExpiry(s)) == FormatExpiry(s)
  {
    var d := DigitsOf(s);
    var r := FormatExpiry(s);
    FormatExpiryShape(s);
    if |d| >= 2 {
      var k := Min(4, |d|);
      DigitsOfAppend(d[..2] + "/", d[2..k]);
      DigitsOfAppend(d[..2], "/");
      assert DigitsOf("/") == [];
      DigitsOfAllDigits(d[..2]);
      DigitsOfAllDigits(d[2..k]);
      assert DigitsOf(r) == d[..2] + d[2..k];
      assert d[..2] + d[2..k] == d[..k];
      FormatExpiryShape(r);
    } else {
      DigitsOfAllDigits(d);
    }
  }

  // ---------------------------------------------------------------------------
  // Validators
  // ---------------------------------------------------------------------------

  /** `val.trim() !== ''` */
  predicate Filled(v: string) {
    !IsBlank(v)
  }

  /** `Object.values(shippingInfo).every(val => val.trim() !== '')` over the eight address fields. */
  predicate ValidateShipping(a: ShippingAddress) {
    && Filled(a.fullName) && Filled(a.email) && Filled(a.phone) && Filled(a.address)
    && Filled(a.city) && Filled(a.state) && Filled(a.zipCode) && Filled(a.country)
  }

  predicate HasText(s: string) {
    !AllSpace(s)
  }

  /** A field passes the check exactly when it holds a character that is not white space. */
  lemma FilledIff(v: string)
    ensures Filled(v) <==> HasText(v)
  {
    BlankIffAllSpace(v);
  }

  /** The shipping form is accepted exactly when each of its eight fields holds a non-space character. */
  lemma ValidateShippingIff(a: ShippingAddress)
    ensures ValidateShipping(a) <==>
      && HasText(a.fullName) && HasText(a.email) && HasText(a.phone) && HasText(a.address)
      && HasText(a.city) && HasText(a.state) && HasText(a.zipCode) && HasText(a.country)
  {
    FilledIff(a.fullName);
    FilledIff(a.email);
    FilledIff(a.phone);
    FilledIff(a.address);
    FilledIff(a.city);
    FilledIff(a.state);
    FilledIff(a.zipCode);
    FilledIff(a.country);
  }

  /**
   * The payment form state. `upiId` is not part of the initial state: it is None until the UPI
   * field has been typed in.
   */
  datatype PaymentInfo = PaymentInfo(
    cardNumber: string, cardName: string, expiryDate: string, cvv: string, upiId: Option<string>)

  /** `Object.values(paymentInfo).every(...)`: the four card fields, and the UPI id once it exists. */
  predicate PaymentFilled(info: PaymentInfo) {
    && Filled(info.cardNumber) && Filled(info.cardName) && Filled(info.expiryDate) && Filled(info.cvv)
    && (info.upiId.Some? ==> Filled(info.upiId.value))
  }

  /** A validator's outcome, including the exception the code can raise. */
  datatype Check = Holds(ok: bool) | ThrowsTypeError

  /** validatePayment as written: `paymentInfo.upiId.trim()` on a field that was never typed throws. */
  function ValidatePaymentAsWritten(choice: string, info: PaymentInfo): (r: Check)
    ensures r.ThrowsTypeError? <==> choice == "upi" && info.upiId.None?
  {
    if choice == "" then Holds(false)
    else if choice == "cod" then Holds(true)
    else if choice == "upi" then
      if info.upiId.None? then ThrowsTypeError else Holds(Filled(info.upiId.value))
    else if choice == "card" then Holds(PaymentFilled(info))
    else Holds(false)
  }

  /**
   * validatePayment with an untouched UPI field treated as empty: it accepts exactly when the
   * written validator returns true, so a throw and a refusal both leave the order unsent.
   */
  function ValidatePayment(choice: string, info: PaymentInfo): (r: bool)
    ensures r <==> ValidatePaymentAsWritten(choice, info) == Holds(true)
  {
    if choice == "" then false
    else if choice == "cod" then true
    else if choice == "upi" then info.upiId.Some? && Filled(info.upiId.value)
    else if choice == "card" then PaymentFilled(info)
    else false
  }

  const InitialPayment := PaymentInfo("", "", "", "", None)

  /** Choosing UPI and placing the order without touching the UPI field throws instead of refusing. */
  lemma UpiUntouchedThrows()
    ensures ValidatePaymentAsWritten("upi", InitialPayment) == ThrowsTypeError
    ensures !ValidatePayment("upi", InitialPayment)
  {
  }

  /**
   * Where the written validator returns, the corrected one returns the same; the only difference
   * is the throwing case. Cash on delivery needs nothing, UPI a non-blank id, a card every
   * payment field non-blank (a typed-in UPI id included), and any other choice is refused.
   */
  lemma ValidatePaymentAgrees(choice: string, info: PaymentInfo)
    ensures ValidatePaymentAsWritten(choice, info).Holds? ==>
      ValidatePaymentAsWritten(choice, info).ok == ValidatePayment(choice, info)
    ensures ValidatePayment(choice, info) ==> choice == "cod" || choice == "upi" || choice == "card"
    ensures choice == "cod" ==> ValidatePayment(choice, info)
    ensures choice == "upi" ==> (ValidatePayment(choice, info) <==> info.upiId.Some? && HasText(info.upiId.value))
    ensures choice == "card" ==> (ValidatePayment(choice, info) <==>
      && HasText(info.cardNumber) && HasText(info.cardName) && HasText(info.expiryDate) && HasText(info.cvv)
      && (info.upiId.Some? ==> HasText(info.upiId.value)))
  {
    FilledIff(info.cardNumber);
    FilledIff(info.cardName);
    FilledIff(info.expiryDate);
    FilledIff(info.cvv);
    if info.upiId.Some? {
      FilledIff(info.upiId.value);
    }
  }

  // ---------------------------------------------------------------------------
  // The order request
  // ---------------------------------------------------------------------------

  /** `cardNumber.slice(-4)` as written: the last four characters of the formatted field. */
  function CardLastFourAsWritten(cardNumber: string): (r: string)
    ensures |r| == Min(4, |cardNumber|) && r == cardNumber[|cardNumber| - |r|..]
  {
    TakeLast(cardNumber, 4)
  }

  /** A sixteen-digit number comes out in four groups of four, with no trailing space. */
  lemma FormatSixteenDigits(d: string)
    requires |d| == 16 && AllDigits(d)
    ensures FormatCardNumber(d) == d[..4] + " " + d[4..8] + " " + d[8..12] + " " + d[12..]
  {
    StripSpacesOfNoSpace(d);
    var a, b, c := d[4..], d[8..], d[12..];
    GroupStep(d);
    GroupStep(a);
    GroupStep(b);
    GroupStep(c);
    GroupShort(c[4..]);
    assert a[..4] == d[4..8] && a[4..] == b;
    assert b[..4] == d[8..12] && b[4..] == c;
    assert c[..4] == c && c[4..] == [];
    var t := d[..4] + " " + d[4..8] + " " + d[8..12] + " " + c;
    var g := t + " ";
    assert GroupDigits(d) == g;
    assert g[0] == d[0] && g[|g| - 1] == ' ' && g[..|g| - 1] == t;
    assert t[0] == d[0] && t[|t| - 1] == d[15];
    assert TrimStart(g) == g;
    assert TrimEnd(t) == t;
  }

  /** For the common sixteen-digit card the written rule does store the last four digits. */
  lemma CardLastFourAsWrittenSixteen(d: string)
    requires |d| == 16 && AllDigits(d)
    ensures CardLastFourAsWritten(FormatCardNumber(d)) == d[12..] == TakeLast(d, 4)
  {
    FormatSixteenDigits(d);
  }

  /** A fifteen-digit card number is stored with a space and only three of its digits. */
  lemma CardLastFourAsWrittenFifteen(d: string)
    requires |d| == 15 && AllDigits(d)
    ensures CardLastFourAsWritten(FormatCardNumber(d)) == " " + d[12..]
    ensures CardLastFourAsWritten(FormatCardNumber(d)) != TakeLast(d, 4)
  {
    FormatFifteenDigits(d);
    var r := CardLastFourAsWritten(FormatCardNumber(d));
    assert r[0] == ' ' && TakeLast(d, 4)[0] == d[11] && IsDigit(d[11]);
  }

  /** The last four digits of the number, whatever the grouping. */
  function CardLastFour(cardNumber: string): (r: string)
    ensures NoSpace(r) && |r| <= 4
  {
    TakeLast(StripSpaces(cardNumber), 4)
  }

  /** For a formatted field the stored digits are the last four the customer typed. */
  lemma CardLastFourOfFormatted(typed: string)
    ensures CardLastFour(FormatCardNumber(typed)) == TakeLast(StripSpaces(typed), 4)
  {
    FormatCardContent(typed);
  }

  function PaymentLabel(choice: string): (r: string)
    ensures choice == "upi" ==> r == "UPI"
    ensures choice == "card" ==> r == "Credit/Debit Card"
    ensures choice == "cod" ==> r == "Cash on Delivery"
    ensures choice != "upi" && choice != "card" && choice != "cod" ==> r == "Online Payment"
  {
    match choice
    case "upi" => "UPI"
    case "card" => "Credit/Debit Card"
    case "cod" => "Cash on Delivery"
    case _ => "Online Payment"
  }

  /** The card details keep the last four characters of the formatted field, spaces included. */
  function PaymentResultFor(choice: string, info: PaymentInfo): (r: PaymentResult)
    ensures choice == "upi" <==> r.UpiDetails?
    ensures choice == "card" <==> r.CardDetails?
    ensures choice == "cod" <==> r.CodDetails?
    ensures r.UpiDetails? ==> r.upiId == info.upiId
    ensures r.CardDetails? ==> r.cardName == info.cardName
    ensures r.CardDetails? ==> |r.cardLastFour| == Min(4, |info.cardNumber|)
    ensures r.CardDetails? ==> r.cardLastFour == info.cardNumber[|info.cardNumber| - |r.cardLastFour|..]
  {
    match choice
    case "upi" => UpiDetails(info.upiId)
    case "card" => CardDetails(CardLastFourAsWritten(info.cardNumber), info.cardName)
    case "cod" => CodDetails
    case _ => NoDetails
  }

  /**
   * The label and the details agree: the three methods carry three different labels, the
   * fallback label goes with empty details, and an order that passes validation never gets it.
   */
  lemma PaymentLabelMatchesDetails(choice: string, other: string, info: PaymentInfo)
    ensures PaymentLabel(choice) == "Online Payment" <==> PaymentResultFor(choice, info).NoDetails?
    ensures ValidatePayment(choice, info) ==> PaymentLabel(choice) != "Online Payment"
    ensures PaymentLabel(choice) == PaymentLabel(other) && PaymentLabel(choice) != "Online Payment" ==>
      choice == other
  {
  }

  /** `item.images?.[0] || item.image || ''` */
  function ItemImage(p: Product): (r: string)
    ensures r != "" ==> r in p.images || (p.image.Some? && r == p.image.value)
    ensures |p.images| > 0 && p.images[0] != "" ==> r == p.images[0]
    ensures |p.images| == 0 || p.images[0] == "" ==> r == (if p.image.Some? then p.image.value else "")
  {
    if |p.images| > 0 && Truthy(p.images[0]) then p.images[0] else StrOr(p.image, "")
  }

  function ToOrderItem(e: CartEntry): OrderItem {
    OrderItem(e.item.id, e.item.name, e.quantity, e.item.price, ItemImage(e.item))
  }

  /** `cartItems.map(...)`: one order line per cart entry, in cart order. */
  function OrderItemsFor(cart: seq<CartEntry>): (r: seq<OrderItem>)
    ensures |r| == |cart|
    ensures forall i :: 0 <= i < |cart| ==>
      && r[i].product == cart[i].item.id && r[i].name == cart[i].item.name
      && r[i].quantity == cart[i].quantity && r[i].price == cart[i].item.price
      && r[i].image == ItemImage(cart[i].item)
  {
    seq(|cart|, i requires 0 <= i < |cart| => ToOrderItem(cart[i]))
  }

  function Tax(subtotal: real): real {
    subtotal * 0.1
  }

  function ShippingCost(subtotal: real): real {
    if subtotal > 50.0 then 0.0 else 9.99
  }

  function Total(subtotal: real): real {
    subtotal + Tax(subtotal) + ShippingCost(subtotal)
  }

  /** Shipping is free exactly above 50; the total is the subtotal plus ten percent plus shipping. */
  lemma PricingFacts(subtotal: real)
    ensures ShippingCost(subtotal) == 0.0 <==> subtotal > 50.0
    ensures Total(subtotal) == subtotal * 1.1 + ShippingCost(subtotal)
    ensures subtotal >= 0.0 ==> Total(subtotal) >= subtotal
  {
  }

  /**
   * The request carries the cart's lines and the form as entered; it is priced from the cart
   * subtotal, and the total is the sum of the three price parts.
   */
  function OrderData(cart: seq<CartEntry>, shipping: ShippingAddress, choice: string, info: PaymentInfo): (r: OrderRequest)
    ensures r.orderItems == Some(OrderItemsFor(cart)) && r.shippingAddress == shipping
    ensures r.paymentMethod == PaymentLabel(choice) && r.paymentResult == PaymentResultFor(choice, info)
    ensures r.itemsPrice == CartTotalOf(cart)
    ensures r.taxPrice == r.itemsPrice * 0.1
    ensures r.itemsPrice > 50.0 ==> r.shippingPrice == 0.0
    ensures !(r.itemsPrice > 50.0) ==> r.shippingPrice == 9.99
    ensures r.totalPrice == r.itemsPrice + r.taxPrice + r.shippingPrice
  {
    var subtotal := CartTotalOf(cart);
    OrderRequest(Some(OrderItemsFor(cart)), shipping, PaymentLabel(choice), PaymentResultFor(choice, info),
      subtotal, Tax(subtotal), ShippingCost(subtotal), Total(subtotal))
  }

  /** The request passes the server's item check exactly when the cart is not empty. */
  lemma OrderDataHasItems(cart: seq<CartEntry>, shipping: ShippingAddress, choice: string, info: PaymentInfo)
    ensures OrderData(cart, shipping, choice, info).orderItems.Some?
    ensures OrderData(cart, shipping, choice, info).orderItems.value != [] <==> cart != []
  {
  }

  // ---------------------------------------------------------------------------
  // The page
  // ---------------------------------------------------------------------------

  datatype ShippingField = FullName | Email | Phone | Address | City | State | ZipCode | Country
  datatype PaymentField = UpiId | CardNumber | CardName | ExpiryDate | Cvv

  function WithShippingField(a: ShippingAddress, f: ShippingField, v: string): ShippingAddress {
    match f
    case FullName => a.(fullName := v)
    case Email => a.(email := v)
    case Phone => a.(phone := v)
    case Address => a.(address := v)
    case City => a.(city := v)
    case State => a.(state := v)
    case ZipCode => a.(zipCode := v)
    case Country => a.(country := v)
  }

  /** handlePaymentChange: the card number and the expiry are formatted, other fields kept as typed. */
  function WithPaymentField(info: PaymentInfo, f: PaymentField, v: string): (r: PaymentInfo)
    ensures f == CardNumber ==> r == info.(cardNumber := FormatCardNumber(v))
    ensures f == ExpiryDate ==> r == info.(expiryDate := FormatExpiry(v))
    ensures f == UpiId ==> r == info.(upiId := Some(v))
    ensures f == CardName ==> r == info.(cardName := v)
    ensures f == Cvv ==> r == info.(cvv := v)
  {
    match f
    case UpiId => info.(upiId := Some(v))
    case CardNumber => info.(cardNumber := FormatCardNumber(v))
    case CardName => info.(cardName := v)
    case ExpiryDate => info.(expiryDate := FormatExpiry(v))
    case Cvv => info.(cvv := v)
  }

  /** What the create-order call gives back: a JSON envelope, or an exception. */
  datatype ApiResult = Answered(success: bool, orderNumber: string) | Threw

  class CheckoutPage {
    var step: int
    var paymentMethod: string
    var shipping: ShippingAddress
    var payment: PaymentInfo
    var orderPlaced: bool
    var orderNumber: string
    var finalTotal: real

    /** The page is on one of its three steps; it is past the first only with a valid address. */
    ghost predicate Valid()
      reads this
    {
      && 1 <= step <= 3
      && (orderPlaced <==> step == 3)
      && (step >= 2 ==> ValidateShipping(shipping))
    }

    /** The address starts from the signed-in user's name and e-mail, with the country preset. */
    constructor (userName: Option<string>, userEmail: Option<string>)
      ensures Valid() && step == 1 && paymentMethod == "" && payment == InitialPayment
      ensures shipping == ShippingAddress(StrOr(userName, ""), StrOr(userEmail, ""), "", "", "", "", "", "India")
      ensures !orderPlaced && orderNumber == "" && finalTotal == 0.0
    {
      step := 1;
      paymentMethod := "";
      shipping := ShippingAddress(StrOr(userName, ""), StrOr(userEmail, ""), "", "", "", "", "", "India");
      payment := InitialPayment;
      orderPlaced := false;
      orderNumber := "";
      finalTotal := 0.0;
    }

    /** The shipping form is on screen only in step 1. */
    method ChangeShipping(f: ShippingField, v: string)
      requires Valid() && step == 1
      modifies this
      ensures Valid() && shipping == WithShippingField(old(shipping), f, v)
      ensures step == old(step) && payment == old(payment) && paymentMethod == old(paymentMethod)
      ensures orderPlaced == old(orderPlaced) && orderNumber == old(orderNumber) && finalTotal == old(finalTotal)
    {
      shipping := WithShippingField(shipping, f, v);
    }

    method ContinueToPayment()
      requires Valid() && step == 1
      modifies this
      ensures Valid()
      ensures step == if ValidateShipping(old(shipping)) then 2 else 1
      ensures shipping == old(shipping) && payment == old(payment) && paymentMethod == old(paymentMethod)
      ensures orderPlaced == old(orderPlaced) && orderNumber == old(orderNumber) && finalTotal == old(finalTotal)
    {
      if ValidateShipping(shipping) {
        step := 2;
      }
    }

    method BackToShipping()
      requires Valid() && step == 2
      modifies this
      ensures Valid() && step == 1
      ensures shipping == old(shipping) && payment == old(payment) && paymentMethod == old(paymentMethod)
      ensures orderPlaced == old(orderPlaced) && orderNumber == old(orderNumber) && finalTotal == old(finalTotal)
    {
      step := 1;
    }

    method SelectPaymentMethod(m: string)
      requires Valid() && step == 2
      modifies this
      ensures Valid() && paymentMethod == m
      ensures step == old(step) && shipping == old(shipping) && payment == old(payment)
      ensures orderPlaced == old(orderPlaced) && orderNumber == old(orderNumber) && finalTotal == old(finalTotal)
    {
      paymentMethod := m;
    }

    method ChangePayment(f: PaymentField, v: string)
      requires Valid() && step == 2
      modifies this
      ensures Valid() && payment == WithPaymentField(old(payment), f, v)
      ensures step == old(step) && shipping == old(shipping) && paymentMethod == old(paymentMethod)
      ensures orderPlaced == old(orderPlaced) && orderNumber == old(orderNumber) && finalTotal == old(finalTotal)
    {
      payment := WithPaymentField(payment, f, v);
    }

    /**
     * handlePlaceOrder. The request is sent only for a signed-in user with valid payment details;
     * the page moves to the confirmation step only when the server reports success.
     */
    method PlaceOrder(signedIn: bool, cart: seq<CartEntry>, response: ApiResult) returns (sent: Option<OrderRequest>)
      requires Valid() && step == 2
      modifies this
      ensures Valid()
      ensures sent.Some? <==> signedIn && ValidatePayment(paymentMethod, payment)
      ensures sent.Some? ==> sent.value == OrderData(cart, shipping, paymentMethod, payment)
      ensures shipping == old(shipping) && payment == old(payment) && paymentMethod == old(paymentMethod)
      ensures step == 3 <==> sent.Some? && response.Answered? && response.success
      ensures step == 3 ==> orderNumber == response.orderNumber && finalTotal == Total(CartTotalOf(cart))
      ensures step != 3 ==> step == 2 && orderNumber == old(orderNumber) && finalTotal == old(finalTotal)
    {
      var ok := ValidatePayment(paymentMethod, payment);
      if !signedIn || !ok {
        return None;
      }
      var data := OrderData(cart, shipping, paymentMethod, payment);
      sent := Some(data);
      if response.Answered? && response.success {
        orderNumber := response.orderNumber;
        finalTotal := data.totalPrice;
        orderPlaced := true;
        step := 3;
      }
    }
  }
}
