/**
 * The client-side cart and wishlist. The provider owns two lists that every operation
 * replaces with a new value computed from the old one; the lists are reloaded from storage
 * whenever the signed-in user changes.
 */
module CartContext {
  import opened Common
  import opened Schema
  import opened Sorting

  /** `{...product, quantity}`: the product as it was when first added, plus a quantity. */
  datatype CartEntry = CartEntry(item: Product, quantity: int)

  /** What `localStorage.getItem` and `JSON.parse` give back for one key. */
  datatype Saved<T> = Missing | Unreadable | Saved(value: T)

  // ---------------------------------------------------------------------------
  // Properties of the two lists
  // ---------------------------------------------------------------------------

  predicate InCart(cart: seq<CartEntry>, id: Id) {
    exists i :: 0 <= i < |cart| && cart[i].item.id == id
  }

  predicate InList(list: seq<Product>, id: Id) {
    exists i :: 0 <= i < |list| && list[i].id == id
  }

  /** No two cart entries share a product id. */
  predicate UniqueIds(cart: seq<CartEntry>) {
    forall i, j :: 0 <= i < j < |cart| ==> cart[i].item.id != cart[j].item.id
  }

  /** Every cart entry has a quantity of at least one. */
  predicate AllPositive(cart: seq<CartEntry>) {
    forall i :: 0 <= i < |cart| ==> cart[i].quantity >= 1
  }

  /** `reduce((count, item) => count + item.quantity, 0)` */
  function CartCountOf(cart: seq<CartEntry>): int {
    if cart == [] then 0 else CartCountOf(cart[..|cart| - 1]) + cart[|cart| - 1].quantity
  }

  /** `reduce((sum, item) => sum + item.price * item.quantity, 0)` */
  function CartTotalOf(cart: seq<CartEntry>): real {
    if cart == [] then 0.0
    else CartTotalOf(cart[..|cart| - 1]) + cart[|cart| - 1].item.price * cart[|cart| - 1].quantity as real
  }

  // ---------------------------------------------------------------------------
  // The new list values
  // ---------------------------------------------------------------------------

  /** `map(item => item._id === id ? {...item, quantity: f(item.quantity)} : item)` */
  function Bumped(cart: seq<CartEntry>, id: Id, delta: int): (r: seq<CartEntry>)
    ensures |r| == |cart|
    ensures forall i :: 0 <= i < |cart| ==>
      r[i] == if cart[i].item.id == id then cart[i].(quantity := cart[i].quantity + delta) else cart[i]
  {
    seq(|cart|, i requires 0 <= i < |cart| =>
      if cart[i].item.id == id then cart[i].(quantity := cart[i].quantity + delta) else cart[i])
  }

  function WithQuantity(cart: seq<CartEntry>, id: Id, quantity: int): (r: seq<CartEntry>)
    ensures |r| == |cart|
    ensures forall i :: 0 <= i < |cart| ==>
      r[i] == if cart[i].item.id == id then cart[i].(quantity := quantity) else cart[i]
  {
    seq(|cart|, i requires 0 <= i < |cart| =>
      if cart[i].item.id == id then cart[i].(quantity := quantity) else cart[i])
  }

  /** `filter(item => item._id !== id)` */
  function RemovedFrom(cart: seq<CartEntry>, id: Id): (r: seq<CartEntry>)
    ensures !InCart(r, id)
  {
    Filter(cart, (e: CartEntry) => e.item.id != id)
  }

  /** The addToCart updater: merge into an existing entry, or append a new one. */
  function Added(cart: seq<CartEntry>, p: Product, quantity: int): seq<CartEntry> {
    if InCart(cart, p.id) then Bumped(cart, p.id, quantity) else cart + [CartEntry(p, quantity)]
  }

  /** The decrementQuantity updater: lower the entry by one, then drop every entry at zero or below. */
  function Decremented(cart: seq<CartEntry>, id: Id): (r: seq<CartEntry>)
    ensures AllPositive(r)
  {
    Filter(Bumped(cart, id, -1), (e: CartEntry) => e.quantity > 0)
  }

  /** The updateQuantity updater. */
  function Updated(cart: seq<CartEntry>, id: Id, quantity: int): seq<CartEntry> {
    if quantity <= 0 then RemovedFrom(cart, id) else WithQuantity(cart, id, quantity)
  }

  function WithoutProduct(list: seq<Product>, id: Id): (r: seq<Product>)
    ensures !InList(r, id)
  {
    Filter(list, (x: Product) => x.id != id)
  }

  /** The addToWishlist updater: remove a listed product, append an unlisted one. */
  function Toggled(list: seq<Product>, p: Product): seq<Product> {
    if InList(list, p.id) then WithoutProduct(list, p.id) else list + [p]
  }

  /** Position `i` holds the first listed product with that id. */
  predicate FirstListed(list: seq<Product>, id: Id, i: int) {
    0 <= i < |list| && list[i].id == id && forall j :: 0 <= j < i ==> list[j].id != id
  }

  /** `wishlist.find(item => item._id === id)`: the first listed product with that id. */
  function FindListed(list: seq<Product>, id: Id): (r: Option<Product>)
    ensures r.Some? <==> InList(list, id)
    ensures r.Some? ==> r.value in list && r.value.id == id
    ensures r.Some? ==> exists i :: FirstListed(list, id, i) && list[i] == r.value
  {
    if list == [] then None
    else if list[0].id == id then
      assert FirstListed(list, id, 0);
      Some(list[0])
    else
      var rest := FindListed(list[1..], id);
      assert InList(list, id) <==> InList(list[1..], id) by {
        if InList(list, id) {
          var i :| 0 <= i < |list| && list[i].id == id;
          assert list[1..][i - 1] == list[i];
        }
        if InList(list[1..], id) {
          var i :| 0 <= i < |list[1..]| && list[1..][i].id == id;
          assert list[i + 1] == list[1..][i];
        }
      }
      if rest.Some? then
        var i :| FirstListed(list[1..], id, i) && list[1..][i] == rest.value;
        assert FirstListed(list, id, i + 1);
        rest
      else rest
  }

  // ---------------------------------------------------------------------------
  // Lemmas about the updaters
  // ---------------------------------------------------------------------------

  lemma {:induction false} FilterKeepsUnique(cart: seq<CartEntry>, keep: CartEntry -> bool)
    requires UniqueIds(cart)
    ensures UniqueIds(Filter(cart, keep))
  {
    if cart != [] {
      FilterKeepsUnique(cart[1..], keep);
      var rest := Filter(cart[1..], keep);
      if keep(cart[0]) {
        forall j | 0 <= j < |rest| ensures rest[j].item.id != cart[0].item.id {
          assert rest[j] in cart[1..];
          var k :| 0 <= k < |cart[1..]| && cart[1..][k] == rest[j];
          assert cart[k + 1] == rest[j];
        }
        assert Filter(cart, keep) == [cart[0]] + rest;
      }
    }
  }

  lemma {:induction false} FilterKeepsPositive(cart: seq<CartEntry>, keep: CartEntry -> bool)
    requires AllPositive(cart)
    ensures AllPositive(Filter(cart, keep))
  {
    forall i | 0 <= i < |Filter(cart, keep)| ensures Filter(cart, keep)[i].quantity >= 1 {
      var e := Filter(cart, keep)[i];
      assert e in cart;
    }
  }

  /** Every updater keeps the cart free of duplicate ids. */
  lemma UpdatersKeepUnique(cart: seq<CartEntry>, p: Product, q: int, id: Id)
    requires UniqueIds(cart)
    ensures UniqueIds(Added(cart, p, q))
    ensures UniqueIds(RemovedFrom(cart, id))
    ensures UniqueIds(Updated(cart, id, q))
    ensures UniqueIds(Bumped(cart, id, 1))
    ensures UniqueIds(Decremented(cart, id))
  {
    FilterKeepsUnique(cart, (e: CartEntry) => e.item.id != id);
    FilterKeepsUnique(Bumped(cart, id, -1), (e: CartEntry) => e.quantity > 0);
    if !InCart(cart, p.id) {
      var r := cart + [CartEntry(p, q)];
      forall i, j | 0 <= i < j < |r| ensures r[i].item.id != r[j].item.id {
        if j == |cart| {
          assert r[i] == cart[i];
        }
      }
    }
  }

  /** If every quantity ever added is at least one, every entry keeps a quantity of at least one. */
  lemma UpdatersKeepPositive(cart: seq<CartEntry>, p: Product, q: int, id: Id)
    requires AllPositive(cart)
    ensures q >= 1 ==> AllPositive(Added(cart, p, q))
    ensures AllPositive(RemovedFrom(cart, id))
    ensures AllPositive(Updated(cart, id, q))
    ensures AllPositive(Bumped(cart, id, 1))
  {
    FilterKeepsPositive(cart, (e: CartEntry) => e.item.id != id);
  }

  /** A merge touches exactly the matching entry; otherwise exactly one entry is appended. */
  lemma AddedShape(cart: seq<CartEntry>, p: Product, q: int)
    ensures InCart(cart, p.id) ==>
      |Added(cart, p, q)| == |cart| &&
      forall i :: 0 <= i < |cart| ==>
        Added(cart, p, q)[i] == if cart[i].item.id == p.id then cart[i].(quantity := cart[i].quantity + q) else cart[i]
    ensures !InCart(cart, p.id) ==> Added(cart, p, q) == cart + [CartEntry(p, q)]
  {
  }

  lemma {:induction false} BumpedCount(cart: seq<CartEntry>, id: Id, delta: int)
    requires UniqueIds(cart)
    ensures CartCountOf(Bumped(cart, id, delta)) == CartCountOf(cart) + (if InCart(cart, id) then delta else 0)
  {
    if cart != [] {
      var prefix := cart[..|cart| - 1];
      var last := cart[|cart| - 1];
      assert Bumped(cart, id, delta)[..|cart| - 1] == Bumped(prefix, id, delta);
      BumpedCount(prefix, id, delta);
      assert InCart(cart, id) <==> InCart(prefix, id) || last.item.id == id by {
        if InCart(cart, id) && last.item.id != id {
          var i :| 0 <= i < |cart| && cart[i].item.id == id;
          assert prefix[i] == cart[i];
        }
        if InCart(prefix, id) {
          var i :| 0 <= i < |prefix| && prefix[i].item.id == id;
          assert cart[i] == prefix[i];
        }
      }
    }
  }

  /** Adding q units raises the cart count by exactly q, merged or not. */
  lemma AddedCount(cart: seq<CartEntry>, p: Product, q: int)
    requires UniqueIds(cart)
    ensures CartCountOf(Added(cart, p, q)) == CartCountOf(cart) + q
  {
    if InCart(cart, p.id) {
      BumpedCount(cart, p.id, q);
    } else {
      assert (cart + [CartEntry(p, q)])[..|cart|] == cart;
    }
  }

  /** A new entry adds its price times its quantity to the total. */
  lemma AddedTotal(cart: seq<CartEntry>, p: Product, q: int)
    requires !InCart(cart, p.id)
    ensures CartTotalOf(Added(cart, p, q)) == CartTotalOf(cart) + p.price * q as real
  {
    assert (cart + [CartEntry(p, q)])[..|cart|] == cart;
  }

  /** Incrementing an id that is not in the cart changes nothing. */
  lemma BumpUnknown(cart: seq<CartEntry>, id: Id, delta: int)
    requires !InCart(cart, id)
    ensures Bumped(cart, id, delta) == cart
  {
  }

  lemma {:induction false} WithoutAbsent(list: seq<Product>, id: Id)
    requires !InList(list, id)
    ensures WithoutProduct(list, id) == list
  {
    FilterAll(list, (x: Product) => x.id != id);
  }

  /** Toggling a product that is not listed appends it, and toggling it again restores the list. */
  lemma ToggleTwice(list: seq<Product>, p: Product)
    requires !InList(list, p.id)
    ensures Toggled(list, p) == list + [p]
    ensures Toggled(Toggled(list, p), p) == list
  {
    var once := list + [p];
    assert once[|list|] == p;
    assert InList(once, p.id);
    FilterAppend(list, [p], (x: Product) => x.id != p.id);
    WithoutAbsent(list, p.id);
  }

  // ---------------------------------------------------------------------------
  // The provider
  // ---------------------------------------------------------------------------

  class CartProvider {
    var user: Option<Id>
    var cartItems: seq<CartEntry>
    var wishlist: seq<Product>

    constructor ()
      ensures user == None && cartItems == [] && wishlist == []
    {
      user, cartItems, wishlist := None, [], [];
    }

    /**
     * The load effect. Signing out empties both lists. Otherwise each list is replaced by
     * what is stored for the user; a missing or unreadable entry leaves the list as it was.
     */
    method SwitchUser(u: Option<Id>, savedCart: Saved<seq<CartEntry>>, savedWishlist: Saved<seq<Product>>)
      modifies this
      ensures user == u
      ensures u.None? ==> cartItems == [] && wishlist == []
      ensures u.Some? ==> cartItems == (if savedCart.Saved? then savedCart.value else old(cartItems))
      ensures u.Some? ==> wishlist == (if savedWishlist.Saved? then savedWishlist.value else old(wishlist))
    {
      user := u;
      if u.None? {
        cartItems, wishlist := [], [];
        return;
      }
      if savedCart.Saved? {
        cartItems := savedCart.value;
      }
      if savedWishlist.Saved? {
        wishlist := savedWishlist.value;
      }
    }

    method AddToCart(p: Product, quantity: int) returns (success: bool)
      modifies this
      ensures success <==> old(user).Some?
      ensures user == old(user) && wishlist == old(wishlist)
      ensures cartItems == if success then Added(old(cartItems), p, quantity) else old(cartItems)
    {
      if user.None? {
        return false;
      }
      cartItems := Added(cartItems, p, quantity);
      return true;
    }

    method RemoveFromCart(id: Id)
      modifies this
      ensures user == old(user) && wishlist == old(wishlist)
      ensures cartItems == RemovedFrom(old(cartItems), id)
    {
      cartItems := RemovedFrom(cartItems, id);
    }

    method UpdateQuantity(id: Id, quantity: int)
      modifies this
      ensures user == old(user) && wishlist == old(wishlist)
      ensures cartItems == Updated(old(cartItems), id, quantity)
    {
      if quantity <= 0 {
        RemoveFromCart(id);
        return;
      }
      cartItems := WithQuantity(cartItems, id, quantity);
    }

    method IncrementQuantity(id: Id)
      modifies this
      ensures user == old(user) && wishlist == old(wishlist)
      ensures cartItems == Bumped(old(cartItems), id, 1)
    {
      cartItems := Bumped(cartItems, id, 1);
    }

    method DecrementQuantity(id: Id)
      modifies this
      ensures user == old(user) && wishlist == old(wishlist)
      ensures cartItems == Decremented(old(cartItems), id)
    {
      cartItems := Decremented(cartItems, id);
    }

    method ClearCart()
      modifies this
      ensures user == old(user) && wishlist == old(wishlist) && cartItems == []
    {
      cartItems := [];
    }

    function CartTotal(): real
      reads this
    {
      CartTotalOf(cartItems)
    }

    function CartCount(): int
      reads this
    {
      CartCountOf(cartItems)
    }

    function IsInCart(id: Id): bool
      reads this
    {
      InCart(cartItems, id)
    }

    method AddToWishlist(p: Product) returns (success: bool)
      modifies this
      ensures success <==> old(user).Some?
      ensures user == old(user) && cartItems == old(cartItems)
      ensures wishlist == if success then Toggled(old(wishlist), p) else old(wishlist)
    {
      if user.None? {
        return false;
      }
      wishlist := Toggled(wishlist, p);
      return true;
    }

    method RemoveFromWishlist(id: Id)
      modifies this
      ensures user == old(user) && cartItems == old(cartItems)
      ensures wishlist == WithoutProduct(old(wishlist), id)
    {
      wishlist := WithoutProduct(wishlist, id);
    }

    method ClearWishlist()
      modifies this
      ensures user == old(user) && cartItems == old(cartItems) && wishlist == []
    {
      wishlist := [];
    }

    function WishlistCount(): nat
      reads this
    {
      |wishlist|
    }

    function IsInWishlist(id: Id): bool
      reads this
    {
      InList(wishlist, id)
    }

    /**
     * Moves a wishlisted product into the cart with quantity one. Without a user, or for an id
     * that is not in the wishlist, nothing changes.
     */
    method MoveToCart(id: Id) returns (success: bool)
      modifies this
      ensures user == old(user)
      ensures success <==> old(user).Some? && InList(old(wishlist), id)
      ensures !success ==> cartItems == old(cartItems) && wishlist == old(wishlist)
      ensures success ==>
        && cartItems == Added(old(cartItems), FindListed(old(wishlist), id).value, 1)
        && wishlist == WithoutProduct(old(wishlist), id)
    {
      if user.None? {
        return false;
      }
      var product := FindListed(wishlist, id);
      if product.Some? {
        var added := AddToCart(product.value, 1);
        RemoveFromWishlist(id);
        return true;
      }
      return false;
    }
  }

  /** After moveToCart the product is in the cart and no longer in the wishlist. */
  lemma MovedProduct(cart: seq<CartEntry>, list: seq<Product>, id: Id)
    requires InList(list, id)
    ensures InCart(Added(cart, FindListed(list, id).value, 1), id)
    ensures !InList(WithoutProduct(list, id), id)
  {
    var p := FindListed(list, id).value;
    if !InCart(cart, id) {
      var r := cart + [CartEntry(p, 1)];
      assert r[|cart|].item.id == id;
    } else {
      var i :| 0 <= i < |cart| && cart[i].item.id == id;
      assert Added(cart, p, 1)[i].item.id == id;
    }
  }
}
