/** The product page: its image list, the price saving, and the quantity stepper feeding the cart. */
module ProductDetails {
  import opened Common
  import opened Schema
  import opened CartContext
  import ProductCard

  /** getProductImages: the image list, else the single `image`, else `imageUrl`, else nothing. */
  function ProductImages(product: Option<Product>): (r: seq<string>)
    ensures product.None? ==> r == []
    ensures product.Some? && |product.value.images| > 0 ==> r == product.value.images
    ensures product.Some? && |product.value.images| == 0 ==> |r| <= 1 && (r != [] ==> r[0] != "")
  {
    if product.None? then []
    else
      var p := product.value;
      if |p.images| > 0 then p.images
      else if p.image.Some? && Truthy(p.image.value) then [p.image.value]
      else if p.imageUrl.Some? && Truthy(p.imageUrl.value) then [p.imageUrl.value]
      else []
  }

  /** The page's main picture is the one the product's tile shows, and there is one exactly when the tile has one. */
  lemma ImagesAgreeWithCard(p: Product)
    ensures ProductImages(Some(p)) == [] <==> ProductCard.ProductImage(p).None?
    ensures ProductImages(Some(p)) != [] ==> ProductCard.ProductImage(p) == Some(ProductImages(Some(p))[0])
  {
  }

  /** The "Save" amount, shown under the same rule as the tile's struck-through price. */
  function Savings(p: Product): (r: Option<real>)
    ensures r.Some? <==> ProductCard.ShowsOriginalPrice(p)
    ensures r.Some? ==> r.value > 0.0 && r.value + p.price == p.originalPrice.value
  {
    if ProductCard.ShowsOriginalPrice(p) then Some(p.originalPrice.value - p.price) else None
  }

  class ProductDetailsPage {
    var product: Option<Product>
    var quantity: int
    var addedToCart: bool

    /** The stepper never shows less than one. */
    ghost predicate Valid()
      reads this
    {
      quantity >= 1
    }

    constructor ()
      ensures Valid() && product.None? && quantity == 1 && !addedToCart
    {
      product, quantity, addedToCart := None, 1, false;
    }

    /** fetchProduct: a failed fetch (None) keeps what was shown; the quantity is not reset. */
    method Load(fetched: Option<Product>)
      modifies this
      ensures product == if fetched.Some? then fetched else old(product)
      ensures quantity == old(quantity) && addedToCart == old(addedToCart)
    {
      if fetched.Some? {
        product := fetched;
      }
    }

    /** The plus button raises the quantity only while it is below the stock. */
    method IncrementQuantity()
      requires Valid() && product.Some?
      modifies this
      ensures Valid() && product == old(product) && addedToCart == old(addedToCart)
      ensures quantity == if old(quantity) < product.value.stock then old(quantity) + 1 else old(quantity)
      ensures old(quantity) <= Max(1, product.value.stock) ==> quantity <= Max(1, product.value.stock)
    {
      if quantity < product.value.stock {
        quantity := quantity + 1;
      }
    }

    /** The minus button lowers the quantity only while it is above one. */
    method DecrementQuantity()
      requires Valid()
      modifies this
      ensures Valid() && product == old(product) && addedToCart == old(addedToCart)
      ensures quantity == if old(quantity) > 1 then old(quantity) - 1 else old(quantity)
    {
      if quantity > 1 {
        quantity := quantity - 1;
      }
    }

    /** The add button (disabled at zero stock) hands the selected quantity to the cart. */
    method HandleAddToCart(cart: CartProvider) returns (success: bool)
      requires product.Some? && product.value.stock != 0
      modifies this, cart
      ensures product == old(product) && quantity == old(quantity) && addedToCart
      ensures success <==> old(cart.user).Some?
      ensures cart.cartItems == if success then Added(old(cart.cartItems), product.value, quantity) else old(cart.cartItems)
      ensures cart.user == old(cart.user) && cart.wishlist == old(cart.wishlist)
    {
      success := cart.AddToCart(product.value, quantity);
      addedToCart := true;
    }
  }
}
