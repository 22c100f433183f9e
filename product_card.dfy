/** The product tile: its picture, stock badges, add button, stock notice and price line. */
module ProductCard {
  import opened Common
  import opened Schema

  /** getProductImage: the first listed image, else `image`, else `imageUrl`, else none. */
  function ProductImage(p: Product): (r: Option<string>)
    ensures |p.images| > 0 ==> r == Some(p.images[0])
    ensures r.None? <==> |p.images| == 0 && StrOr(p.image, "") == "" && StrOr(p.imageUrl, "") == ""
    ensures r.Some? && |p.images| == 0 ==> r.value != "" && (r == p.image || r == p.imageUrl)
    ensures |p.images| == 0 && StrOr(p.image, "") != "" ==> r == p.image
  {
    if |p.images| > 0 then Some(p.images[0])
    else if p.image.Some? && Truthy(p.image.value) then p.image
    else if p.imageUrl.Some? && Truthy(p.imageUrl.value) then p.imageUrl
    else None
  }

  /** The badges over the picture that depend on stock, in display order. */
  function StockBadges(p: Product): (r: seq<string>)
    ensures "Out of Stock" in r <==> p.stock == 0
    ensures "Low Stock" in r <==> 0 < p.stock < 10
    ensures |r| <= 1
  {
    (if p.stock == 0 then ["Out of Stock"] else [])
      + (if p.stock > 0 && p.stock < 10 then ["Low Stock"] else [])
  }

  predicate AddDisabled(p: Product) {
    p.stock == 0
  }

  /** The add button's caption. */
  function ButtonLabel(p: Product, added: bool): (r: string)
    ensures added ==> r == "Added!"
    ensures !added ==> (r == "Out" <==> AddDisabled(p))
    ensures r in {"Added!", "Out", "Add"}
  {
    if added then "Added!" else if p.stock == 0 then "Out" else "Add"
  }

  /** The line under the tile, shown while fewer than twenty are left. */
  function StockNotice(p: Product): (r: Option<string>)
    ensures r.Some? <==> 0 < p.stock < 20
    ensures r.Some? ==> r.value == "Only " + NatToString(p.stock) + " left in stock!"
  {
    if p.stock > 0 && p.stock < 20 then Some("Only " + NatToString(p.stock) + " left in stock!") else None
  }

  /** A tile that says it is out of stock has its button disabled and no notice; one with a low-stock badge also has the notice. */
  lemma StockCuesAgree(p: Product)
    ensures "Out of Stock" in StockBadges(p) <==> AddDisabled(p)
    ensures AddDisabled(p) ==> StockNotice(p).None?
    ensures "Low Stock" in StockBadges(p) ==> StockNotice(p).Some? && !AddDisabled(p)
  {
  }

  /** `product.originalPrice && product.originalPrice > product.price`: a zero original price is falsy. */
  predicate ShowsOriginalPrice(p: Product) {
    p.originalPrice.Some? && p.originalPrice.value != 0.0 && p.originalPrice.value > p.price
  }

  /** For a non-negative price the old price is struck through exactly when it is higher. */
  lemma OriginalPriceRule(p: Product)
    ensures ShowsOriginalPrice(p) ==> p.originalPrice.Some? && p.originalPrice.value > p.price
    ensures p.price >= 0.0 ==> (ShowsOriginalPrice(p) <==> p.originalPrice.Some? && p.originalPrice.value > p.price)
  {
  }
}
