/**
 * The home page's three product rows. Each row takes what its endpoint returned and, when that
 * is empty, falls back on a selection computed from the whole product list.
 */
module Home {
  import opened Common
  import opened Schema
  import opened Sorting

  /** What a request gave back: a JSON array, some other JSON value, or an exception. */
  datatype Fetched = Got(items: seq<Product>) | NotAList | Failed

  /** `Array.isArray(data) ? data : []`, with a failed request counting as empty too. */
  function AsList(f: Fetched): (r: seq<Product>)
    ensures f.Got? ==> r == f.items
    ensures !f.Got? ==> r == []
  {
    if f.Got? then f.items else []
  }

  datatype Sections = Sections(featured: seq<Product>, trending: seq<Product>, newArrivals: seq<Product>)

  /** `(p.rating || 0) >= 4` */
  predicate WellRated(p: Product) {
    RealOrZero(p.rating) >= 4.0
  }

  /** The comparator `(b.numReviews || 0) - (a.numReviews || 0)`: more reviews first. */
  function MoreReviewed(): (Product, Product) -> bool {
    (a: Product, b: Product) => OrZero(a.numReviews) > OrZero(b.numReviews)
  }

  lemma MoreReviewedOrder()
    ensures StrictWeakOrder(MoreReviewed())
  {
  }

  function FallbackFeatured(products: seq<Product>): seq<Product> {
    Take(Filter(products, WellRated), 8)
  }

  function FallbackTrending(products: seq<Product>): seq<Product> {
    Take(SortBy(products, MoreReviewed()), 8)
  }

  /**
   * fetchAllProducts. When the whole-list request throws, nothing is set (None) and the rows keep
   * what they showed. The featured and trending requests may fail on their own.
   */
  function HomeSections(featuredData: Fetched, trendingData: Fetched, allData: Fetched): (r: Option<Sections>)
    ensures r.None? <==> allData.Failed?
    ensures r.Some? ==> |r.value.featured| <= Max(8, |AsList(featuredData)|)
    ensures r.Some? ==> |r.value.trending| <= Max(8, |AsList(trendingData)|)
  {
    if allData.Failed? then None
    else
      var products := AsList(allData);
      var featured := AsList(featuredData);
      var trending := AsList(trendingData);
      Some(Sections(
        if |featured| == 0 && |products| > 0 then FallbackFeatured(products) else featured,
        if |trending| == 0 && |products| > 0 then FallbackTrending(products) else trending,
        if |products| > 0 then TakeLast(products, 4) else []))
  }

  /** A row shows its endpoint's answer unless that is empty and there are products to fall back on. */
  lemma FallbackOnlyWhenEmpty(featuredData: Fetched, trendingData: Fetched, allData: Fetched)
    requires !allData.Failed?
    ensures var r := HomeSections(featuredData, trendingData, allData).value;
      && (AsList(featuredData) != [] || AsList(allData) == [] ==> r.featured == AsList(featuredData))
      && (AsList(trendingData) != [] || AsList(allData) == [] ==> r.trending == AsList(trendingData))
      && (AsList(featuredData) == [] && AsList(allData) != [] ==> r.featured == FallbackFeatured(AsList(allData)))
      && (AsList(trendingData) == [] && AsList(allData) != [] ==> r.trending == FallbackTrending(AsList(allData)))
      && (AsList(allData) == [] ==> r.newArrivals == [])
  {
  }

  /** The featured fallback: the first eight well-rated products, in list order. */
  lemma {:induction false} FallbackFeaturedIs(products: seq<Product>)
    ensures var r := FallbackFeatured(products);
      && |r| == Min(8, Count(products, WellRated))
      && (forall p :: p in r ==> p in products && WellRated(p))
      && r == Filter(products, WellRated)[..|r|]
      && (|r| < 8 ==> forall p :: p in products && WellRated(p) ==> p in r)
  {
  }

  /** The trending fallback: eight products with the most reviews, none left out having more. */
  lemma FallbackTrendingIs(products: seq<Product>)
    ensures var r := FallbackTrending(products);
      && |r| == Min(8, |products|)
      && multiset(r) <= multiset(products)
      && SortedBy(r, MoreReviewed())
      && (forall p, i :: p in products && p !in r && 0 <= i < |r| ==> OrZero(p.numReviews) <= OrZero(r[i].numReviews))
  {
    var s := SortBy(products, MoreReviewed());
    var r := FallbackTrending(products);
    MoreReviewedOrder();
    SortBySorted(products, MoreReviewed());
    assert s == r + s[|r|..];
    assert multiset(s) == multiset(r) + multiset(s[|r|..]);
    forall p, i | p in products && p !in r && 0 <= i < |r|
      ensures OrZero(p.numReviews) <= OrZero(r[i].numReviews)
    {
      assert p in multiset(s);
      var j :| 0 <= j < |s| && s[j] == p;
      assert !MoreReviewed()(s[j], s[i]);
    }
  }

  /** New arrivals are the last four products of the list as delivered, whatever the trending sort did. */
  lemma NewArrivalsAreLastFour(featuredData: Fetched, trendingData: Fetched, allData: Fetched)
    requires !allData.Failed?
    ensures var products := AsList(allData);
      var n := HomeSections(featuredData, trendingData, allData).value.newArrivals;
      |n| == Min(4, |products|) && n == products[|products| - |n|..]
  {
  }
}
