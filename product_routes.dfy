/**
 * The product endpoints: the catalog listing with its search, category and price filters,
 * sort keys and pagination; the featured and trending lists; lookup by id; soft delete.
 * The database's filtering, sorting and slicing are modelled as sequence functions over the
 * collection in natural order.
 */
module ProductRoutes {
  import opened Common
  import opened Schema
  import opened Store
  import opened Sorting

  // ---------------------------------------------------------------------------
  // GET /products: the request and the query document built from it
  // ---------------------------------------------------------------------------

  /**
   * The query string. An absent or empty string parameter is "". The two prices are the
   * numbers `Number(...)` gives for non-empty strings; page and limit are None when absent.
   */
  datatype ProductQuery = ProductQuery(
    search: string,
    category: string,
    minPrice: Option<real>,
    maxPrice: Option<real>,
    sort: string,
    page: Option<int>,
    limit: Option<int>)

  /** The filter document: `{isActive: true}` plus the optional `$or`, category and price clauses. */
  datatype MongoFilter = MongoFilter(
    isActive: bool,
    search: Option<string>,
    category: Option<string>,
    priceGte: Option<real>,
    priceLte: Option<real>)

  /** How the database evaluates a filter document against one product. */
  predicate Matches(f: MongoFilter, p: Product) {
    && p.isActive == f.isActive
    && (f.search.Some? ==>
          MatchesIgnoreCase(p.name, f.search.value) || MatchesIgnoreCase(p.description, f.search.value))
    && (f.category.Some? ==> p.category == f.category.value)
    && (f.priceGte.Some? ==> p.price >= f.priceGte.value)
    && (f.priceLte.Some? ==> p.price <= f.priceLte.value)
  }

  /**
   * The products a listing request asks for: active ones, matching a non-empty search term in
   * the name or the description, in the category unless it is empty or 'all', and inside the
   * inclusive price bounds that are given.
   */
  predicate Wanted(q: ProductQuery, p: Product) {
    && p.isActive
    && (q.search == "" || MatchesIgnoreCase(p.name, q.search) || MatchesIgnoreCase(p.description, q.search))
    && (q.category == "" || q.category == "all" || p.category == q.category)
    && (q.minPrice.None? || q.minPrice.value <= p.price)
    && (q.maxPrice.None? || p.price <= q.maxPrice.value)
  }

  /** The query document, assembled clause by clause. */
  method BuildFilter(q: ProductQuery) returns (f: MongoFilter)
    ensures f.isActive
    ensures f.search.Some? <==> q.search != ""
    ensures f.category.Some? <==> q.category != "" && q.category != "all"
    ensures forall p :: Matches(f, p) <==> Wanted(q, p)
  {
    f := MongoFilter(true, None, None, None, None);
    if q.search != "" {
      f := f.(search := Some(q.search));
    }
    if q.category != "" && q.category != "all" {
      f := f.(category := Some(q.category));
    }
    if q.minPrice.Some? || q.maxPrice.Some? {
      if q.minPrice.Some? {
        f := f.(priceGte := q.minPrice);
      }
      if q.maxPrice.Some? {
        f := f.(priceLte := q.maxPrice);
      }
    }
  }

  // ---------------------------------------------------------------------------
  // Sort keys
  // ---------------------------------------------------------------------------

  datatype SortKey = PriceAsc | PriceDesc | NameAsc | NameDesc | NewestFirst

  /** The switch over `sort`: 'newest' and every unknown or missing key mean newest first. */
  function SortOption(sort: string): (k: SortKey)
    ensures sort == "price_asc" <==> k == PriceAsc
    ensures sort == "price_desc" <==> k == PriceDesc
    ensures sort == "name_asc" <==> k == NameAsc
    ensures sort == "name_desc" <==> k == NameDesc
  {
    match sort
    case "price_asc" => PriceAsc
    case "price_desc" => PriceDesc
    case "name_asc" => NameAsc
    case "name_desc" => NameDesc
    case _ => NewestFirst
  }

  /** `Precedes(k)(a, b)`: under sort key `k`, `a` is placed before `b`. */
  function Precedes(k: SortKey): (Product, Product) -> bool {
    match k
    case PriceAsc => (a: Product, b: Product) => a.price < b.price
    case PriceDesc => (a: Product, b: Product) => a.price > b.price
    case NameAsc => (a: Product, b: Product) => LexLess(a.name, b.name)
    case NameDesc => (a: Product, b: Product) => LexLess(b.name, a.name)
    case NewestFirst => (a: Product, b: Product) => a.createdAt > b.createdAt
  }

  /**
   * Each key orders the listing as its name says: by price or by name, ascending or
   * descending; 'newest' and every other key put the most recently created product first.
   */
  lemma SortOptionMeaning(sort: string, a: Product, b: Product)
    ensures sort == "price_asc" ==> (Precedes(SortOption(sort))(a, b) <==> a.price < b.price)
    ensures sort == "price_desc" ==> (Precedes(SortOption(sort))(a, b) <==> a.price > b.price)
    ensures sort == "name_asc" ==> (Precedes(SortOption(sort))(a, b) <==> LexLess(a.name, b.name))
    ensures sort == "name_desc" ==> (Precedes(SortOption(sort))(a, b) <==> LexLess(b.name, a.name))
    ensures sort != "price_asc" && sort != "price_desc" && sort != "name_asc" && sort != "name_desc" ==>
      (Precedes(SortOption(sort))(a, b) <==> a.createdAt > b.createdAt)
    ensures SortOption(sort) == SortOption("newest") <==>
      sort != "price_asc" && sort != "price_desc" && sort != "name_asc" && sort != "name_desc"
  {
  }

  lemma NameOrder(a: string, b: string, c: string)
    ensures !LexLess(a, a)
    ensures LexLess(a, b) && LexLess(b, c) ==> LexLess(a, c)
    ensures !LexLess(a, b) && !LexLess(b, c) ==> !LexLess(a, c)
  {
    LexIrreflexive(a);
    if LexLess(a, b) && LexLess(b, c) {
      LexTransitive(a, b, c);
    }
    if !LexLess(a, b) && !LexLess(b, c) && a != b && b != c {
      // Totality turns both non-strict steps into strict ones, going the other way.
      LexTotal(a, b);
      LexTotal(b, c);
      LexTransitive(c, b, a);
      LexAsymmetric(c, a);
    }
  }

  /** Every sort key is a strict weak order, so the sorted listing is well defined up to ties. */
  lemma PrecedesOrder(k: SortKey)
    ensures StrictWeakOrder(Precedes(k))
  {
    if k == NameAsc || k == NameDesc {
      forall a: Product, b: Product, c: Product
        ensures !Precedes(k)(a, a)
        ensures Precedes(k)(a, b) && Precedes(k)(b, c) ==> Precedes(k)(a, c)
        ensures !Precedes(k)(a, b) && !Precedes(k)(b, c) ==> !Precedes(k)(a, c)
      {
        NameOrder(a.name, b.name, c.name);
        NameOrder(c.name, b.name, a.name);
      }
    }
  }

  // ---------------------------------------------------------------------------
  // Pagination
  // ---------------------------------------------------------------------------

  /** `.limit(n)`: zero means no limit and a negative limit counts as its absolute value. */
  function LimitOf(n: int): (r: Option<nat>)
    ensures n == 0 <==> r.None?
    ensures r.Some? ==> r.value == if n < 0 then -n else n
  {
    if n == 0 then None else if n < 0 then Some(-n) else Some(n)
  }

  /**
   * `.skip(k).limit(n)` on the sorted matches; a negative skip makes the query fail.
   */
  function Window(s: seq<Product>, skip: int, limit: int): (r: Option<seq<Product>>)
    ensures r.None? <==> skip < 0
    ensures r.Some? && skip <= |s| ==> skip + |r.value| <= |s| && r.value == s[skip..skip + |r.value|]
    ensures r.Some? && skip > |s| ==> r.value == []
    ensures r.Some? && LimitOf(limit).Some? && skip <= |s| ==> |r.value| == Min(LimitOf(limit).value, |s| - skip)
    ensures r.Some? && LimitOf(limit).None? && skip <= |s| ==> r.value == s[skip..]
  {
    if skip < 0 then None
    else
      var rest := if skip <= |s| then s[skip..] else [];
      var lim := LimitOf(limit);
      var page := if lim.Some? then Take(rest, lim.value) else rest;
      assert skip <= |s| ==> page == s[skip..skip + |page|];
      Some(page)
  }

  /** The JSON envelope of a listing: `{success, count, total, data}` or the 500 error. */
  datatype Listing = Listed(count: nat, total: nat, data: seq<Product>) | ListFailed

  /** The matching products, sorted as requested, before pagination. */
  function Sorted(docs: seq<Product>, q: ProductQuery): (r: seq<Product>)
    ensures multiset(r) == multiset(Filter(docs, p => Wanted(q, p)))
    ensures SortedBy(r, Precedes(SortOption(q.sort)))
  {
    PrecedesOrder(SortOption(q.sort));
    SortBySorted(Filter(docs, p => Wanted(q, p)), Precedes(SortOption(q.sort)));
    SortBy(Filter(docs, p => Wanted(q, p)), Precedes(SortOption(q.sort)))
  }

  /** `page` and `limit` with their defaults, 1 and 50. */
  function PageNumber(q: ProductQuery): int {
    if q.page.Some? then q.page.value else 1
  }

  function PageSize(q: ProductQuery): int {
    if q.limit.Some? then q.limit.value else 50
  }

  /** `.skip((page - 1) * limit)` */
  function SkipOf(q: ProductQuery): int {
    (PageNumber(q) - 1) * PageSize(q)
  }

  /**
   * The listing skips (page - 1) * limit sorted matches and returns the next |limit| of them
   * (all of the rest for a zero limit); a negative skip is the 500 error.
   */
  function ListProductsIn(docs: seq<Product>, q: ProductQuery): (r: Listing)
    ensures r.ListFailed? <==> SkipOf(q) < 0
    ensures r.Listed? ==> r.count == |r.data| && r.total == Count(docs, p => Wanted(q, p))
    ensures r.Listed? && SkipOf(q) > |Sorted(docs, q)| ==> r.data == []
    ensures r.Listed? && SkipOf(q) <= |Sorted(docs, q)| ==>
      var skip, limit, s := SkipOf(q), PageSize(q), Sorted(docs, q);
      && 0 <= skip && skip + |r.data| <= |s| && r.data == s[skip..skip + |r.data|]
      && |r.data| == if limit == 0 then |s| - skip else Min(if limit < 0 then -limit else limit, |s| - skip)
  {
    var sorted := Sorted(docs, q);
    var w := Window(sorted, SkipOf(q), PageSize(q));
    if w.None? then ListFailed else Listed(|w.value|, Count(docs, p => Wanted(q, p)), w.value)
  }

  /** GET /products over the product collection in natural order. */
  function ListProducts(db: Database, q: ProductQuery): Listing
    reads db
    requires db.Valid()
  {
    ListProductsIn(db.ProductDocs(), q)
  }

  /**
   * Every listed product is one the request asked for, and the page is a run of consecutive
   * entries of the sorted matches starting at (page - 1) * limit.
   */
  lemma ListedAreWanted(docs: seq<Product>, q: ProductQuery)
    ensures ListProductsIn(docs, q).Listed? ==>
      forall p :: p in ListProductsIn(docs, q).data ==> p in docs && Wanted(q, p)
  {
    var r := ListProductsIn(docs, q);
    if r.Listed? {
      var sorted := Sorted(docs, q);
      forall p | p in r.data ensures p in docs && Wanted(q, p) {
        assert p in sorted;
        assert p in multiset(sorted);
        assert p in Filter(docs, x => Wanted(q, x));
      }
    }
  }

  /** The page is a window of the sorted matches, so it inherits their order. */
  lemma ListedInOrder(docs: seq<Product>, q: ProductQuery)
    ensures ListProductsIn(docs, q).Listed? ==>
      SortedBy(ListProductsIn(docs, q).data, Precedes(SortOption(q.sort)))
  {
  }

  /** Without page and limit the listing is the first 50 sorted matches. */
  lemma DefaultPage(docs: seq<Product>, q: ProductQuery)
    requires q.page.None? && q.limit.None?
    ensures ListProductsIn(docs, q) == Listed(|Take(Sorted(docs, q), 50)|, Count(docs, p => Wanted(q, p)), Take(Sorted(docs, q), 50))
  {
  }

  /** A page number below 1 with a positive limit asks for a negative skip, and the request fails. */
  lemma PageBelowOneFails(docs: seq<Product>, q: ProductQuery)
    requires q.page.Some? && q.page.value < 1
    requires q.limit.None? || q.limit.value > 0
    ensures ListProductsIn(docs, q) == ListFailed
  {
    NegativeSkip(PageNumber(q) - 1, PageSize(q));
    assert SkipOf(q) < 0;
  }

  lemma NegativeSkip(x: int, y: int)
    requires x < 0 < y
    ensures x * y < 0
  {
  }

  // ---------------------------------------------------------------------------
  // GET /products/featured and /products/trending
  // ---------------------------------------------------------------------------

  predicate ShowcaseFeatured(p: Product) {
    p.isFeatured && p.isActive
  }

  /** `{numReviews: -1}` on a field that may be missing: a missing value sorts below every number. */
  predicate IntAbove(a: Option<int>, b: Option<int>) {
    a.Some? && (b.None? || a.value > b.value)
  }

  predicate RealAbove(a: Option<real>, b: Option<real>) {
    a.Some? && (b.None? || a.value > b.value)
  }

  /** `{numReviews: -1, rating: -1}`: more reviews first, then the higher rating. */
  function MostReviewed(): (Product, Product) -> bool {
    (a: Product, b: Product) =>
      IntAbove(a.numReviews, b.numReviews) || (a.numReviews == b.numReviews && RealAbove(a.rating, b.rating))
  }

  lemma MostReviewedOrder()
    ensures StrictWeakOrder(MostReviewed())
  {
    var lt := MostReviewed();
    forall a: Product, b: Product, c: Product
      ensures !lt(a, b) && !lt(b, c) ==> !lt(a, c)
    {
      if !lt(a, b) && !lt(b, c) {
        assert !IntAbove(a.numReviews, b.numReviews) && !IntAbove(b.numReviews, c.numReviews);
      }
    }
  }

  lemma NewestFirstIs(a: Product, b: Product)
    ensures Precedes(NewestFirst)(a, b) <==> a.createdAt > b.createdAt
  {
  }

  /** The newest-first order picks the latest creation time first. */
  lemma FeaturedTop(docs: seq<Product>)
    ensures var r := Take(SortBy(Filter(docs, ShowcaseFeatured), Precedes(NewestFirst)), 8);
      && multiset(r) <= multiset(Filter(docs, ShowcaseFeatured))
      && SortedBy(r, Precedes(NewestFirst))
      && (forall p, i :: p in docs && ShowcaseFeatured(p) && p !in r && 0 <= i < |r| ==>
            p.createdAt <= r[i].createdAt)
  {
    var matches := Filter(docs, ShowcaseFeatured);
    var lt := Precedes(NewestFirst);
    PrecedesOrder(NewestFirst);
    TopOf(matches, lt, 8);
    var r := Take(SortBy(matches, lt), 8);
    forall p, i | p in docs && ShowcaseFeatured(p) && p !in r && 0 <= i < |r|
      ensures p.createdAt <= r[i].createdAt
    {
      assert p in matches;
      NewestFirstIs(p, r[i]);
    }
  }

  /**
   * At most eight featured active products, newest first: no featured active product left out
   * is newer than one that was listed.
   */
  function FeaturedIn(docs: seq<Product>): (r: seq<Product>)
    ensures |r| == Min(8, Count(docs, ShowcaseFeatured))
    ensures forall p :: p in r ==> p in docs && p.isFeatured && p.isActive
    ensures multiset(r) <= multiset(Filter(docs, ShowcaseFeatured))
    ensures SortedBy(r, Precedes(NewestFirst))
    ensures forall p, i :: p in docs && ShowcaseFeatured(p) && p !in r && 0 <= i < |r| ==>
      p.createdAt <= r[i].createdAt
  {
    var matches := Filter(docs, ShowcaseFeatured);
    var sorted := SortBy(matches, Precedes(NewestFirst));
    FeaturedTop(docs);
    forall p | p in Take(sorted, 8) ensures p in docs && p.isFeatured && p.isActive {
      assert p in multiset(sorted);
    }
    Take(sorted, 8)
  }

  /**
   * At most eight active products, by reviews and then rating: no active product left out has
   * more reviews than one that was listed, or as many and a higher rating.
   */
  function TrendingIn(docs: seq<Product>): (r: seq<Product>)
    ensures |r| == Min(8, Count(docs, (p: Product) => p.isActive))
    ensures forall p :: p in r ==> p in docs && p.isActive
    ensures multiset(r) <= multiset(Filter(docs, (p: Product) => p.isActive))
    ensures SortedBy(r, MostReviewed())
    ensures forall p, i :: p in docs && p.isActive && p !in r && 0 <= i < |r| ==>
      && !IntAbove(p.numReviews, r[i].numReviews)
      && (p.numReviews == r[i].numReviews ==> !RealAbove(p.rating, r[i].rating))
  {
    var matches := Filter(docs, (p: Product) => p.isActive);
    var sorted := SortBy(matches, MostReviewed());
    MostReviewedOrder();
    SortBySorted(matches, MostReviewed());
    TopOf(matches, MostReviewed(), 8);
    var r := Take(sorted, 8);
    forall p | p in r ensures p in docs && p.isActive {
      assert p in multiset(sorted);
    }
    forall p, i | p in docs && p.isActive && p !in r && 0 <= i < |r|
      ensures !IntAbove(p.numReviews, r[i].numReviews)
      ensures p.numReviews == r[i].numReviews ==> !RealAbove(p.rating, r[i].rating)
    {
      assert p in matches;
      assert !MostReviewed()(p, r[i]);
    }
    r
  }

  /**
   * A product that is inactive in every copy of it shows up in none of the three lists: this is
   * what soft delete relies on.
   */
  lemma InactiveHidden(docs: seq<Product>, q: ProductQuery, id: Id)
    requires forall i :: 0 <= i < |docs| && docs[i].id == id ==> !docs[i].isActive
    ensures ListProductsIn(docs, q).Listed? ==> forall p :: p in ListProductsIn(docs, q).data ==> p.id != id
    ensures forall p :: p in FeaturedIn(docs) ==> p.id != id
    ensures forall p :: p in TrendingIn(docs) ==> p.id != id
  {
    ListedAreWanted(docs, q);
  }

  // ---------------------------------------------------------------------------
  // GET /products/:id and DELETE /products/:id
  // ---------------------------------------------------------------------------

  datatype ProductResponse = ProductResponse(status: int, success: bool, message: string, data: Option<Product>)

  const ProductNotFound := ProductResponse(404, false, "Product not found", None)

  /** Lookup by id ignores the active flag: a soft-deleted product can still be fetched directly. */
  function GetProduct(db: Database, id: Id): (res: ProductResponse)
    reads db
    requires db.Valid()
    ensures res.status == 404 <==> id !in db.products
    ensures res.status == 200 ==> res.data == Some(db.products[id]) && res.data.value.id == id
  {
    if id in db.products then ProductResponse(200, true, "", Some(db.products[id])) else ProductNotFound
  }

  /**
   * Soft delete: only the active flag changes; the document stays in the collection. When the
   * save throws (`saveFails`) nothing changes and the reply is a 500.
   */
  method SoftDelete(db: Database, id: Id, saveFails: bool) returns (res: ProductResponse)
    requires db.Valid()
    modifies db
    ensures db.Valid()
    ensures db.orders == old(db.orders) && db.log == old(db.log) && db.catalog == old(db.catalog)
    ensures id !in old(db.products) ==> res == ProductNotFound && db.products == old(db.products)
    ensures id in old(db.products) && saveFails ==>
      res == ProductResponse(500, false, "Failed to delete product", None) && db.products == old(db.products)
    ensures id in old(db.products) && !saveFails ==>
      && db.products == old(db.products)[id := old(db.products)[id].(isActive := false)]
      && res == ProductResponse(200, true, "Product deleted successfully", None)
  {
    if id !in db.products {
      return ProductNotFound;
    }
    var product := db.products[id];
    product := product.(isActive := false);
    if saveFails {
      return ProductResponse(500, false, "Failed to delete product", None);
    }
    IndexedReplace(db.products, db.catalog, ProductId, product);
    db.products := db.products[id := product];
    res := ProductResponse(200, true, "Product deleted successfully", None);
  }

  /** After a soft delete the product is absent from every listing, featured and trending result. */
  lemma DeletedIsHidden(db: Database, id: Id, q: ProductQuery)
    requires db.Valid()
    requires id in db.products && !db.products[id].isActive
    ensures ListProducts(db, q).Listed? ==> forall p :: p in ListProducts(db, q).data ==> p.id != id
    ensures forall p :: p in FeaturedIn(db.ProductDocs()) ==> p.id != id
    ensures forall p :: p in TrendingIn(db.ProductDocs()) ==> p.id != id
  {
    var docs := db.ProductDocs();
    forall i | 0 <= i < |docs| && docs[i].id == id ensures !docs[i].isActive {
      assert docs[i] == db.products[db.catalog[i]];
    }
    InactiveHidden(docs, q, id);
  }
}
