/** The catalog page: its filter state, the query it sends, and the heading it shows. */
module ProductsPage {
  import opened Common

  datatype Filters = Filters(search: string, category: string, minPrice: string, maxPrice: string, sort: string)

  const DefaultFilters := Filters("", "all", "", "", "newest")

  datatype FilterKey = Search | Category | MinPrice | MaxPrice | Sort

  function FilterValue(f: Filters, k: FilterKey): string {
    match k
    case Search => f.search
    case Category => f.category
    case MinPrice => f.minPrice
    case MaxPrice => f.maxPrice
    case Sort => f.sort
  }

  /** `{ ...prev, [key]: value }` */
  function WithFilter(f: Filters, k: FilterKey, v: string): (r: Filters)
    ensures FilterValue(r, k) == v
    ensures forall k' :: k' != k ==> FilterValue(r, k') == FilterValue(f, k')
  {
    match k
    case Search => f.(search := v)
    case Category => f.(category := v)
    case MinPrice => f.(minPrice := v)
    case MaxPrice => f.(maxPrice := v)
    case Sort => f.(sort := v)
  }

  /** A filter state is determined by its five values. */
  lemma FiltersByValues(f: Filters, g: Filters)
    requires forall k :: FilterValue(f, k) == FilterValue(g, k)
    ensures f == g
  {
    assert FilterValue(f, Search) == FilterValue(g, Search);
    assert FilterValue(f, Category) == FilterValue(g, Category);
    assert FilterValue(f, MinPrice) == FilterValue(g, MinPrice);
    assert FilterValue(f, MaxPrice) == FilterValue(g, MaxPrice);
    assert FilterValue(f, Sort) == FilterValue(g, Sort);
  }

  /** Setting a filter twice keeps the last value; setting it to what it holds changes nothing. */
  lemma WithFilterLaws(f: Filters, k: FilterKey, v: string, w: string)
    ensures WithFilter(WithFilter(f, k, v), k, w) == WithFilter(f, k, w)
    ensures WithFilter(f, k, FilterValue(f, k)) == f
  {
    FiltersByValues(WithFilter(WithFilter(f, k, v), k, w), WithFilter(f, k, w));
    FiltersByValues(WithFilter(f, k, FilterValue(f, k)), f);
  }

  /** The category a home-page tile stores, as the code normalises it: only 'home & garden' is renamed. */
  function NormalizeCategoryAsWritten(stored: string): (r: string)
    ensures Lower(stored) == "home & garden" ==> r == "home"
    ensures Lower(stored) != "home & garden" ==> r == Lower(stored)
  {
    var c := Lower(stored);
    if c == "home & garden" then "home" else c
  }

  /** The category a home-page tile stores, with the tile actually on the home page ('Home & Living') renamed too. */
  function NormalizeCategory(stored: string): (r: string)
    ensures Lower(stored) == "home & garden" || Lower(stored) == "home & living" ==> r == "home"
    ensures Lower(stored) != "home & garden" && Lower(stored) != "home & living" ==> r == Lower(stored)
    ensures Lower(r) == r
  {
    var c := Lower(stored);
    LowerIdempotent(stored);
    if c == "home & garden" || c == "home & living" then "home" else c
  }

  /** The two normalisations differ only on the home-page tile's own spelling. */
  lemma NormalizeCategoryAgrees(stored: string)
    ensures NormalizeCategoryAsWritten(stored) == NormalizeCategory(stored) <==> Lower(stored) != "home & living"
  {
  }

  lemma LowerIdempotent(s: string)
    ensures Lower(Lower(s)) == Lower(s)
  {
  }

  /** The heading's lookup table from category key to display name. */
  const CategoryNames: map<string, string> := map[
    "electronics" := "Electronics", "clothing" := "Clothing", "home" := "Home & Garden",
    "sports" := "Sports", "books" := "Books", "toys" := "Toys", "other" := "Other"]

  function CategoryDisplayName(category: string): (r: string)
    ensures category in CategoryNames ==> r == CategoryNames[category]
    ensures r == "All Products" <==> category !in CategoryNames
  {
    if category in CategoryNames then CategoryNames[category] else "All Products"
  }

  /** The page heading. */
  function Title(f: Filters): (r: string)
    ensures r == "All Products" <==> f.category == "all" || f.category !in CategoryNames
    ensures f.category != "all" && f.category in CategoryNames ==> r == CategoryNames[f.category]
  {
    if f.category != "all" then CategoryDisplayName(f.category) else "All Products"
  }

  /**
   * The home page's 'Home & Living' tile as written: the stored name lower-cases to 'home & living',
   * which is no category key, so the list is filtered on a category no product has while the
   * heading reads 'All Products'.
   */
  lemma HomeTileAsWritten(stored: string)
    requires Lower(stored) == "home & living"
    ensures NormalizeCategoryAsWritten(stored) == "home & living"
    ensures NormalizeCategoryAsWritten(stored) !in CategoryNames
    ensures Title(DefaultFilters.(category := NormalizeCategoryAsWritten(stored))) == "All Products"
  {
  }

  /** With the rename, both spellings of the home tile select the 'home' category and its heading. */
  lemma HomeTileCorrected(stored: string)
    requires Lower(stored) == "home & living" || Lower(stored) == "home & garden"
    ensures NormalizeCategory(stored) == "home"
    ensures Title(DefaultFilters.(category := NormalizeCategory(stored))) == "Home & Garden"
  {
  }

  /** The query parameters; an absent parameter is not sent. */
  datatype QueryParams = QueryParams(
    search: Option<string>, category: Option<string>, minPrice: Option<string>,
    maxPrice: Option<string>, sort: Option<string>)

  /** fetchProducts: a parameter is set only for a non-empty filter, the category only when it is not 'all'. */
  method BuildParams(f: Filters) returns (p: QueryParams)
    ensures p.search.Some? <==> f.search != ""
    ensures p.category.Some? <==> f.category != "all"
    ensures p.minPrice.Some? <==> f.minPrice != ""
    ensures p.maxPrice.Some? <==> f.maxPrice != ""
    ensures p.sort.Some? <==> f.sort != ""
    ensures p.search.Some? ==> p.search.value == f.search
    ensures p.category.Some? ==> p.category.value == f.category && p.category.value != "all"
    ensures p.minPrice.Some? ==> p.minPrice.value == f.minPrice
    ensures p.maxPrice.Some? ==> p.maxPrice.value == f.maxPrice
    ensures p.sort.Some? ==> p.sort.value == f.sort
  {
    p := QueryParams(None, None, None, None, None);
    if Truthy(f.search) {
      p := p.(search := Some(f.search));
    }
    if f.category != "all" {
      p := p.(category := Some(f.category));
    }
    if Truthy(f.minPrice) {
      p := p.(minPrice := Some(f.minPrice));
    }
    if Truthy(f.maxPrice) {
      p := p.(maxPrice := Some(f.maxPrice));
    }
    if Truthy(f.sort) {
      p := p.(sort := Some(f.sort));
    }
  }

  class ProductsPage {
    var filters: Filters
    /** The `selectedCategory` entry of local storage. */
    var storedCategory: Option<string>

    constructor (stored: Option<string>)
      ensures filters == DefaultFilters && storedCategory == stored
    {
      filters := DefaultFilters;
      storedCategory := stored;
    }

    /** The mount effect: a stored category is normalised into the filter once and then removed. */
    method ApplyStoredCategory()
      modifies this
      ensures old(storedCategory).Some? && old(storedCategory).value != "" ==>
        filters == old(filters).(category := NormalizeCategoryAsWritten(old(storedCategory).value)) && storedCategory.None?
      ensures old(storedCategory).None? || old(storedCategory).value == "" ==>
        filters == old(filters) && storedCategory == old(storedCategory)
    {
      if storedCategory.Some? && Truthy(storedCategory.value) {
        filters := filters.(category := NormalizeCategoryAsWritten(storedCategory.value));
        storedCategory := None;
      }
    }

    method HandleFilterChange(k: FilterKey, v: string)
      modifies this
      ensures FilterValue(filters, k) == v
      ensures forall k' :: k' != k ==> FilterValue(filters, k') == FilterValue(old(filters), k')
      ensures storedCategory == old(storedCategory)
    {
      filters := WithFilter(filters, k, v);
    }

    method ResetFilters()
      modifies this
      ensures filters == DefaultFilters && storedCategory == old(storedCategory)
    {
      filters := DefaultFilters;
    }
  }
}
