/** The catalog provider: the product list loaded from the catalog document,
    the filter object the shop page edits, the filtered view derived from
    both, and three lookups over the whole catalog. */
module ProductContext {
  import opened Seqs
  import opened StableSort
  import opened Catalog
  import opened Helpers

  /** The filter object at start and after `clearFilters`. */
  const DefaultFilters: Filters := Filters("", "all", Some(0.0), Some(10000.0), [], 0.0, "")

  const DefaultFeaturedLimit: int := 8

  /** The order of `getFeaturedProducts`: a higher rating comes first. */
  function HigherRated(): (Product, Product) -> bool
  {
    (a: Product, b: Product) => b.rating <= a.rating
  }

  /** The provider after its mount effect has loaded the catalog. */
  class ProductStore {
    const allProducts: seq<Product>
    const locale: Locale
    var filters: Filters

    constructor (catalog: seq<Product>, locale: Locale)
      ensures allProducts == catalog && this.locale == locale
      ensures filters == DefaultFilters
    {
      allProducts := catalog;
      this.locale := locale;
      filters := DefaultFilters;
    }

    method UpdateSearch(search: string)
      modifies this
      ensures filters == old(filters).(search := search)
    {
      filters := filters.(search := search);
    }

    method UpdateCategory(category: string)
      modifies this
      ensures filters == old(filters).(category := category)
    {
      filters := filters.(category := category);
    }

    method UpdatePriceRange(minPrice: Option<real>, maxPrice: Option<real>)
      modifies this
      ensures filters == old(filters).(minPrice := minPrice, maxPrice := maxPrice)
    {
      filters := filters.(minPrice := minPrice, maxPrice := maxPrice);
    }

    method UpdateBrands(brands: seq<string>)
      modifies this
      ensures filters == old(filters).(brands := brands)
    {
      filters := filters.(brands := brands);
    }

    method UpdateRating(minRating: real)
      modifies this
      ensures filters == old(filters).(minRating := minRating)
    {
      filters := filters.(minRating := minRating);
    }

    method UpdateSort(sortBy: string)
      modifies this
      ensures filters == old(filters).(sortBy := sortBy)
    {
      filters := filters.(sortBy := sortBy);
    }

    method ClearFilters()
      modifies this
      ensures filters == DefaultFilters
    {
      filters := DefaultFilters;
    }

    /** `filteredProducts` once the filter effect has run: every product that
        passes the active filters, as often as in the catalog, and nothing
        else; in catalog order unless a known sort key is set. */
    function FilteredProducts(): (r: seq<Product>)
      reads this
      ensures forall x :: multiset(r)[x] == if Matches(filters, locale.lower, x) then multiset(allProducts)[x] else 0
      ensures !IsSortKey(filters.sortBy) ==> IsSubseq(r, allProducts)
    {
      ApplyFiltersAndSort(allProducts, filters, locale)
    }

    /** `getProductById`: the first product with the id, if any. */
    function GetProductById(id: int): (r: Option<Product>)
      ensures r.None? <==> forall i | 0 <= i < |allProducts| :: allProducts[i].id != id
      ensures r.Some? ==> r.value.id == id && r.value in allProducts
      ensures r.Some? ==> exists k | 0 <= k < |allProducts| :: allProducts[k] == r.value && forall j | 0 <= j < k :: allProducts[j].id != id
    {
      Find(allProducts, (p: Product) => p.id == id)
    }

    /** `getProductsByCategory`: the category's products in catalog order;
        a truthy `limit` (defined and non-zero) cuts the list with
        `slice(0, limit)`. */
    function GetProductsByCategory(category: string, limit: Option<int>): (r: seq<Product>)
      ensures var products := Filter(allProducts, (p: Product) => p.category == category);
        && |r| == (if limit.Some? && limit.value != 0 then SliceEnd(|products|, limit.value) else |products|)
        && r == products[..|r|]
      ensures IsSubseq(r, allProducts)
      ensures forall i | 0 <= i < |r| :: r[i].category == category
      ensures limit.None? || limit.value == 0 ==>
        forall x :: multiset(r)[x] == if x.category == category then multiset(allProducts)[x] else 0
      ensures limit.Some? && limit.value > 0 ==> |r| <= limit.value
      ensures limit.Some? && limit.value > 0 && |r| < limit.value ==>
        forall x :: multiset(r)[x] == if x.category == category then multiset(allProducts)[x] else 0
    {
      var products := Filter(allProducts, (p: Product) => p.category == category);
      FilterIsSubseq(allProducts, (p: Product) => p.category == category);
      if limit.Some? && limit.value != 0 then
        var r := SliceTo(products, limit.value);
        PrefixIsSubseq(products, |r|);
        SubseqTransitive(r, products, allProducts);
        r
      else products
    }

    /** `getFeaturedProducts`: the catalog sorted by rating, highest first,
        cut with `slice(0, limit)`; an absent limit is 8. */
    function GetFeaturedProducts(limit: Option<int>): (r: seq<Product>)
      ensures |r| == SliceEnd(|allProducts|, LimitOr(limit, DefaultFeaturedLimit))
      ensures r == SortBy(allProducts, HigherRated())[..|r|]
      ensures multiset(r) <= multiset(allProducts)
      ensures forall i, j | 0 <= i < j < |r| :: r[i].rating >= r[j].rating
    {
      var sorted := SortBy(allProducts, HigherRated());
      var r := SliceTo(sorted, LimitOr(limit, DefaultFeaturedLimit));
      SortBySorted(allProducts, HigherRated());
      assert sorted == r + sorted[|r|..];
      assert multiset(sorted) == multiset(r) + multiset(sorted[|r|..]);
      assert forall i, j | 0 <= i < j < |r| :: r[i].rating >= r[j].rating by {
        forall i, j | 0 <= i < j < |r| ensures r[i].rating >= r[j].rating {
          assert HigherRated()(sorted[i], sorted[j]);
        }
      }
      r
    }
  }

  /** Every product `getFeaturedProducts` leaves out is rated no higher than
      every product it returns. */
  lemma FeaturedAreTopRated(store: ProductStore, limit: Option<int>, x: Product, y: Product)
    requires x in store.GetFeaturedProducts(limit)
    requires y in multiset(store.allProducts) - multiset(store.GetFeaturedProducts(limit))
    ensures y.rating <= x.rating
  {
    var sorted := SortBy(store.allProducts, HigherRated());
    var r := store.GetFeaturedProducts(limit);
    SortBySorted(store.allProducts, HigherRated());
    PrefixDominates(sorted, |r|, x, y);
  }

  /** In a list sorted by rating, highest first, every element of a prefix is
      rated at least as high as every element after it. */
  lemma PrefixDominates(sorted: seq<Product>, k: nat, x: Product, y: Product)
    requires k <= |sorted|
    requires Sorted(sorted, HigherRated())
    requires x in sorted[..k]
    requires y in multiset(sorted) - multiset(sorted[..k])
    ensures y.rating <= x.rating
  {
    var rest := sorted[k..];
    assert sorted == sorted[..k] + rest;
    assert multiset(sorted) == multiset(sorted[..k]) + multiset(rest);
    assert y in rest;
    var i :| 0 <= i < k && sorted[..k][i] == x;
    var j :| 0 <= j < |rest| && rest[j] == y;
    assert HigherRated()(sorted[i], sorted[k + j]);
  }

  /** Right after start or `clearFilters`, the view is the catalog products
      priced from 0 to 10000, in catalog order. */
  lemma DefaultViewIsPriceBand(products: seq<Product>, locale: Locale)
    ensures ApplyFiltersAndSort(products, DefaultFilters, locale) == FilterByPriceRange(products, 0.0, 10000.0)
  {
  }
}
