/** The legacy products page: a fixed catalog of sixteen items, narrowed by
    an optional category and ordered by one of three sort keys. */
module ProductsPage {
  import opened Seqs
  import opened StableSort

  /** An item of the page's own catalog; prices are whole rupees. */
  datatype ListedProduct = ListedProduct(id: int, name: string, price: int, description: string, category: string)

  const AllProducts: seq<ListedProduct> := [
    ListedProduct(1, "Professional Cricket Bat", 2999, "High-quality cricket bat for professional players", "cricket"),
    ListedProduct(2, "Cricket Ball", 499, "Premium leather cricket ball", "cricket"),
    ListedProduct(3, "Premium Basketball", 1499, "Professional grade basketball", "basketball"),
    ListedProduct(4, "Match Football", 1299, "Official match football", "football"),
    ListedProduct(5, "Badminton Racket", 1999, "Professional badminton racket", "badminton"),
    ListedProduct(6, "Snooker Table", 49999, "Professional snooker table", "snooker"),
    ListedProduct(7, "Snooker Cue Stick", 2499, "Premium snooker cue stick", "snooker"),
    ListedProduct(8, "Hockey Stick", 1799, "Professional hockey stick", "hockey"),
    ListedProduct(9, "Table Tennis Set", 1299, "Complete table tennis set", "table-tennis"),
    ListedProduct(10, "Chess Set", 999, "Premium chess set", "board-games"),
    ListedProduct(11, "Carrom Board", 1499, "Professional carrom board", "board-games"),
    ListedProduct(12, "UNO Cards", 299, "Classic UNO card game", "board-games"),
    ListedProduct(13, "Playing Cards", 199, "Premium playing cards", "board-games"),
    ListedProduct(14, "Golf Kit", 29999, "Complete golf kit", "golf"),
    ListedProduct(15, "Golf Stick", 4999, "Professional golf stick", "golf"),
    ListedProduct(16, "Golf Balls Set", 999, "Premium golf balls set", "golf")
  ]

  /** The values of the category selector; '' stands for all categories. */
  const CategoryOptions: seq<string> :=
    ["", "cricket", "basketball", "football", "badminton", "snooker", "hockey", "table-tennis", "board-games", "golf"]

  const InitialCategory: string := ""
  const InitialSortBy: string := "price-low"

  /** The page's filter: an empty selection keeps every item. */
  predicate InSelection(selected: string, p: ListedProduct)
  {
    selected == "" || p.category == selected
  }

  /** The page's comparator as the relation `compare(a, b) <= 0`; an unknown
      key compares every pair as equal. */
  function PageOrder(sortBy: string, collate: (string, string) -> bool): (ListedProduct, ListedProduct) -> bool
  {
    if sortBy == "price-low" then (a: ListedProduct, b: ListedProduct) => a.price <= b.price
    else if sortBy == "price-high" then (a: ListedProduct, b: ListedProduct) => b.price <= a.price
    else if sortBy == "name" then (a: ListedProduct, b: ListedProduct) => collate(a.name, b.name)
    else (a: ListedProduct, b: ListedProduct) => true
  }

  /** `filteredProducts` of the page: the selected items, each as often as
      in the catalog, sorted in place by the page's comparator. */
  function Listing(products: seq<ListedProduct>, selected: string, sortBy: string, collate: (string, string) -> bool): (r: seq<ListedProduct>)
    ensures forall x :: multiset(r)[x] == if InSelection(selected, x) then multiset(products)[x] else 0
    ensures forall i | 0 <= i < |r| :: InSelection(selected, r[i])
  {
    var kept := Filter(products, (p: ListedProduct) => InSelection(selected, p));
    var r := SortBy(kept, PageOrder(sortBy, collate));
    assert forall i | 0 <= i < |r| :: r[i] in multiset(kept);
    r
  }

  lemma PageOrderIsTotalPreorder(sortBy: string, collate: (string, string) -> bool)
    requires sortBy == "name" ==> TotalPreorder(collate)
    ensures TotalPreorder(PageOrder(sortBy, collate))
  {
    var le := PageOrder(sortBy, collate);
    if sortBy == "name" {
      forall a: ListedProduct, b: ListedProduct ensures le(a, b) || le(b, a) {
        assert collate(a.name, b.name) || collate(b.name, a.name);
      }
      forall a: ListedProduct, b: ListedProduct, c: ListedProduct | le(a, b) && le(b, c) ensures le(a, c) {
        assert collate(a.name, b.name) && collate(b.name, c.name);
      }
    }
  }

  /** Each of the three keys orders the listing as it names. */
  lemma ListingOrdered(products: seq<ListedProduct>, selected: string, sortBy: string, collate: (string, string) -> bool)
    requires sortBy == "name" ==> TotalPreorder(collate)
    ensures var r := Listing(products, selected, sortBy, collate);
      && (sortBy == "price-low" ==> forall i, j | 0 <= i < j < |r| :: r[i].price <= r[j].price)
      && (sortBy == "price-high" ==> forall i, j | 0 <= i < j < |r| :: r[i].price >= r[j].price)
      && (sortBy == "name" ==> forall i, j | 0 <= i < j < |r| :: collate(r[i].name, r[j].name))
  {
    var kept := Filter(products, (p: ListedProduct) => InSelection(selected, p));
    PageOrderIsTotalPreorder(sortBy, collate);
    SortBySorted(kept, PageOrder(sortBy, collate));
  }

  /** Items the key does not tell apart keep their catalog order. */
  lemma ListingStable(products: seq<ListedProduct>, selected: string, sortBy: string, collate: (string, string) -> bool, k: ListedProduct)
    requires sortBy == "name" ==> TotalPreorder(collate)
    ensures var same := SameKeyAs(PageOrder(sortBy, collate), k);
      Filter(Listing(products, selected, sortBy, collate), same)
        == Filter(Filter(products, (p: ListedProduct) => InSelection(selected, p)), same)
  {
    var kept := Filter(products, (p: ListedProduct) => InSelection(selected, p));
    PageOrderIsTotalPreorder(sortBy, collate);
    SortByStable(kept, PageOrder(sortBy, collate), k);
  }

  /** With a key the comparator does not know, the listing is the selected
      items in catalog order. */
  lemma ListingUnknownKeyKeepsOrder(products: seq<ListedProduct>, selected: string, sortBy: string, collate: (string, string) -> bool)
    requires sortBy != "price-low" && sortBy != "price-high" && sortBy != "name"
    ensures IsSubseq(Listing(products, selected, sortBy, collate), products)
  {
    var kept := Filter(products, (p: ListedProduct) => InSelection(selected, p));
    FilterIsSubseq(products, (p: ListedProduct) => InSelection(selected, p));
    SortByAllEqual(kept, PageOrder(sortBy, collate));
  }

  /** The page as first shown: every catalog item, each as often as in the
      catalog, cheapest first. */
  lemma InitialListingByPrice(products: seq<ListedProduct>, collate: (string, string) -> bool)
    ensures var r := Listing(products, InitialCategory, InitialSortBy, collate);
      && |r| == |products|
      && multiset(r) == multiset(products)
      && forall i, j | 0 <= i < j < |r| :: r[i].price <= r[j].price
  {
    var r := Listing(products, InitialCategory, InitialSortBy, collate);
    ListingOrdered(products, InitialCategory, InitialSortBy, collate);
    assert multiset(r) == multiset(products) by {
      forall x ensures multiset(r)[x] == multiset(products)[x] {
        assert InSelection(InitialCategory, x);
      }
    }
    assert |r| == |multiset(r)|;
  }

  /** The catalog's ids are 1 to 16 in order, so no two items share one, and
      every item's category is offered by the selector. */
  lemma CatalogWellFormed()
    ensures |AllProducts| == 16
    ensures forall i | 0 <= i < |AllProducts| :: AllProducts[i].id == i + 1
    ensures forall i | 0 <= i < |AllProducts| :: AllProducts[i].category in CategoryOptions
  {
  }
}
