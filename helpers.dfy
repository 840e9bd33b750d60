/** The deterministic part of `src/utils/helpers.js`: the two validators,
    the five catalog filters, the keyed sort and the pipeline that chains
    them, and the text, related-products and cart-pricing helpers. */
module Helpers {
  import opened Seqs
  import opened StableSort
  import opened Text
  import opened Catalog

  // ------------------------------------------------------------ validateEmail

  /** A character of the regular-expression class `[^\s@]`. */
  predicate EmailAtom(c: char)
  {
    c != '@' && !IsWhitespace(c)
  }

  predicate AllEmailAtoms(s: string)
  {
    forall i | 0 <= i < |s| :: EmailAtom(s[i])
  }

  /** The language of `/^[^\s@]+@[^\s@]+\.[^\s@]+$/`: the string splits at
      an '@' and a later '.' into three non-empty runs of `[^\s@]`. */
  ghost predicate MatchesEmailPattern(s: string)
  {
    exists at, dot | 0 < at && at + 1 < dot && dot + 1 < |s| ::
      && s[at] == '@' && s[dot] == '.'
      && AllEmailAtoms(s[..at]) && AllEmailAtoms(s[at + 1..dot]) && AllEmailAtoms(s[dot + 1..])
  }

  /** `validateEmail`: no white space, exactly one '@' with something before
      it, and after it a '.' that is neither its first nor its last character. */
  function ValidateEmail(email: string): bool
  {
    var at := FindIndex(email, c => c == '@');
    && at > 0
    && (forall i | 0 <= i < |email| :: !IsWhitespace(email[i]) && (email[i] == '@' ==> i == at))
    && (exists d | at + 1 < d < |email| - 1 :: email[d] == '.')
  }

  lemma ValidateEmailSound(email: string)
    requires ValidateEmail(email)
    ensures MatchesEmailPattern(email)
  {
    var at := FindIndex(email, c => c == '@');
    var d :| at + 1 < d < |email| - 1 && email[d] == '.';
    forall i | 0 <= i < |email| && i != at ensures EmailAtom(email[i]) {
    }
    assert AllEmailAtoms(email[..at]) by {
      forall i | 0 <= i < at ensures EmailAtom(email[..at][i]) {
        assert email[..at][i] == email[i];
      }
    }
    assert AllEmailAtoms(email[at + 1..d]) by {
      var part := email[at + 1..d];
      forall i | 0 <= i < |part| ensures EmailAtom(part[i]) {
        assert part[i] == email[at + 1 + i];
      }
    }
    assert AllEmailAtoms(email[d + 1..]) by {
      var part := email[d + 1..];
      forall i | 0 <= i < |part| ensures EmailAtom(part[i]) {
        assert part[i] == email[d + 1 + i];
      }
    }
    assert email[at] == '@' && email[d] == '.';
  }

  lemma ValidateEmailComplete(email: string)
    requires MatchesEmailPattern(email)
    ensures ValidateEmail(email)
  {
    var a, d :| 0 < a && a + 1 < d && d + 1 < |email|
      && email[a] == '@' && email[d] == '.'
      && AllEmailAtoms(email[..a]) && AllEmailAtoms(email[a + 1..d]) && AllEmailAtoms(email[d + 1..]);
    forall i | 0 <= i < |email| && i != a && i != d ensures EmailAtom(email[i]) {
      if i < a {
        assert email[..a][i] == email[i];
      } else if i < d {
        assert email[a + 1..d][i - a - 1] == email[i];
      } else {
        assert email[d + 1..][i - d - 1] == email[i];
      }
    }
    assert FindIndex(email, c => c == '@') == a;
  }

  /** The four conditions that `ValidateEmail` checks accept exactly the
      strings the regular expression of `validateEmail` matches. */
  lemma ValidateEmailIsPattern(email: string)
    ensures ValidateEmail(email) <==> MatchesEmailPattern(email)
  {
    if ValidateEmail(email) {
      ValidateEmailSound(email);
    }
    if MatchesEmailPattern(email) {
      ValidateEmailComplete(email);
    }
  }

  // --------------------------------------------------------- validatePassword

  datatype Strength = Weak | Medium | Strong

  /** The object `validatePassword` returns. */
  datatype PasswordCheck = PasswordCheck(valid: bool, strength: Strength, message: string)

  const MinPasswordLength: nat := 8

  /** The characters of the class `[!@#$%^&*(),.?":{}|<>]`. */
  const PasswordSymbols: string := "!@#$%^&*(),.?\":{}|<>"

  /** The four character classes whose presence is scored. */
  datatype CharClass = Upper | Lower | Digit | Symbol

  const AllClasses: set<CharClass> := {Upper, Lower, Digit, Symbol}

  predicate InClass(c: char, k: CharClass)
  {
    match k
    case Upper => 'A' <= c <= 'Z'
    case Lower => 'a' <= c <= 'z'
    case Digit => '0' <= c <= '9'
    case Symbol => c in PasswordSymbols
  }

  /** Some character of the password belongs to class `k`. */
  predicate HasClass(pw: string, k: CharClass)
  {
    exists i | 0 <= i < |pw| :: InClass(pw[i], k)
  }

  /** The classes that occur in `pw`. */
  ghost function ClassesPresent(pw: string): set<CharClass>
  {
    set k | k in AllClasses && HasClass(pw, k)
  }

  /** How many of the four classes occur, counted flag by flag. */
  function StrengthScore(pw: string): nat
  {
    (if HasClass(pw, Upper) then 1 else 0) + (if HasClass(pw, Lower) then 1 else 0)
    + (if HasClass(pw, Digit) then 1 else 0) + (if HasClass(pw, Symbol) then 1 else 0)
  }

  lemma ClassPresentIff(pw: string, k: CharClass)
    ensures k in ClassesPresent(pw) <==> HasClass(pw, k)
  {
    assert k in AllClasses by {
      match k
      case Upper =>
      case Lower =>
      case Digit =>
      case Symbol =>
    }
  }

  /** The set holding the classes whose flag is set. */
  function FlaggedClasses(hu: bool, hl: bool, hd: bool, hs: bool): (r: set<CharClass>)
    ensures |r| == (if hu then 1 else 0) + (if hl then 1 else 0) + (if hd then 1 else 0) + (if hs then 1 else 0)
    ensures forall k :: k in r <==> match k
      case Upper => hu
      case Lower => hl
      case Digit => hd
      case Symbol => hs
  {
    var s1: set<CharClass> := if hu then {Upper} else {};
    var s2 := if hl then s1 + {Lower} else s1;
    var s3 := if hd then s2 + {Digit} else s2;
    if hs then s3 + {Symbol} else s3
  }

  /** The score is the number of distinct classes present. */
  lemma ScoreCountsClasses(pw: string)
    ensures StrengthScore(pw) == |ClassesPresent(pw)|
  {
    var flagged := FlaggedClasses(HasClass(pw, Upper), HasClass(pw, Lower), HasClass(pw, Digit), HasClass(pw, Symbol));
    forall k ensures k in ClassesPresent(pw) <==> k in flagged {
      ClassPresentIff(pw, k);
    }
    assert ClassesPresent(pw) == flagged;
  }

  /** `validatePassword`. Too short is invalid whatever the classes; otherwise
      two classes make a medium and three or four a strong password. */
  function ValidatePassword(pw: string): (r: PasswordCheck)
    ensures |pw| < MinPasswordLength ==>
      r == PasswordCheck(false, Weak, "Password must be at least 8 characters")
    ensures |pw| >= MinPasswordLength ==> (r.valid <==> |ClassesPresent(pw)| >= 2)
    ensures r.strength == Medium <==> |pw| >= MinPasswordLength && |ClassesPresent(pw)| == 2
    ensures r.strength == Strong <==> |pw| >= MinPasswordLength && |ClassesPresent(pw)| >= 3
    ensures r.valid <==> r.strength != Weak
    ensures |pw| >= MinPasswordLength ==>
      r.message == match r.strength
        case Weak => "Password is too weak"
        case Medium => "Password is medium strength"
        case Strong => "Password is strong"
  {
    ScoreCountsClasses(pw);
    if |pw| < MinPasswordLength then
      PasswordCheck(false, Weak, "Password must be at least 8 characters")
    else
      var score := StrengthScore(pw);
      if score < 2 then PasswordCheck(false, Weak, "Password is too weak")
      else if score < 3 then PasswordCheck(true, Medium, "Password is medium strength")
      else PasswordCheck(true, Strong, "Password is strong")
  }

  // ------------------------------------------------------------------ filters

  /** The test of `filterProductsBySearch`: the lower-cased query occurs in
      the lower-cased name, description, category or brand, or in a tag. */
  predicate SearchHit(lower: string -> string, query: string, p: Product)
  {
    var q := lower(query);
    || Includes(lower(p.name), q) || Includes(lower(p.description), q)
    || Includes(lower(p.category), q) || Includes(lower(p.brand), q)
    || exists i | 0 <= i < |p.tags| :: Includes(lower(p.tags[i]), q)
  }

  /** `filterProductsBySearch`. A blank query keeps everything. */
  function FilterBySearch(products: seq<Product>, query: string, lower: string -> string): (r: seq<Product>)
    ensures IsSubseq(r, products)
    ensures IsBlank(query) ==> r == products
    ensures !IsBlank(query) ==>
      forall x :: multiset(r)[x] == if SearchHit(lower, query, x) then multiset(products)[x] else 0
  {
    TrimEmptyIffBlank(query);
    SubseqReflexive(products);
    if Trim(query) == [] then products
    else
      FilterIsSubseq(products, (p: Product) => SearchHit(lower, query, p));
      Filter(products, (p: Product) => SearchHit(lower, query, p))
  }

  /** `filterProductsByCategory`. The selectors '' and 'all' keep everything. */
  function FilterByCategory(products: seq<Product>, category: string): (r: seq<Product>)
    ensures IsSubseq(r, products)
    ensures category == "" || category == "all" ==> r == products
    ensures category != "" && category != "all" ==>
      forall x :: multiset(r)[x] == if x.category == category then multiset(products)[x] else 0
  {
    SubseqReflexive(products);
    if category == "" || category == "all" then products
    else
      FilterIsSubseq(products, (p: Product) => p.category == category);
      Filter(products, (p: Product) => p.category == category)
  }

  /** `filterProductsByPriceRange`: both bounds inclusive. */
  function FilterByPriceRange(products: seq<Product>, minPrice: real, maxPrice: real): (r: seq<Product>)
    ensures IsSubseq(r, products)
    ensures forall x :: multiset(r)[x] == if minPrice <= x.finalPrice <= maxPrice then multiset(products)[x] else 0
  {
    FilterIsSubseq(products, (p: Product) => p.finalPrice >= minPrice && p.finalPrice <= maxPrice);
    Filter(products, (p: Product) => p.finalPrice >= minPrice && p.finalPrice <= maxPrice)
  }

  /** `filterProductsByBrands`. An empty brand list keeps everything. */
  function FilterByBrands(products: seq<Product>, brands: seq<string>): (r: seq<Product>)
    ensures IsSubseq(r, products)
    ensures brands == [] ==> r == products
    ensures brands != [] ==>
      forall x :: multiset(r)[x] == if x.brand in brands then multiset(products)[x] else 0
  {
    SubseqReflexive(products);
    if brands == [] then products
    else
      FilterIsSubseq(products, (p: Product) => p.brand in brands);
      Filter(products, (p: Product) => p.brand in brands)
  }

  /** `filterProductsByRating`: rating at least the threshold. */
  function FilterByRating(products: seq<Product>, minRating: real): (r: seq<Product>)
    ensures IsSubseq(r, products)
    ensures forall x :: multiset(r)[x] == if x.rating >= minRating then multiset(products)[x] else 0
  {
    FilterIsSubseq(products, (p: Product) => p.rating >= minRating);
    Filter(products, (p: Product) => p.rating >= minRating)
  }

  // --------------------------------------------------------------------- sort

  /** The keys `sortProducts` knows. */
  predicate IsSortKey(sortBy: string)
  {
    sortBy in {"price-low", "price-high", "rating", "name", "popular"}
  }

  /** The comparator `sortProducts` picks for `sortBy`, as the relation
      `compare(a, b) <= 0`. */
  function Precedes(sortBy: string, collate: (string, string) -> bool): (Product, Product) -> bool
  {
    if sortBy == "price-low" then (a: Product, b: Product) => a.finalPrice <= b.finalPrice
    else if sortBy == "price-high" then (a: Product, b: Product) => b.finalPrice <= a.finalPrice
    else if sortBy == "rating" then (a: Product, b: Product) => b.rating <= a.rating
    else if sortBy == "name" then (a: Product, b: Product) => collate(a.name, b.name)
    else (a: Product, b: Product) => b.reviews <= a.reviews
  }

  /** `sortProducts`: sorts a copy; an unknown key returns the copy as is. */
  function SortProducts(products: seq<Product>, sortBy: string, collate: (string, string) -> bool): (r: seq<Product>)
    ensures multiset(r) == multiset(products)
    ensures !IsSortKey(sortBy) ==> r == products
  {
    if IsSortKey(sortBy) then SortBy(products, Precedes(sortBy, collate)) else products
  }

  lemma PrecedesIsTotalPreorder(sortBy: string, collate: (string, string) -> bool)
    requires sortBy == "name" ==> TotalPreorder(collate)
    ensures TotalPreorder(Precedes(sortBy, collate))
  {
    var le := Precedes(sortBy, collate);
    if sortBy == "name" {
      forall a: Product, b: Product ensures le(a, b) || le(b, a) {
        assert collate(a.name, b.name) || collate(b.name, a.name);
      }
      forall a: Product, b: Product, c: Product | le(a, b) && le(b, c) ensures le(a, c) {
        assert collate(a.name, b.name) && collate(b.name, c.name);
      }
    }
  }

  /** Each key yields the order it names. */
  lemma SortProductsOrdered(products: seq<Product>, sortBy: string, collate: (string, string) -> bool)
    requires sortBy == "name" ==> TotalPreorder(collate)
    ensures var r := SortProducts(products, sortBy, collate);
      && (sortBy == "price-low" ==> forall i, j | 0 <= i < j < |r| :: r[i].finalPrice <= r[j].finalPrice)
      && (sortBy == "price-high" ==> forall i, j | 0 <= i < j < |r| :: r[i].finalPrice >= r[j].finalPrice)
      && (sortBy == "rating" ==> forall i, j | 0 <= i < j < |r| :: r[i].rating >= r[j].rating)
      && (sortBy == "popular" ==> forall i, j | 0 <= i < j < |r| :: r[i].reviews >= r[j].reviews)
      && (sortBy == "name" ==> forall i, j | 0 <= i < j < |r| :: collate(r[i].name, r[j].name))
  {
    if IsSortKey(sortBy) {
      PrecedesIsTotalPreorder(sortBy, collate);
      SortBySorted(products, Precedes(sortBy, collate));
    }
  }

  /** Products with equal keys keep their relative input order. */
  lemma SortProductsStable(products: seq<Product>, sortBy: string, collate: (string, string) -> bool, k: Product)
    requires sortBy == "name" ==> TotalPreorder(collate)
    ensures var same := SameKeyAs(Precedes(sortBy, collate), k);
      Filter(SortProducts(products, sortBy, collate), same) == Filter(products, same)
  {
    if IsSortKey(sortBy) {
      PrecedesIsTotalPreorder(sortBy, collate);
      SortByStable(products, Precedes(sortBy, collate), k);
    }
  }

  // ----------------------------------------------------------------- pipeline

  /** The filter object: `minPrice`/`maxPrice` may be undefined (None). */
  datatype Filters = Filters(
    search: string,
    category: string,
    minPrice: Option<real>,
    maxPrice: Option<real>,
    brands: seq<string>,
    minRating: real,
    sortBy: string)

  predicate SearchOk(f: Filters, lower: string -> string, x: Product)
  {
    IsBlank(f.search) || SearchHit(lower, f.search, x)
  }

  predicate CategoryOk(f: Filters, x: Product)
  {
    f.category == "" || f.category == "all" || x.category == f.category
  }

  predicate PriceOk(f: Filters, x: Product)
  {
    f.minPrice.None? || f.maxPrice.None? || f.minPrice.value <= x.finalPrice <= f.maxPrice.value
  }

  predicate BrandOk(f: Filters, x: Product)
  {
    f.brands == [] || x.brand in f.brands
  }

  predicate RatingOk(f: Filters, x: Product)
  {
    f.minRating == 0.0 || x.rating >= f.minRating
  }

  /** A product passes every predicate the filter object activates. */
  predicate Matches(f: Filters, lower: string -> string, x: Product)
  {
    SearchOk(f, lower, x) && CategoryOk(f, x) && PriceOk(f, x) && BrandOk(f, x) && RatingOk(f, x)
  }

  /** The search stage: it runs only for a non-empty search text. */
  function SearchStage(s: seq<Product>, f: Filters, lower: string -> string): (r: seq<Product>)
    ensures IsSubseq(r, s)
    ensures forall x :: multiset(r)[x] == if SearchOk(f, lower, x) then multiset(s)[x] else 0
  {
    SubseqReflexive(s);
    if f.search != "" then FilterBySearch(s, f.search, lower) else s
  }

  /** The category stage: it runs only for a non-empty category. */
  function CategoryStage(s: seq<Product>, f: Filters): (r: seq<Product>)
    ensures IsSubseq(r, s)
    ensures forall x :: multiset(r)[x] == if CategoryOk(f, x) then multiset(s)[x] else 0
  {
    SubseqReflexive(s);
    if f.category != "" then FilterByCategory(s, f.category) else s
  }

  /** The price stage: it runs only when both bounds are defined. */
  function PriceStage(s: seq<Product>, f: Filters): (r: seq<Product>)
    ensures IsSubseq(r, s)
    ensures forall x :: multiset(r)[x] == if PriceOk(f, x) then multiset(s)[x] else 0
  {
    SubseqReflexive(s);
    if f.minPrice.Some? && f.maxPrice.Some? then FilterByPriceRange(s, f.minPrice.value, f.maxPrice.value) else s
  }

  /** The brand stage: it runs only for a non-empty brand list. */
  function BrandStage(s: seq<Product>, f: Filters): (r: seq<Product>)
    ensures IsSubseq(r, s)
    ensures forall x :: multiset(r)[x] == if BrandOk(f, x) then multiset(s)[x] else 0
  {
    SubseqReflexive(s);
    if |f.brands| > 0 then FilterByBrands(s, f.brands) else s
  }

  /** The rating stage: a minimum rating of 0 skips it. */
  function RatingStage(s: seq<Product>, f: Filters): (r: seq<Product>)
    ensures IsSubseq(r, s)
    ensures forall x :: multiset(r)[x] == if RatingOk(f, x) then multiset(s)[x] else 0
  {
    SubseqReflexive(s);
    if f.minRating != 0.0 then FilterByRating(s, f.minRating) else s
  }

  /** The five filter stages of `applyFiltersAndSort`, in source order. */
  function FilterStages(products: seq<Product>, f: Filters, lower: string -> string): (r: seq<Product>)
    ensures IsSubseq(r, products)
    ensures forall x :: multiset(r)[x] == if Matches(f, lower, x) then multiset(products)[x] else 0
  {
    var s1 := SearchStage(products, f, lower);
    var s2 := CategoryStage(s1, f);
    var s3 := PriceStage(s2, f);
    var s4 := BrandStage(s3, f);
    var s5 := RatingStage(s4, f);
    SubseqTransitive(s2, s1, products);
    SubseqTransitive(s3, s2, products);
    SubseqTransitive(s4, s3, products);
    SubseqTransitive(s5, s4, products);
    s5
  }

  /** `applyFiltersAndSort`: the product passes every active filter, with
      its multiplicity; without a known sort key the catalog order is kept. */
  function ApplyFiltersAndSort(products: seq<Product>, f: Filters, locale: Locale): (r: seq<Product>)
    ensures forall x :: multiset(r)[x] == if Matches(f, locale.lower, x) then multiset(products)[x] else 0
    ensures !IsSortKey(f.sortBy) ==> IsSubseq(r, products)
  {
    var filtered := FilterStages(products, f, locale.lower);
    if f.sortBy != "" then SortProducts(filtered, f.sortBy, locale.collate) else filtered
  }

  /** With a known sort key, the view is in that key's order. */
  lemma ApplyFiltersAndSortOrdered(products: seq<Product>, f: Filters, locale: Locale)
    requires IsSortKey(f.sortBy)
    requires f.sortBy == "name" ==> TotalPreorder(locale.collate)
    ensures Sorted(ApplyFiltersAndSort(products, f, locale), Precedes(f.sortBy, locale.collate))
  {
    PrecedesIsTotalPreorder(f.sortBy, locale.collate);
    SortBySorted(FilterStages(products, f, locale.lower), Precedes(f.sortBy, locale.collate));
  }

  // ------------------------------------------------------ text and list helpers

  /** `truncateText`: a text that fits is returned as is; a longer one is cut
      to `maxLength` characters (none when it is negative) and gets "...". */
  function TruncateText(text: string, maxLength: int): (r: string)
    ensures |text| <= maxLength ==> r == text
    ensures |text| > maxLength ==>
      var k := if maxLength < 0 then 0 else maxLength;
      |r| == k + 3 && r[..k] == text[..k] && r[k..] == "..."
  {
    if |text| <= maxLength then text
    else text[..if maxLength < 0 then 0 else maxLength] + "..."
  }

  const DefaultRelatedLimit: int := 4

  predicate IsRelated(current: Product, p: Product)
  {
    p.id != current.id && p.category == current.category
  }

  /** The limit a call uses: the one given, or the default when absent. */
  function LimitOr(limit: Option<int>, default: int): int
  {
    if limit.Some? then limit.value else default
  }

  function RelatedTo(current: Product): Product -> bool
  {
    (p: Product) => IsRelated(current, p)
  }

  /** `getRelatedProducts`: the first `limit` products of the current one's
      category other than itself, in catalog order; an absent limit is 4. */
  function GetRelatedProducts(products: seq<Product>, current: Product, limit: Option<int>): (r: seq<Product>)
    ensures var related := Filter(products, RelatedTo(current));
      |r| == SliceEnd(|related|, LimitOr(limit, DefaultRelatedLimit)) && r == related[..|r|]
    ensures IsSubseq(r, products)
    ensures forall i | 0 <= i < |r| :: r[i].category == current.category && r[i].id != current.id
  {
    var related := Filter(products, RelatedTo(current));
    FilterIsSubseq(products, RelatedTo(current));
    var r := SliceTo(related, LimitOr(limit, DefaultRelatedLimit));
    PrefixIsSubseq(related, |r|);
    SubseqTransitive(r, related, products);
    r
  }

  /** At most `limit` related products are returned, and when fewer come
      back, they are all of them, each as often as in the catalog. */
  lemma RelatedProductsBound(products: seq<Product>, current: Product, limit: Option<int>)
    ensures var r := GetRelatedProducts(products, current, limit);
      var n := LimitOr(limit, DefaultRelatedLimit);
      && (n >= 0 ==> |r| <= n)
      && (|r| < n ==> forall x :: multiset(r)[x] == if IsRelated(current, x) then multiset(products)[x] else 0)
  {
    var related := Filter(products, RelatedTo(current));
    var r := GetRelatedProducts(products, current, limit);
    var n := LimitOr(limit, DefaultRelatedLimit);
    if |r| < n {
      assert r == related;
      forall x ensures multiset(r)[x] == if IsRelated(current, x) then multiset(products)[x] else 0 {
        assert RelatedTo(current)(x) == IsRelated(current, x);
      }
    }
  }

  // ------------------------------------------------------------- cart totals

  /** The object `calculateCartTotal` returns. */
  datatype CartTotals = CartTotals(subtotal: real, tax: real, shipping: real, total: real, itemCount: int)

  const TaxRate: real := 0.18
  const FreeShippingAbove: real := 1000.0
  const FlatShipping: real := 50.0

  function LineTotal(item: CartItem): real
  {
    item.product.finalPrice * item.quantity as real
  }

  /** The sum of the line totals. */
  function Subtotal(items: seq<CartItem>): real
  {
    if items == [] then 0.0 else LineTotal(items[0]) + Subtotal(items[1..])
  }

  /** The sum of the quantities. */
  function ItemCount(items: seq<CartItem>): int
  {
    if items == [] then 0 else items[0].quantity + ItemCount(items[1..])
  }

  /** The subtotal as `calculateCartTotal` folds it: line totals added left to
      right onto `acc`. */
  function ReduceSubtotal(items: seq<CartItem>, acc: real): real
  {
    if items == [] then acc else ReduceSubtotal(items[1..], acc + LineTotal(items[0]))
  }

  /** The item count as `calculateCartTotal` folds it: quantities added left
      to right onto `acc`. */
  function ReduceItemCount(items: seq<CartItem>, acc: int): int
  {
    if items == [] then acc else ReduceItemCount(items[1..], acc + items[0].quantity)
  }

  lemma {:induction false} ReduceSubtotalIsSum(items: seq<CartItem>, acc: real)
    ensures ReduceSubtotal(items, acc) == acc + Subtotal(items)
  {
    if items != [] {
      ReduceSubtotalIsSum(items[1..], acc + LineTotal(items[0]));
    }
  }

  lemma {:induction false} ReduceItemCountIsSum(items: seq<CartItem>, acc: int)
    ensures ReduceItemCount(items, acc) == acc + ItemCount(items)
  {
    if items != [] {
      ReduceItemCountIsSum(items[1..], acc + items[0].quantity);
    }
  }

  /** `calculateCartTotal`: 18% tax; shipping is free only strictly above 1000. */
  function CalculateCartTotal(items: seq<CartItem>): (r: CartTotals)
    ensures r.subtotal == Subtotal(items) && r.itemCount == ItemCount(items)
    ensures r.tax == r.subtotal * TaxRate
    ensures r.shipping == 0.0 <==> r.subtotal > FreeShippingAbove
    ensures r.shipping != 0.0 ==> r.shipping == FlatShipping
    ensures r.total == r.subtotal + r.tax + r.shipping
  {
    ReduceSubtotalIsSum(items, 0.0);
    ReduceItemCountIsSum(items, 0);
    var subtotal := ReduceSubtotal(items, 0.0);
    var tax := subtotal * TaxRate;
    var shipping := if subtotal > FreeShippingAbove then 0.0 else FlatShipping;
    CartTotals(subtotal, tax, shipping, subtotal + tax + shipping, ReduceItemCount(items, 0))
  }

  /** A subtotal of exactly 1000 still pays the flat shipping charge. */
  lemma ShippingChargedAtThreshold(p: Product)
    requires p.finalPrice == 500.0
    ensures var t := CalculateCartTotal([CartItem(p, 2)]);
      t.subtotal == 1000.0 && t.shipping == 50.0 && t.total == 1230.0
  {
    assert Subtotal([CartItem(p, 2)]) == 1000.0 by {
      assert [CartItem(p, 2)][1..] == [];
    }
  }
}
