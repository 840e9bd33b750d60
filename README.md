# Sports storefront: catalog, cart, wishlist and accounts, in Dafny

This project models the logic under the storefront's React screens. It covers:

- the catalog pipeline of `src/utils/helpers.js`: search, category, price, brand and rating filters, the keyed sort, and the combined `applyFiltersAndSort`;
- the validators, cart pricing and list/text helpers of the same file;
- the cart, wishlist, account and catalog providers of `src/context/`;
- the legacy 16-item product page.

Each provider's persisted or React state is a class with one field per state cell:

- `CartLedger.cart`;
- `WishlistStore.wishlist`;
- `IdentityStore.user` and `IdentityStore.users`;
- `ProductStore.filters`.

The state-updater bodies are pure functions, and each method is stated against the function it applies.

The model makes these choices:

- Numbers are exact. Prices and ratings are `real`; ids, quantities and review counts are `int`.
- `Array.prototype.sort` is stable (ECMA-262, 10th edition, section 22.1.3.27). It is modelled as insertion sort over the relation `compare(a, b) <= 0`, in module `StableSort`.
- `toLowerCase` and `localeCompare` are abstract functions carried in a `Locale` value. Ordering by name is proved whenever the collation is a total preorder.
- Modules:
  - `Seqs` holds JavaScript's `filter`, `find`/`findIndex`, `map` and `slice(0, end)`, including negative ends.
  - `Text` holds `trim`, `includes` and the `\s` white-space set.
  - `Catalog` holds the product and cart-line records.

Three behaviours of the code are worth stating:

- A subtotal of exactly 1000 pays shipping 50. Shipping is free only strictly above 1000 (`ShippingChargedAtThreshold`).
- `decreaseQuantity` on a line at quantity 1 keeps the line at 1 (`DecreaseAtOneKeepsCart`).
- `addToCart` accepts any product and does not check its id.

## Model

| member | source | states |
|---|---|---|
| Helpers.ValidateEmailIsPattern | src/utils/helpers.js:29-32 | the scanning check accepts a string exactly when it matches `^[^\s@]+@[^\s@]+\.[^\s@]+$`: no white space, one '@' with a non-empty local part, and a '.' after the '@' that is neither the first nor the last character of the domain |
| Helpers.ScoreCountsClasses | src/utils/helpers.js:41-50 | the strength score is the number of distinct classes present (upper, lower, digit, listed symbol) |
| Helpers.ClassPresentIff | src/utils/helpers.js:41-44 | a class is in the present-classes set exactly when some character of the password belongs to it |
| Helpers.FlaggedClasses | src/utils/helpers.js:50 | the set built from the four flags has one member per true flag |
| Helpers.ValidatePassword | src/utils/helpers.js:39-59 | under 8 characters: invalid, weak, with the length message, whatever the classes; otherwise valid iff at least 2 classes, medium iff exactly 2, strong iff 3 or 4, valid iff not weak, and the message names the strength: "too weak", "medium strength" or "strong" |
| Helpers.FilterBySearch | src/utils/helpers.js:75-86 | order-kept subsequence; a blank or white-space-only query returns the input; otherwise exactly the products whose lower-cased name, description, category, brand or some tag includes the lower-cased query, with their multiplicity |
| Helpers.FilterByCategory | src/utils/helpers.js:94-97 | subsequence; '' and 'all' return the input; otherwise exactly the products of that category |
| Helpers.FilterByPriceRange | src/utils/helpers.js:106-110 | subsequence keeping exactly the products with minPrice <= finalPrice <= maxPrice, both ends inclusive |
| Helpers.FilterByBrands | src/utils/helpers.js:118-121 | subsequence; an empty brand list returns the input; otherwise exactly the products whose brand is listed |
| Helpers.FilterByRating | src/utils/helpers.js:129-131 | subsequence keeping exactly the products with rating >= minRating |
| Helpers.SortProducts | src/utils/helpers.js:139-156 | a permutation of the input; an unknown key returns the input order |
| Helpers.PrecedesIsTotalPreorder | src/utils/helpers.js:143-152 | each of the five comparators is total and transitive (name given a total-preorder collation) |
| Helpers.SortProductsOrdered | src/utils/helpers.js:143-152 | price-low gives non-decreasing price, price-high non-increasing price, rating non-increasing rating, popular non-increasing reviews, name ascending collation |
| Helpers.SortProductsStable | src/utils/helpers.js:139-156 | products with equal sort keys keep their input order |
| Helpers.SearchStage | src/utils/helpers.js:168-170 | the search stage keeps exactly the products passing the search test when the query is truthy, and everything otherwise |
| Helpers.CategoryStage | src/utils/helpers.js:173-175 | the category stage keeps exactly the products passing the category test |
| Helpers.PriceStage | src/utils/helpers.js:178-180 | the price stage runs only when both bounds are defined and then keeps the in-range products |
| Helpers.BrandStage | src/utils/helpers.js:183-185 | the brand stage runs only for a non-empty brand list |
| Helpers.RatingStage | src/utils/helpers.js:188-190 | the rating stage is skipped for the falsy minRating 0 |
| Helpers.FilterStages | src/utils/helpers.js:165-190 | the five stages together keep, in order, exactly the products passing every active filter, each as often as in the input |
| Helpers.ApplyFiltersAndSort | src/utils/helpers.js:164-198 | the result holds exactly the products passing every active filter, each as often as in the input; without a known sort key the catalog order is kept |
| Helpers.ApplyFiltersAndSortOrdered | src/utils/helpers.js:193-195 | with a known sort key the result is ordered by that key |
| Helpers.TruncateText | src/utils/helpers.js:220-223 | a text no longer than maxLength is returned unchanged; a longer one becomes its first maxLength characters (none for a negative bound) followed by "..." |
| Helpers.GetRelatedProducts | src/utils/helpers.js:232-239 | exactly the first `limit` products (4 when no limit is given) of the current product's category with a different id, in catalog order; the count is what `slice(0, limit)` keeps, counted from the end for a negative limit |
| Helpers.RelatedProductsBound | src/utils/helpers.js:232-239 | at most `limit` related products come back (4 when no limit is given), and when fewer do, they are every related product, each as often as in the catalog |
| Helpers.ReduceSubtotalIsSum | src/utils/helpers.js:247 | the left-to-right `reduce` of line totals equals the sum of finalPrice times quantity |
| Helpers.ReduceItemCountIsSum | src/utils/helpers.js:257 | the left-to-right `reduce` of quantities equals their sum |
| Helpers.CalculateCartTotal | src/utils/helpers.js:246-259 | subtotal is the sum of line totals, itemCount the sum of quantities, tax 18% of subtotal, shipping 0 iff subtotal > 1000 and 50 otherwise, total their sum |
| Helpers.ShippingChargedAtThreshold | src/utils/helpers.js:249 | two units at 500 give subtotal 1000, shipping 50 and total 1230 |
| CartContext.GetItemQuantity | src/context/CartContext.jsx:93-96 | 0 for an id with no line; on a cart with distinct ids, the quantity of the line with that id |
| CartContext.InCartIffQuantity | src/context/CartContext.jsx:88-96 | with positive quantities, `isInCart(id)` holds iff `getItemQuantity(id) > 0` |
| CartContext.AddedToCart | src/context/CartContext.jsx:19-35 | a product already in the cart gets its line re-quantified in place; otherwise a new line with quantity 1 is appended at the end; keeps one line per id and quantities >= 1 |
| CartContext.AddedToCartLines | src/context/CartContext.jsx:19-35 | adding a product already in the cart keeps the length, adds 1 to its line and leaves every other line as it was |
| CartContext.AddedToCartQuantity | src/context/CartContext.jsx:19-35 | after adding, the product's quantity is one more and every other id's quantity is unchanged |
| CartContext.RemovedFromCart | src/context/CartContext.jsx:38-40 | an order-kept subsequence with no line for the id and every other line kept; keeps the cart invariants |
| CartContext.RemovedFromCartQuantity | src/context/CartContext.jsx:38-40 | after removing, the id's quantity is 0 and every other id's is unchanged |
| CartContext.WithQuantity | src/context/CartContext.jsx:43-56 | a quantity below 1 is exactly `removeFromCart`; otherwise the length is kept; keeps the cart invariants |
| CartContext.WithQuantityLines | src/context/CartContext.jsx:49-55 | with a quantity of at least 1, the lines with the id get that quantity in place; every line keeps its product record and position, and every other line is unchanged |
| CartContext.WithQuantityQuantity | src/context/CartContext.jsx:49-55 | with quantity >= 1 the id's quantity becomes exactly that value when it has a line and stays 0 otherwise; other ids unchanged |
| CartContext.Increased | src/context/CartContext.jsx:59-67 | the length is kept and the cart invariants are preserved |
| CartContext.IncreasedLines | src/context/CartContext.jsx:59-67 | the lines with the id gain 1 in place; every line keeps its product record and position, and every other line is unchanged |
| CartContext.IncreasedQuantity | src/context/CartContext.jsx:59-67 | the id's quantity grows by 1 when it has a line; every other quantity is unchanged |
| CartContext.Decreased | src/context/CartContext.jsx:70-80 | every remaining line has a positive quantity; with positive quantities the cart keeps all its lines; keeps the cart invariants |
| CartContext.DecreasedLines | src/context/CartContext.jsx:70-80 | on a cart with positive quantities, the lines with the id lose 1 in place when above 1 and stay as they are at 1; every line keeps its product record and position, and every other line is unchanged |
| CartContext.DecreasedQuantity | src/context/CartContext.jsx:70-80 | a quantity above 1 drops by 1; a quantity of 1 stays 1; other ids unchanged |
| CartContext.DecreaseAtOneKeepsCart | src/context/CartContext.jsx:72-78 | on a valid cart, decreasing an id at quantity 1 returns the cart unchanged |
| CartContext.AbsentIdLeavesCart | src/context/CartContext.jsx:38-80 | removing, setting, increasing or decreasing an id with no line changes nothing; in particular no line is inserted |
| CartContext.QuantityAfterRequantify | src/context/CartContext.jsx:49-66 | rewriting the quantity of the lines with an id changes the queried quantity of that id only |
| CartContext.RequantifyKeepsValid | src/context/CartContext.jsx:49-66 | a quantity rewrite that keeps quantities >= 1 keeps the cart invariants |
| CartContext.ItemCountAtLeastLines | src/context/CartContext.jsx:111-112 | with quantities >= 1, itemCount >= cartCount |
| CartContext.CartLedger.constructor | src/context/CartContext.jsx:16 | the ledger starts from the stored cart |
| CartContext.CartLedger.AddToCart | src/context/CartContext.jsx:19-35 | the new cart is `AddedToCart` of the old one; the product's quantity rises by 1; the invariants are kept |
| CartContext.CartLedger.RemoveFromCart | src/context/CartContext.jsx:38-40 | the new cart is `RemovedFromCart` of the old one and has no line for the id |
| CartContext.CartLedger.UpdateQuantity | src/context/CartContext.jsx:43-56 | the new cart is `WithQuantity` of the old one, by way of `removeFromCart` below 1 |
| CartContext.CartLedger.IncreaseQuantity | src/context/CartContext.jsx:59-67 | the new cart is `Increased` of the old one; the invariants are kept |
| CartContext.CartLedger.DecreaseQuantity | src/context/CartContext.jsx:70-80 | the new cart is `Decreased` of the old one; the invariants are kept |
| CartContext.CartLedger.ClearCart | src/context/CartContext.jsx:83-85 | the cart becomes empty |
| CartContext.CartLedger.Totals | src/context/CartContext.jsx:99-116 | the published totals are exactly `calculateCartTotal` of the current cart; they add up, and on a valid cart itemCount >= cartCount |
| WishlistContext.AddedToWishlist | src/context/WishlistContext.jsx:18-26 | a saved id leaves the list unchanged; otherwise the product is appended; distinct ids are kept |
| WishlistContext.RemovedFromWishlist | src/context/WishlistContext.jsx:29-33 | an order-kept subsequence without the id, every other entry kept; distinct ids are kept |
| WishlistContext.RemoveAbsentLeavesWishlist | src/context/WishlistContext.jsx:29-33 | removing an id that is not saved changes nothing |
| WishlistContext.Toggled | src/context/WishlistContext.jsx:36-43 | a saved product is removed; an unsaved one is added |
| WishlistContext.AddedMembership | src/context/WishlistContext.jsx:18-26 | after adding, the product's id is saved and every other id keeps its status |
| WishlistContext.RemovedMembership | src/context/WishlistContext.jsx:29-33 | after removing, the id is not saved and every other id keeps its status |
| WishlistContext.ToggleFlips | src/context/WishlistContext.jsx:36-43 | toggling flips the product's membership and keeps every other id's |
| WishlistContext.ToggleTwiceMembership | src/context/WishlistContext.jsx:36-43 | two toggles restore the membership of every id |
| WishlistContext.ToggleTwiceRestoresAbsent | src/context/WishlistContext.jsx:36-43 | two toggles of an unsaved product restore the list exactly |
| WishlistContext.SavedIdsCount | src/context/WishlistContext.jsx:62 | with distinct ids, the length equals the number of distinct saved ids |
| WishlistContext.WishlistStore.constructor | src/context/WishlistContext.jsx:15 | the store starts from the stored wishlist |
| WishlistContext.WishlistStore.AddToWishlist | src/context/WishlistContext.jsx:18-26 | the new list is `AddedToWishlist` of the old one, the id is saved, and distinct ids are kept |
| WishlistContext.WishlistStore.RemoveFromWishlist | src/context/WishlistContext.jsx:29-33 | the new list is `RemovedFromWishlist` of the old one and the id is not saved |
| WishlistContext.WishlistStore.ToggleWishlist | src/context/WishlistContext.jsx:36-43 | decided on the current list: the new list is `Toggled` of the old one and the id's membership is flipped |
| WishlistContext.WishlistStore.ClearWishlist | src/context/WishlistContext.jsx:46-48 | the list becomes empty |
| WishlistContext.WishlistStore.WishlistCount | src/context/WishlistContext.jsx:62 | on a valid list the count is the number of distinct saved ids |
| AuthContext.SignupRejection | src/context/AuthContext.jsx:28-43 | the checks run in order (email, then password with the validator's own message, then an existing user with the same email), and none fails exactly when the email is valid, the password valid and the email unregistered |
| AuthContext.LoginCheck | src/context/AuthContext.jsx:69-95 | an invalid email, then an unregistered email, each gives its message; acceptance means a stored user has that email and password and the session is its id, name and email; for a valid email the FIRST stored user with it decides, accepting exactly when its password matches and otherwise giving "Incorrect password" |
| AuthContext.UsersAfterUpdate | src/context/AuthContext.jsx:110-112 | every user with the session's id becomes that user merged with the updates; under the modelled updates, which carry only a name and an email, ids and passwords never change; every other user is kept |
| AuthContext.UpdateKeepsSessionInStore | src/context/AuthContext.jsx:103-112 | a stored user whose session is the current one still matches the session after both are updated and, under the modelled name and email updates, keeps its password |
| AuthContext.SignupKeepsEmailsUnique | src/context/AuthContext.jsx:40-55 | a signup that passes the checks keeps stored emails unique |
| AuthContext.LoginAfterSignup | src/context/AuthContext.jsx:25-95 | logging in with the credentials of a successful signup yields the session signup created |
| AuthContext.UpdateCanDuplicateEmail | src/context/AuthContext.jsx:103-115 | a profile update can give two stored users the same email |
| AuthContext.IdentityStore.constructor | src/context/AuthContext.jsx:16-17 | the store starts from the stored session and users |
| AuthContext.IdentityStore.Signup | src/context/AuthContext.jsx:25-66 | a failure returns the first failing check's message and changes nothing, authentication included; a success appends exactly the new user, signs it in without its password (authenticated afterwards), and keeps emails unique |
| AuthContext.IdentityStore.Login | src/context/AuthContext.jsx:69-95 | users never change; a rejection returns its message and keeps the session and authentication; acceptance sets the session to the found user's id, name and email and leaves the user authenticated |
| AuthContext.IdentityStore.Logout | src/context/AuthContext.jsx:98-100 | the session becomes null, the user is no longer authenticated, and users are unchanged |
| AuthContext.IdentityStore.UpdateProfile | src/context/AuthContext.jsx:103-115 | without a session: "Not authenticated" and no change; otherwise the session and the users with its id get the updates; authentication is unchanged either way |
| ProductContext.ProductStore.constructor | src/context/ProductContext.jsx:20-36 | after mount the catalog is loaded and the filters hold the defaults |
| ProductContext.ProductStore.UpdateSearch | src/context/ProductContext.jsx:45-47 | only the search field changes |
| ProductContext.ProductStore.UpdateCategory | src/context/ProductContext.jsx:50-52 | only the category field changes |
| ProductContext.ProductStore.UpdatePriceRange | src/context/ProductContext.jsx:55-57 | only the two price bounds change |
| ProductContext.ProductStore.UpdateBrands | src/context/ProductContext.jsx:60-62 | only the brand list changes |
| ProductContext.ProductStore.UpdateRating | src/context/ProductContext.jsx:65-67 | only the minimum rating changes |
| ProductContext.ProductStore.UpdateSort | src/context/ProductContext.jsx:70-72 | only the sort key changes |
| ProductContext.ProductStore.ClearFilters | src/context/ProductContext.jsx:75-85 | the filters return to the same defaults the provider starts with |
| ProductContext.ProductStore.FilteredProducts | src/context/ProductContext.jsx:39-42 | the view holds exactly the catalog products passing the current filters; catalog order is kept without a known sort key |
| ProductContext.DefaultViewIsPriceBand | src/context/ProductContext.jsx:20-42 | under the default filters the view is the products priced 0 to 10000, in catalog order |
| ProductContext.ProductStore.GetProductById | src/context/ProductContext.jsx:88-90 | none exactly when no product has the id; otherwise the first product with that id |
| ProductContext.ProductStore.GetProductsByCategory | src/context/ProductContext.jsx:93-96 | exactly the first `limit` products of the category in catalog order when `limit` is given and non-zero, counted as `slice(0, limit)` counts, from the end for a negative limit; all of them otherwise |
| ProductContext.ProductStore.GetFeaturedProducts | src/context/ProductContext.jsx:99-103 | the first `limit` products (8 when no limit is given) of the catalog stably sorted by rating, highest first, counted as `slice(0, limit)` counts; drawn from the catalog, in non-increasing rating order |
| ProductContext.FeaturedAreTopRated | src/context/ProductContext.jsx:99-103 | every product left out is rated no higher than every product returned |
| ProductsPage.Listing | src/Components/Products/Products.jsx:158-173 | the listing holds exactly the catalog items in the selected category (all for ''), each as often as in the catalog |
| ProductsPage.PageOrderIsTotalPreorder | src/Components/Products/Products.jsx:162-173 | the page's comparators are total and transitive |
| ProductsPage.ListingOrdered | src/Components/Products/Products.jsx:164-169 | price-low gives non-decreasing price, price-high non-increasing price, name ascending collation |
| ProductsPage.ListingStable | src/Components/Products/Products.jsx:158-173 | items with equal sort keys keep their catalog order |
| ProductsPage.ListingUnknownKeyKeepsOrder | src/Components/Products/Products.jsx:170-171 | with any other key the comparator returns 0 and the selection keeps catalog order |
| ProductsPage.InitialListingByPrice | src/Components/Products/Products.jsx:24-25 | with the initial empty category and "price-low" key, the listing holds every catalog item as often as in the catalog, cheapest first |
| ProductsPage.CatalogWellFormed | src/Components/Products/Products.jsx:27-156 | sixteen items with ids 1 to 16 in order, each in a category the selector offers |

## Left out

- Floating-point rounding of prices, tax and totals: all arithmetic is exact.
- The Unicode tables behind `toLowerCase` and `localeCompare`: both are abstract parameters.
- UTF-16 code units: string lengths count Dafny characters.
- `formatCurrency`, `formatDate`: locale-specific formatting.
- `calculateDiscount`: floating-point division and `Math.round`.
- `generateUniqueId`, `debounce`: randomness, clocks and timers.
- The `Date.now()` user id and the `createdAt` timestamp: signup takes them as parameters.
- The local-storage persistence hook: each stored value is a plain field that starts from the stored value.
- The provider before its mount effect: an empty catalog and empty view.
- The one-render lag of the effects that recompute `filteredProducts` and `isAuthenticated`: the model shows them after the effect has run.
- The page's two change handlers: they only store the selected value, which `Listing` takes as a parameter.
- `updateProfile` arguments other than `name` and `email`: other keys of the spread, including `id` and `password`, are not modelled. In the code such a key would overwrite the stored user's field and also enter the session; the model's updates cannot do that.
- Values of the wrong JavaScript type, such as a missing `query` or `brands`, or NaN numbers: parameters are typed.
- CartContext.Decreased: on a cart with non-positive quantities, the contract states only that such lines are dropped, not the exact result.
