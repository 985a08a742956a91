# Storefront decision rules, modelled in Dafny

A model of the decision logic of a React storefront for jewellery and
clothing: the shop listing (filter, five sort orders, the creation-time
fallback read from a MongoDB ObjectId, 20-item pages, derived price bounds,
the category list), the price-range filter panel, image URL resolution, the
checkout address checks and order placement, the cart and wishlist actions
of the product details page, the product card and the cart page, the OTP
login steps with the resend cooldown, the landing page's category buckets,
popular-category keys and slide show, and the navigation bar's menus.

One file per source file, one module each:

| file | module | source |
|---|---|---|
| common.dfy | `Common` | string and list helpers the pages share (the falsy-string fallback, `trim`, `toLowerCase`, `includes`, ordinal `localeCompare`, `Set` de-duplication, cyclic indices) |
| catalog.dfy | `Catalog` | the product record and the cart/wishlist entry built from it |
| session.dfy | `Session` | the authentication, cart and wishlist contexts as one `Client` object holding sets of ids, a log of the store calls made, the navigation history and the login-modal signal |
| shop.dfy | `Shop` | src/pages/Shop.jsx |
| filter_panel.dfy | `FilterPanel` | src/components/FilterPanel.jsx |
| image_url.dfy | `ImageUrl` | src/utils/imageUrl.js |
| checkout.dfy | `Checkout` | src/pages/Checkout.jsx |
| product_details.dfy | `ProductDetails` | src/pages/ProductDetails.jsx |
| product_card.dfy | `ProductCard` | src/components/ProductCard.jsx |
| cart.dfy | `Cart` | src/pages/Cart.jsx |
| login.dfy | `Login` | src/pages/Login.jsx |
| welcome.dfy | `Welcome` | src/pages/Welcome.jsx |
| navbar.dfy | `Navbar` | src/components/Navbar.jsx |

Pure computations (the listing pipeline, the image URL rules, the address
join, the id precedences, the key normalisation) are functions with lemmas.
Handlers that update React state step by step are methods of a class per
component whose fields are that state. The price-range handler keeps its
two-element `next` array. The checkout's `errs` map and the landing page's
bucket arrays are built by loops with invariants. The cart, wishlist and
authentication contexts are not part of this model. Their observable
behaviour is a set of ids per store: add puts the id in, remove takes it
out. Every call a page makes is appended to `Client.requests`, so each
handler's `ensures` states exactly which store calls it made.

Modelling conventions:

- Prices are `Option<real>`. `None` is an `undefined` or non-numeric price, which fails every comparison, as `NaN` does. A `null` or `""` price is `Some(0.0)`: JavaScript compares both as 0 and `Number` turns both into 0.
- An absent or falsy string field is `""`. Absent numbers, flags and arrays are `None`.
- `localeCompare` is ordinal lexicographic order on Unicode code points, and string lengths count code points.
- `toLowerCase`/`toUpperCase` are modelled on ASCII letters only.
- `\s` and `trim` use the white-space set of section 12.2 and 12.3 of ECMA-262.
- `localStorage` is a `map<string, string>`. `JSON.parse` is a function parameter that may return `None`.
- Network replies, the payment gateway, the screen width and timers are inputs: outcome datatypes, a boolean, and tick methods.

## Model

| member | source | states |
|---|---|---|
| Common.NextIndex | src/components/ProductCard.jsx:38 | `(i + 1) % n` stays in [0, n) and wraps from n-1 to 0 |
| Common.PrevIndex | src/components/ProductCard.jsx:33 | `(i - 1 + n) % n` stays in [0, n) and wraps from 0 to n-1 |
| Common.PrevUndoesNext | src/pages/Welcome.jsx:129-135 | previous-after-next and next-after-previous both return the original index |
| Common.LexCompare | src/pages/Shop.jsx:73-76 | the ordinal stand-in for `localeCompare`: -1, 0 or 1; `LexCompareFlip`, `LexCompareZero` and `LexCompareTransitive` make it a total order |
| Common.LexCompareFlip | src/pages/Shop.jsx:73-76 | the ordinal stand-in for `localeCompare` is antisymmetric |
| Common.LexCompareZero | src/pages/Shop.jsx:73-76 | two names compare equal exactly when they are the same string |
| Common.LexCompareTransitive | src/pages/Shop.jsx:73-76 | the name order is transitive |
| Common.DedupeFrom | src/pages/Shop.jsx:45 | `new Set` de-duplication keeps the seen prefix, holds exactly the seen and new elements, and repeats none |
| Common.DedupeFromDistinct | src/pages/Shop.jsx:45 | de-duplicating a list without repeats changes nothing |
| Common.DedupeFromAppend | src/pages/Shop.jsx:45 | de-duplicating a concatenation de-duplicates its first part first |
| Common.Dedupe | src/pages/Shop.jsx:45 | `Array.from(new Set(xs))`; `DedupeFrom` states it keeps first occurrences in order, holds exactly the input's values and repeats none |
| Common.TrimFacts | src/pages/Welcome.jsx:88 | `trim` adds no upper-case letter and leaves a string without surrounding white space unchanged |
| Common.TrimStart | src/pages/Welcome.jsx:88 | leading white space removed; `TrimStartSuffix` states the result is a suffix starting with no white space |
| Common.TrimEnd | src/pages/Welcome.jsx:88 | trailing white space removed; `TrimEndPrefix` states the result is a prefix ending with no white space |
| Common.Trim | src/pages/Welcome.jsx:88 | `trim`; `TrimFacts` states it adds no upper-case letter and keeps a string without surrounding white space |
| Common.LowerFacts | src/pages/Welcome.jsx:59 | lower-casing leaves no upper-case letter and is the identity on a lower-case string |
| Common.Lower | src/pages/Welcome.jsx:59 | `toLowerCase` on ASCII letters; `LowerFacts` states its result |
| Catalog.ItemImage | src/pages/ProductDetails.jsx:91 | the entry image is `image`, else `images[0]`, else `''` |
| Catalog.QuantityOrOne | src/pages/Cart.jsx:39 | the quantity or else 1 is never 0 and is the quantity when that is non-zero |
| Session.Client.AddToCart | src/pages/ProductDetails.jsx:96 | adding puts the id in the cart, logs the call, and changes nothing else |
| Session.Client.RemoveFromCart | src/pages/Cart.jsx:140 | removing takes the id out of the cart, logs the call, and changes nothing else |
| Session.Client.UpdateQuantity | src/pages/Cart.jsx:39 | a quantity update is logged and leaves cart membership as it was |
| Session.Client.ClearCart | src/pages/Checkout.jsx:187 | clearing empties the cart and logs the call |
| Session.Client.AddToWishlist | src/pages/ProductDetails.jsx:144 | adding puts the id in the wishlist, logs the call, and changes nothing else |
| Session.Client.RemoveFromWishlist | src/pages/ProductDetails.jsx:137 | removing takes the id out of the wishlist, logs the call, and changes nothing else |
| Session.Client.PromptLogin | src/components/ProductCard.jsx:78 | the `open-login-modal` event is counted and nothing else changes |
| Session.Client.LogIn | src/pages/Login.jsx:104 | logging in sets the authenticated flag and changes nothing else |
| Session.Client.LogOut | src/components/Navbar.jsx:69 | logging out clears the authenticated flag and changes nothing else |
| Session.Client.Navigate | src/pages/ProductDetails.jsx:125 | a navigation appends the path to the history and changes nothing else |
| Session.Client.constructor | src/pages/ProductDetails.jsx:3-5 | the contexts start with the given flag, cart and wishlist, and no requests, navigations or login events |
| Shop.FilterProducts | src/pages/Shop.jsx:51-56 | every kept product matches price range, category (unless `'all'`) and stock; each matching product is kept as often as it occurs, and no other |
| Shop.Matches | src/pages/Shop.jsx:51-56 | the filter test: a numeric price inside the range, the category unless it is `'all'`, and not marked out of stock when the stock filter is on; `FilterProducts` keeps exactly the products it accepts |
| Shop.Compare | src/pages/Shop.jsx:71-86 | each comparison is -1, 0 or 1; `CompareFlip` and `CompareTransitive` make it a total preorder per key |
| Shop.KeyOf | src/pages/Shop.jsx:57-86 | `filters.sortBy` or `'name'` picks the comparator: the five named keys, and any other value the `default` case; `UnorderedKeepsOrder` states the default keeps the order |
| Shop.PriceOrZero | src/pages/Shop.jsx:77-80 | `price || 0`; `PriceAscending` and `PriceDescReversesPriceAsc` state the price orders through it |
| Shop.SortProducts | src/pages/Shop.jsx:71-86 | the sort by the selected key: `SortProductsSorted` gives its order and `Sort` the permutation |
| Shop.CompareFlip | src/pages/Shop.jsx:71-86 | each of the five comparators (and the default) is antisymmetric in sign |
| Shop.CompareTransitive | src/pages/Shop.jsx:71-86 | each comparator is transitive, so each key is a total preorder |
| Shop.ByPreorder | src/pages/Shop.jsx:71-86 | the comparator of every sort key is a total preorder |
| Shop.Insert | src/pages/Shop.jsx:71 | one insertion step adds exactly the inserted product |
| Shop.Sort | src/pages/Shop.jsx:71 | the sorted copy is a permutation of the filtered list |
| Shop.InsertSorted | src/pages/Shop.jsx:71 | inserting into a sorted list keeps it sorted |
| Shop.SortSorted | src/pages/Shop.jsx:71 | the sorted copy is ordered by the comparator |
| Shop.SortProductsSorted | src/pages/Shop.jsx:71-86 | the listing is ordered by the selected key |
| Shop.AllEqualKeepsOrder | src/pages/Shop.jsx:71 | the sort is stable: a comparator that finds all equal leaves the order as it was |
| Shop.UnorderedKeepsOrder | src/pages/Shop.jsx:83-84 | an unknown sort key (the `default` case) keeps the filtered order |
| Shop.SortedUnique | src/pages/Shop.jsx:71 | two orderings of the same products by a separating comparator are equal |
| Shop.Reverse | src/pages/Shop.jsx:79-80 | reversal is a permutation that maps position i to n-1-i |
| Shop.ReverseFlipsOrder | src/pages/Shop.jsx:77-80 | reversing a list sorted one way sorts it by the flipped comparator |
| Shop.SortReversed | src/pages/Shop.jsx:77-80 | sorting by the flipped comparator is the reverse of sorting by the original, when the comparator separates the products |
| Shop.PriceDescReversesPriceAsc | src/pages/Shop.jsx:77-80 | `price-desc` is exactly the reverse of `price-asc` when prices are distinct (missing price = 0) |
| Shop.NameDescReversesName | src/pages/Shop.jsx:73-76 | `name-desc` is exactly the reverse of `name` when names are distinct |
| Shop.PriceAscending | src/pages/Shop.jsx:77-78 | `price-asc` lists prices in non-decreasing order, a missing price counting as 0 |
| Shop.NewestFirst | src/pages/Shop.jsx:81-82 | `newest` lists creation times in non-increasing order |
| Shop.FilteredProductsSpec | src/pages/Shop.jsx:50-87 | `filteredProducts` holds exactly the matching products with their multiplicities, ordered by the selected key |
| Shop.FilteredProducts | src/pages/Shop.jsx:50-87 | `filteredProducts`; `FilteredProductsSpec` states it holds exactly the matching products, as often as the input does, ordered by the key |
| Shop.CreatedTime | src/pages/Shop.jsx:58-70 | `getCreatedTime`; without `createdAt`, `ObjectIdTimestamp` gives the 24-character id's first eight hex digits times 1000 and `NoTimestampWithoutObjectId` gives 0 for any other id |
| Shop.LeadingHex | src/pages/Shop.jsx:66 | `parseInt` reads only hexadecimal digits |
| Shop.ParseIntHexDigits | src/pages/Shop.jsx:66 | `parseInt(s, 16)` of a string of hex digits is its big-endian value |
| Shop.ParseIntHex | src/pages/Shop.jsx:66 | `parseInt(s, 16)`; `ParseIntHexDigits` states it is the base-16 value of a string of hex digits |
| Shop.HexValue | src/pages/Shop.jsx:66 | the big-endian base-16 value of hex digits, the value `ParseIntHexDigits` and `ObjectIdTimestamp` state |
| Shop.ObjectIdTimestamp | src/pages/Shop.jsx:58-70 | without `createdAt`, a 24-character id with a hex prefix gives that prefix's value × 1000 |
| Shop.NoTimestampWithoutObjectId | src/pages/Shop.jsx:63-69 | without `createdAt`, an id of another length gives time 0 |
| Shop.JsSlice | src/pages/Shop.jsx:96 | `slice` never returns more than the list |
| Shop.PageWindow | src/pages/Shop.jsx:94-97 | page p is the window `[(p-1)*20, (p-1)*20+20)` cut to the list, at most 20 items |
| Shop.PagesUpToPrefix | src/pages/Shop.jsx:94-97 | pages 1..k together are the first 20k products |
| Shop.PagesCoverList | src/pages/Shop.jsx:94-97 | pages 1..⌈n/20⌉ concatenated give back the whole listing |
| Shop.FortyFiveProducts | src/pages/Shop.jsx:94-97 | 45 products: page 1 has 20, page 3 has 5, page 4 is empty |
| Shop.Page | src/pages/Shop.jsx:94-97 | `paginatedProducts`; `PageWindow` gives the window of every page from 1 and `PagesCoverList` shows the pages give back the list |
| Shop.PageCount | src/pages/Shop.jsx:191-195 | the number of pages of `totalItems` at `pageSize` 20; `PagesCoverList` states pages 1 to it give back the list |
| Shop.NumericPrices | src/pages/Shop.jsx:106 | the numeric prices are empty exactly when no product has one; they include every product's price and hold nothing but products' prices |
| Shop.MinOf | src/pages/Shop.jsx:108 | `Math.min` of the prices is one of them and at most each |
| Shop.MaxOf | src/pages/Shop.jsx:109 | `Math.max` of the prices is one of them and at least each |
| Shop.Ceil | src/pages/Shop.jsx:109 | `Math.ceil` is the least integer not below its argument |
| Shop.PriceBounds | src/pages/Shop.jsx:105-111 | `[0,200000]` without numeric prices; otherwise the lower end is the floor of a cheapest product's price (at least 0) and the upper end the ceiling of a dearest one's (at most 200000), raised to the lower end when they cross; every price in [0,200000] lies within |
| Shop.CheapestAndDearest | src/pages/Shop.jsx:108-109 | `Math.min` and `Math.max` of the prices are the prices of a cheapest and a dearest product |
| Shop.TwoPricesBounds | src/pages/Shop.jsx:105-111 | prices 100.5 and 199.2 give the bounds (100, 200) |
| Shop.ProductCategories | src/pages/Shop.jsx:44 | the truthy categories of the products, each from some product |
| Shop.CategoriesAfterAll | src/pages/Shop.jsx:41-47 | after `'all'` comes the baseline, then the categories it does not hold |
| Shop.CategoriesShape | src/pages/Shop.jsx:41-47 | the list starts with `'all'` and the baseline in order, holds exactly those and the product categories, and repeats nothing after its head |
| Shop.CategoriesDistinct | src/pages/Shop.jsx:41-47 | no category repeats, provided no product's category is `'all'` itself |
| Shop.CategoriesRepeatAll | src/pages/Shop.jsx:44-46 | a product of category `'all'` makes `'all'` appear twice |
| Shop.Categories | src/pages/Shop.jsx:41-47 | `categories`; `CategoriesAfterAll` and `CategoriesShape` give its head, order and members |
| Shop.ActiveFilters | src/pages/Shop.jsx:113-119 | the count lies in [0,2], is 2 exactly with stock and a real category, 0 exactly with neither |
| Shop.MergeFilters | src/pages/Shop.jsx:141-147 | each field the update omits (or gives with the wrong type, or a falsy `sortBy`) keeps its previous value; every other field is replaced |
| Shop.MergeIdempotent | src/pages/Shop.jsx:141-147 | merging the same update twice equals merging it once |
| FilterPanel.Clamp | src/components/FilterPanel.jsx:57 | a value inside the allowed range is kept, one below it becomes the minimum and one above it the maximum; the result lies in the range |
| FilterPanel.PriceEdit | src/components/FilterPanel.jsx:49-64 | the edited end becomes the allowed end for a non-number and the clamped value otherwise; the other end stays unless the edited end crosses it, and then meets it; the range stays ordered and inside the allowed one |
| FilterPanel.PriceEditKeepsValue | src/components/FilterPanel.jsx:57-64 | an in-range number that does not cross the other end is taken as it is |
| FilterPanel.PriceEditCrossing | src/components/FilterPanel.jsx:60-64 | raising min above max (or lowering max below min) moves both ends to the edited value |
| FilterPanel.PriceEditOutOfRange | src/components/FilterPanel.jsx:57 | a number above the allowed range sets the edited end to the allowed maximum, one below it to the allowed minimum |
| FilterPanel.PriceEditNotANumber | src/components/FilterPanel.jsx:54-56 | a non-numeric value resets the edited end to `minAllowed` (index 0) or `maxAllowed` (index 1) |
| FilterPanel.PriceEditIdempotent | src/components/FilterPanel.jsx:49-64 | repeating an edit changes nothing further |
| FilterPanel.Panel.constructor | src/components/FilterPanel.jsx:16-23 | both ranges start at `[0,200000]`, stock off, sort by name |
| FilterPanel.Panel.DeriveRange | src/components/FilterPanel.jsx:26-47 | the allowed and selected ranges both become `PriceBounds` of the product list (the defaults without numeric prices, else the floor of the cheapest and the ceiling of the dearest price); stock and sort are kept |
| FilterPanel.Panel.PriceChange | src/components/FilterPanel.jsx:49-68 | the new range is `PriceEdit` of the old: the edited end clamped into the allowed range (or reset to its allowed end for a non-number), the other end dragged along on a crossing; stock and sort are kept and reported with it |
| FilterPanel.Panel.StockChange | src/components/FilterPanel.jsx:72-76 | only the stock flag changes, and the report carries it |
| FilterPanel.Panel.SortChange | src/components/FilterPanel.jsx:78-82 | only the sort key changes, and the report carries it |
| FilterPanel.Panel.CategoryChange | src/components/FilterPanel.jsx:13-15 | the category is reported with the current filters |
| FilterPanel.Panel.ClearFilters | src/components/FilterPanel.jsx:84-100 | reports the whole allowed range, stock off, `'name'`, `'all'`, and resets the panel to them |
| FilterPanel.ClearResetsShop | src/components/FilterPanel.jsx:84-100 | after a clear the shop's filters are the full range, `'all'`, stock off, by name, whatever they were |
| FilterPanel.PanelEditKeepsCategory | src/components/FilterPanel.jsx:65-82 | price, stock and sort reports never change the shop's category |
| ImageUrl.ApiBase | src/utils/imageUrl.js:8 | the base is a prefix of the configured value, one character shorter exactly when that value ends in `/`, and otherwise the value itself |
| ImageUrl.ApiBaseTrailingSlash | src/utils/imageUrl.js:8 | the base still ends in `/` exactly when the configured value ends in `//` |
| ImageUrl.EndsWithSlash | src/utils/imageUrl.js:8 | the `/\/$/` test; `ApiBase` and `ApiBaseTrailingSlash` state the strip through it |
| ImageUrl.Prefix | src/utils/imageUrl.js:10-14 | an empty path stays empty; otherwise the base goes in front, or nothing when the base is empty |
| ImageUrl.Resolve | src/utils/imageUrl.js:16-30 | resolution never yields the empty string; the lemmas below give each rule's result |
| ImageUrl.Reference | src/utils/imageUrl.js:17-21 | a string as it is, an object's `image || images[0]`, otherwise `''`; `AbsoluteUnchanged` states that an empty reference gives the placeholder and an absolute one passes through |
| ImageUrl.IsAbsolute | src/utils/imageUrl.js:23 | `/^https?:\/\//i`; `AbsoluteUnchanged` states such references pass through |
| ImageUrl.IsObjectId | src/utils/imageUrl.js:26 | `/^[a-f\d]{24}$/i`; `ObjectIdToImagesPath` states the result |
| ImageUrl.IsLegacyName | src/utils/imageUrl.js:28 | `/^image-\d{10,}-\d+\.[a-z0-9]+$/i`; `LegacyNameToUploadsPath` states the result |
| ImageUrl.ResolveReference | src/utils/imageUrl.js:22-29 | the rule chain on a reference; `AbsoluteUnchanged`, `ServerPathsPrefixed`, `ObjectIdToImagesPath`, `LegacyNameToUploadsPath` and `OtherUnchanged` give each branch's result |
| ImageUrl.AbsoluteUnchanged | src/utils/imageUrl.js:17-23 | an `http://`/`https://` reference in any case comes back unchanged; an empty reference (or an object without `image`/`images[0]`) gives the placeholder |
| ImageUrl.ServerPathsPrefixed | src/utils/imageUrl.js:24-25 | `/images/…` and `/uploads/…` get the API base in front |
| ImageUrl.ObjectIdToImagesPath | src/utils/imageUrl.js:26 | a 24-hex-digit reference becomes `/images/` + it, without the base |
| ImageUrl.LegacyNameToUploadsPath | src/utils/imageUrl.js:28 | `image-<10+ digits>-<digits>.<alnum>` becomes base + `/uploads/` + it |
| ImageUrl.OtherUnchanged | src/utils/imageUrl.js:29 | a non-empty reference no earlier rule matches comes back unchanged |
| ImageUrl.PlainFileNameUnchanged | src/utils/imageUrl.js:22-29 | `photo.jpg` resolves to itself, with or without an API base |
| ImageUrl.NoEarlierRule | src/utils/imageUrl.js:23-26 | a reference starting `im` is caught by none of the earlier rules |
| ImageUrl.ResolveIdempotentWithoutBase | src/utils/imageUrl.js:16-30 | with no API base, resolving a resolved URL changes nothing |
| ImageUrl.ObjectIdBaseMismatch | src/utils/imageUrl.js:24-26 | with an API base, an ObjectId resolves to a path that a second resolution prefixes |
| Checkout.Put | src/pages/Checkout.jsx:88 | `{...a, [f]: v}` sets field f and keeps every other |
| Checkout.JoinLines | src/pages/Checkout.jsx:124 | the joined line is empty exactly when both lines are |
| Checkout.JoinLinesShape | src/pages/Checkout.jsx:89-124 | the joined line starts with line 1, ends with line 2, is two characters longer than both together when both are present and otherwise exactly as long, and has `", "` right after line 1 then |
| Checkout.InitialAddress | src/pages/Checkout.jsx:33-64 | name, email and phone come from the user; with a stored address every stored field is copied and the pincode is `pincode` when not null/undefined, else `postalCode`; without one the rest is empty |
| Checkout.EmptyPincodeKept | src/pages/Checkout.jsx:44 | a stored empty pincode is kept rather than replaced by the postal code |
| Checkout.ProfileAddress | src/pages/Checkout.jsx:67-76 | with a stored address the effect sets name, email and phone from the user and copies every stored field, a missing pincode staying empty; without one the address is kept |
| Checkout.ProfileAddressAgrees | src/pages/Checkout.jsx:33-76 | with a stored pincode the effect reproduces the first address; the two pincodes differ exactly when the pincode is missing and the postal code is not |
| Checkout.PostalCodeLostAfterEffect | src/pages/Checkout.jsx:44-106 | a stored address with only a postal code starts with it as pincode, but after the effect the form check fails |
| Checkout.ChangeField | src/pages/Checkout.jsx:84-93 | the named field takes the value, every other field but the joined line is kept, and the joined line is recomputed |
| Checkout.ChangeFieldKeepsJoin | src/pages/Checkout.jsx:89-91 | an edit of neither line leaves an in-step joined line as it was |
| Checkout.FieldsRequired | src/pages/Checkout.jsx:95-141 | the form check tests the ten fields, the order check those and address line 1 |
| Checkout.Message | src/pages/Checkout.jsx:131-141 | each field's `required` message; `ErrorsFor` and `RequiredErrors` pair every empty required field with it, and no other field (Address Line 2 is never required, so its message is never shown) |
| Checkout.RequiredErrors | src/pages/Checkout.jsx:96-108 | the error map's keys are exactly the empty required fields, each with its message; it is empty exactly when all required fields are filled |
| Checkout.ErrorsFor | src/pages/Checkout.jsx:96-108 | the error map holds exactly the empty required fields, each with its message; `RequiredErrors` builds it and `Validate` stores it |
| Checkout.BackendAddress | src/pages/Checkout.jsx:115-128 | `backendAddress` has the form's fields with the joined line recomputed |
| Checkout.BackendOfJoined | src/pages/Checkout.jsx:115-128 | an address with an in-step joined line is its own backend address |
| Checkout.OrderCheckAddsFirstLine | src/pages/Checkout.jsx:130-141 | the order check passes exactly when the ten fields and line 1 are filled |
| Checkout.PaidOnlyThroughGateway | src/pages/Checkout.jsx:202-240 | status `'paid'` arises exactly from a card payment the gateway confirmed; any other method orders as `'pending'` |
| Checkout.OrderStatus | src/pages/Checkout.jsx:202-240 | whether an order is requested and with which status and payment id; `PaidOnlyThroughGateway` states when it is `'paid'` |
| Checkout.OrderFailure | src/pages/Checkout.jsx:185-198 | the banner after a failed order request: `Order not saved` when the reply is not ok, otherwise the thrown message or, when that is empty, the support message; `SubmitOrder` and `PlaceOrder` state when it is shown |
| Checkout.CheckoutPage.constructor | src/pages/Checkout.jsx:33-81 | the mounted page holds the first address after the profile effect, no errors, card payment and saving on |
| Checkout.CheckoutPage.UserChanged | src/pages/Checkout.jsx:67-76 | a change of user runs the profile effect on the current address |
| Checkout.CheckoutPage.AddressChange | src/pages/Checkout.jsx:84-93 | the address becomes `ChangeField` of the old one; nothing else changes |
| Checkout.CheckoutPage.ChoosePayment | src/pages/Checkout.jsx:551-569 | the chosen radio button becomes the payment method |
| Checkout.CheckoutPage.SetSaveAddress | src/pages/Checkout.jsx:519 | the check box sets whether the address is saved |
| Checkout.CheckoutPage.Validate | src/pages/Checkout.jsx:95-109 | stores the error map of the ten fields and returns true iff all ten are non-empty |
| Checkout.CheckoutPage.PlaceOrder | src/pages/Checkout.jsx:111-246 | an incomplete backend address sets the banner and makes no save, order or cart change; otherwise the address is saved when asked, an order is requested as `OrderStatus` says, and the cart is cleared only after the order is stored |
| Checkout.CheckoutPage.Pay | src/pages/Checkout.jsx:202-240 | card orders go through the gateway (script failure and dismissal set their banners), other methods order at once |
| Checkout.CheckoutPage.SubmitOrder | src/pages/Checkout.jsx:168-200 | the order is requested; on success the cart is cleared and the page goes to the confirmation; on failure the cart is untouched and the error set |
| ProductDetails.Identifier | src/pages/ProductDetails.jsx:87 | the id is `productId`, else `id`, else `_id` |
| ProductDetails.CartItem | src/pages/ProductDetails.jsx:88-94 | the cart entry carries the product, that id, the fallback image, the selected size and the quantity |
| ProductDetails.WishlistItem | src/pages/ProductDetails.jsx:139-143 | the wishlist entry carries the product, that id and the fallback image |
| ProductDetails.SizeMissing | src/pages/ProductDetails.jsx:82 | a product with sizes and none selected; `AddToCart`, `BuyNow` and `CartButton` state that it blocks the add |
| ProductDetails.Exclude | src/pages/ProductDetails.jsx:67 | the filter keeps exactly the products whose `productId` is not the route id |
| ProductDetails.ExcludeAppend | src/pages/ProductDetails.jsx:67 | the filter keeps source order |
| ProductDetails.ExcludeOne | src/pages/ProductDetails.jsx:67 | one product is kept iff it is not the one on the page |
| ProductDetails.Related | src/pages/ProductDetails.jsx:66-68 | at most 4 related products, a prefix of the filtered list, none with the route's `productId` |
| ProductDetails.RelatedKeepsShortLists | src/pages/ProductDetails.jsx:66-68 | with at most four products all the others are shown |
| ProductDetails.Incremented | src/pages/ProductDetails.jsx:251-254 | `+` keeps the quantity in [1,10], adds one below 10 and is disabled at 10 |
| ProductDetails.Decremented | src/pages/ProductDetails.jsx:243-246 | `-` keeps the quantity in [1,10] and subtracts one above 1 |
| ProductDetails.StepperInverse | src/pages/ProductDetails.jsx:243-254 | `-` undoes `+` below the cap and `+` undoes `-` above one |
| ProductDetails.PressIncrementCaps | src/pages/ProductDetails.jsx:251-254 | k presses of `+` from q give `min(q + k, 10)` |
| ProductDetails.ProductPage.constructor | src/pages/ProductDetails.jsx:17-22 | no product, loading, no error, no size, quantity 1, no related products |
| ProductDetails.ProductPage.Load | src/pages/ProductDetails.jsx:36-57 | a found product is stored and its first size preselected; otherwise the matching error is set |
| ProductDetails.ProductPage.LoadRelated | src/pages/ProductDetails.jsx:59-74 | the related list becomes `Related` of the reply, or stays when there is none |
| ProductDetails.ProductPage.Increment | src/pages/ProductDetails.jsx:251-254 | the quantity stays in [1,10] |
| ProductDetails.ProductPage.Decrement | src/pages/ProductDetails.jsx:243-246 | the quantity stays in [1,10] |
| ProductDetails.ProductPage.SelectSize | src/pages/ProductDetails.jsx:232 | the clicked size, one of the product's, becomes the selected size |
| ProductDetails.ProductPage.AddToCart | src/pages/ProductDetails.jsx:76-98 | unauthenticated: only a navigation to `/login`; a missing size: only the alert; otherwise exactly one add of the cart entry |
| ProductDetails.ProductPage.BuyNow | src/pages/ProductDetails.jsx:100-126 | as add-to-cart, adding with the quantity and then navigating to `/checkout` |
| ProductDetails.ProductPage.WishlistToggle | src/pages/ProductDetails.jsx:128-146 | unauthenticated: only `/login`; otherwise the id's wishlist membership flips by one remove or one add, and nothing else changes |
| ProductDetails.ProductPage.CartButton | src/pages/ProductDetails.jsx:188-209 | unauthenticated: only `/login`; in the cart: removed; otherwise added unless a size is missing |
| ProductCard.CardId | src/components/ProductCard.jsx:57 | the card's id is `_id`, else `productId`, else `id` |
| ProductCard.Normalize | src/components/ProductCard.jsx:56-63 | the normalised product carries that id and the fallback image |
| ProductCard.SpreadId | src/components/ProductCard.jsx:204 | `_id || productId || id` of the spread item; `SpreadIdOfNormalized` states it is the card's id |
| ProductCard.SpreadIdOfNormalized | src/components/ProductCard.jsx:195-204 | the quick-view handlers find the card's product under the id the card filed it under |
| ProductCard.IdPrecedenceDiffers | src/components/ProductCard.jsx:57 | the card and the details page agree on the id exactly when there is no `_id` or it equals the details page's choice |
| ProductCard.RawImages | src/components/ProductCard.jsx:14 | `images` if a non-empty array, else `[image]` if present, else empty |
| ProductCard.Images | src/components/ProductCard.jsx:14-15 | each carousel image is the resolved raw image, never empty |
| ProductCard.FirstImageIsItemImage | src/components/ProductCard.jsx:14-61 | the carousel starts with the image the cart entry carries exactly when there is no non-empty `images` array, no `image`, or `image` is the first of `images` |
| ProductCard.Card.constructor | src/components/ProductCard.jsx:14-50 | the first image shown, not hovered, no dialog, and the images resolved from the product |
| ProductCard.Card.GoToNext | src/components/ProductCard.jsx:36-40 | the index moves to `NextIndex` and stays in [0, n) |
| ProductCard.Card.GoToPrev | src/components/ProductCard.jsx:31-35 | the index moves to `PrevIndex` and stays in [0, n) |
| ProductCard.Card.HoverElapsed | src/components/ProductCard.jsx:23-29 | the hover timer advances the index only while hovered with two or more images |
| ProductCard.Card.MouseEnter | src/components/ProductCard.jsx:108 | hovering starts |
| ProductCard.Card.MouseLeave | src/components/ProductCard.jsx:109 | hovering stops |
| ProductCard.Card.AskToLogIn | src/components/ProductCard.jsx:76-78 | the warning opens and one login-modal event fires; the stores are untouched |
| ProductCard.Card.WishlistClick | src/components/ProductCard.jsx:73-86 | unauthenticated: only the warning and the login event; otherwise wishlist membership of the card id flips |
| ProductCard.Card.CartClick | src/components/ProductCard.jsx:89-102 | unauthenticated: only the warning and the login event; otherwise cart membership of the card id flips |
| ProductCard.Card.QuickBuyNow | src/components/ProductCard.jsx:197-218 | unauthenticated: no store call; in the cart: the quantity is set; otherwise added with it; `/checkout` only on success, else the failure dialog |
| ProductCard.Card.QuickAddToCart | src/components/ProductCard.jsx:219-232 | unauthenticated: no store call; otherwise removed if in the cart, else added with the quantity |
| ProductCard.Card.QuickWishlistToggle | src/components/ProductCard.jsx:233-246 | unauthenticated: no store call; otherwise removed if in the wishlist, else added |
| Cart.IncTarget | src/pages/Cart.jsx:39 | `inc` asks for exactly one more than the quantity, a missing or zero quantity counting as 1 |
| Cart.DecTarget | src/pages/Cart.jsx:47-50 | `dec` asks for something exactly when the quantity (missing or zero counting as 1) exceeds 1, and then for `quantity - 1` ≥ 1 |
| Cart.DecUndoesInc | src/pages/Cart.jsx:35-54 | `dec` of the quantity `inc` asked for asks for the shown quantity again |
| Cart.CartPage.constructor | src/pages/Cart.jsx:13 | the page starts unlocked |
| Cart.CartPage.Locked | src/pages/Cart.jsx:36 | an update is in flight; `Inc`, `Dec` and `SingleFlight` state that a press then does nothing |
| Cart.CartPage.Inc | src/pages/Cart.jsx:35-43 | while locked nothing happens; otherwise the lock is taken and one update for `IncTarget` is made |
| Cart.CartPage.Dec | src/pages/Cart.jsx:45-54 | while locked or at quantity one nothing happens; otherwise the lock is taken and one update for `quantity - 1` is made |
| Cart.CartPage.Settle | src/pages/Cart.jsx:40-53 | the lock is released whether the update resolved or threw |
| Cart.CartPage.Remove | src/pages/Cart.jsx:140 | removes by the item's id only |
| Cart.SingleFlight | src/pages/Cart.jsx:35-54 | a second press before the first update settles asks for nothing, and the lock is free afterwards |
| Login.StepAfterRequest | src/pages/Login.jsx:71-93 | the step after a code request |
| Login.StepAfterVerify | src/pages/Login.jsx:99-140 | the step after a code check; `LoggedInOnlyByServerOrDemoCode` and `WrongCodeNeedsServer` state when it is `done` |
| Login.OnlyInvalidEmailStays | src/pages/Login.jsx:78-88 | only a failure mentioning `Valid email` stays in `email`; success and every other failure move to `otp` |
| Login.LoggedInOnlyByServerOrDemoCode | src/pages/Login.jsx:99-140 | `done` exactly when the server verified, or on another failure with code `123456` |
| Login.WrongCodeNeedsServer | src/pages/Login.jsx:126-138 | a failed verification with any other code stays in `otp` |
| Login.CooldownExpires | src/pages/Login.jsx:145-151 | after k ticks the cooldown is `max(0, c - k)` |
| Login.Pending | src/pages/Login.jsx:35-50 | a pending item exists only for a present, non-empty slot |
| Login.RedirectTarget | src/pages/Login.jsx:114 | the redirect is the stored path when present, else `/` |
| Login.ReplayClearsPending | src/pages/Login.jsx:33-57 | after a replay neither slot holds an item to replay, and a slot that did not parse keeps its text |
| Login.LoginPage.constructor | src/pages/Login.jsx:9-14 | the email step with empty fields, not loading, no message, no cooldown and no redirect scheduled |
| Login.LoginPage.TypeEmail | src/pages/Login.jsx:173 | the email input sets the email |
| Login.LoginPage.TypeCode | src/pages/Login.jsx:181 | the code input sets the code |
| Login.LoginPage.RequestOtp | src/pages/Login.jsx:71-93 | the step becomes `StepAfterRequest`, the message matches the branch, and `loading` ends false |
| Login.LoginPage.ReplayPending | src/pages/Login.jsx:33-57 | each pending slot whose item parses is added to its store and cleared; a slot that does not parse is kept |
| Login.LoginPage.CompleteLogin | src/pages/Login.jsx:104-117 | logs in, replays the pending items, greets, moves to `done` and sets the redirect timer |
| Login.LoginPage.VerifyOtp | src/pages/Login.jsx:94-144 | the step becomes `StepAfterVerify`; on `done` the greeting names the reply's email (or the typed one for the demonstration code), the user is logged in, each parsed pending item is added to its store with its request and its slot cleared, an unparsable slot is kept, and the redirect is scheduled; otherwise storage and stores are untouched and the message says why; `loading` ends false |
| Login.LoginPage.Resend | src/pages/Login.jsx:153-185 | a successful resend sets the cooldown to 30, a failure shows its message; `loading` ends false |
| Login.LoginPage.Tick | src/pages/Login.jsx:145-151 | one tick decrements a positive cooldown by one and leaves 0 at 0 |
| Login.LoginPage.Redirect | src/pages/Login.jsx:114-116 | navigates to the redirect target and forgets the stored path |
| Login.LoginPage.RedirectTimerFired | src/pages/Login.jsx:113-117 | the timer navigates to the target and clears the slot |
| Login.LoginPage.AuthenticatedEffect | src/pages/Login.jsx:23-29 | an authenticated visitor is sent to the redirect target; otherwise nothing happens |
| Welcome.InBucket | src/pages/Welcome.jsx:58-65 | a bucket never holds more products than the reply |
| Welcome.BucketOf | src/pages/Welcome.jsx:59-64 | the bucket a lower-cased category names, the two temple spellings included; `InBucketMembers`, `BucketsDisjoint` and `HyphenatedTempleDropped` state its effect |
| Welcome.EveryBucket | src/pages/Welcome.jsx:48-56 | the seven buckets are all keys of the map |
| Welcome.InBucketMembers | src/pages/Welcome.jsx:58-65 | a bucket holds exactly the products whose lower-cased category names it |
| Welcome.BucketsDisjoint | src/pages/Welcome.jsx:58-65 | a product lands in at most one bucket |
| Welcome.DroppedProducts | src/pages/Welcome.jsx:58-65 | a product is dropped exactly when its category names no bucket |
| Welcome.HyphenatedTempleDropped | src/pages/Welcome.jsx:62 | `temple-jewellery` names no bucket |
| Welcome.Organize | src/pages/Welcome.jsx:48-65 | the `forEach` fills every bucket with exactly its products, in reply order |
| Welcome.HyphenateClean | src/pages/Welcome.jsx:88 | replacing white-space runs leaves no white space and no new upper-case letter |
| Welcome.HyphenateNoWs | src/pages/Welcome.jsx:88 | a string without white space is unchanged |
| Welcome.HyphenatePrefix | src/pages/Welcome.jsx:88 | a prefix without white space passes through |
| Welcome.HyphenateFrom | src/pages/Welcome.jsx:88 | `replace(/\s+/g, '-')` from inside or outside a white-space run; `HyphenatePrefix` states its result |
| Welcome.Hyphenate | src/pages/Welcome.jsx:88 | every white-space run becomes one `-`; `HyphenateClean` and `HyphenateNoWs` state its result |
| Welcome.NormalizeKey | src/pages/Welcome.jsx:86-91 | lower-case, trim, hyphenate; `NormalizeKeyClean`, `NormalizeKeyIdempotent` and `NormalizeKeyKeepsClean` state its result |
| Welcome.NormalizeKeyClean | src/pages/Welcome.jsx:86-91 | a normalised key has no white space and no upper-case letter |
| Welcome.NormalizeKeyIdempotent | src/pages/Welcome.jsx:86-91 | normalising twice is normalising once |
| Welcome.NormalizeKeyKeepsClean | src/pages/Welcome.jsx:86-91 | a lower-case key without white space is kept |
| Welcome.NormalizeTwoWords | src/pages/Welcome.jsx:86-91 | two clean words separated by a space become the words joined by `-` |
| Welcome.NormalizeAll | src/pages/Welcome.jsx:87 | each key normalised, in order |
| Welcome.PopularKeysDistinct | src/pages/Welcome.jsx:86-91 | the normalised object repeats no key |
| Welcome.PopularKeysFromReply | src/pages/Welcome.jsx:86-91 | a key is present exactly when some reply key normalises to it |
| Welcome.PopularKeys | src/pages/Welcome.jsx:86-91 | the keys of `Object.fromEntries`; `PopularKeysDistinct` and `PopularKeysFromReply` state its members |
| Welcome.CapitalizeFirstOnly | src/pages/Welcome.jsx:173 | a title upper-cases the first character and keeps the rest |
| Welcome.Capitalize | src/pages/Welcome.jsx:173 | `k.charAt(0).toUpperCase() + k.slice(1)`; `CapitalizeFirstOnly` states its result |
| Welcome.Unlisted | src/pages/Welcome.jsx:171-172 | the extra keys are exactly the keys the fixed order does not list |
| Welcome.UnlistedAppend | src/pages/Welcome.jsx:171-172 | the extra keys keep the reply's key order |
| Welcome.UnlistedNoDup | src/pages/Welcome.jsx:171-172 | distinct keys stay distinct |
| Welcome.Titled | src/pages/Welcome.jsx:173 | each extra key gets its capitalised title, in order |
| Welcome.ExtraSections | src/pages/Welcome.jsx:171-173 | `extraCategories`: the unlisted keys with their titles; `Unlisted` and `Titled` state its keys and order |
| Welcome.Render | src/pages/Welcome.jsx:174 | the fixed order followed by the extra sections; `RenderedSections` and `RenderDistinct` state its members |
| Welcome.RenderedSections | src/pages/Welcome.jsx:160-174 | the fixed order comes first, unchanged; a key is listed in `categoriesToRender` exactly when the order lists it or it is an API key |
| Welcome.CategoriesFromReply | src/pages/Welcome.jsx:86-174 | a category is listed in `categoriesToRender` exactly when the fixed order lists it or some reply key normalises to it |
| Welcome.RenderDistinct | src/pages/Welcome.jsx:160-174 | no key is listed twice in `categoriesToRender` when the fixed keys are distinct |
| Welcome.RenderedKeysDistinct | src/pages/Welcome.jsx:160-174 | `categoriesToRender` lists no category twice |
| Welcome.CategoriesToRender | src/pages/Welcome.jsx:160-174 | `categoriesToRender`; `CategoriesFromReply` and `RenderedKeysDistinct` state which keys it lists, once each |
| Welcome.Drawn | src/pages/Welcome.jsx:319-321 | the sections drawn: exactly the listed sections whose key holds a non-empty array, and no more of them than are listed |
| Welcome.DrawnListed | src/pages/Welcome.jsx:319-321 | a key is drawn exactly when it is listed and its array is non-empty |
| Welcome.DrawnFromReply | src/pages/Welcome.jsx:86-321 | a category is drawn exactly when the fixed order lists it or some reply key normalises to it, and its array holds a product; a fixed-order key without items is skipped |
| Welcome.LandingPage.NextSlide | src/pages/Welcome.jsx:122-131 | the slide index moves to `NextIndex` over three slides and stays in [0, 3) |
| Welcome.LandingPage.PrevSlide | src/pages/Welcome.jsx:133-135 | the slide index moves to `PrevIndex` and stays in [0, 3) |
| Welcome.LandingPage.StorePopular | src/pages/Welcome.jsx:86-92 | the stored keys are the normalised reply keys |
| Welcome.LandingPage.FetchProducts | src/pages/Welcome.jsx:40-102 | the buckets, new arrivals and popular keys are set from the replies that came; an exception on the first request skips the rest; `loading` ends false |
| Welcome.LandingPage.constructor | src/pages/Welcome.jsx:7-20 | the first slide, loading, seven empty buckets, no new arrivals and no popular keys |
| Navbar.Flip | src/components/Navbar.jsx:87-91 | the named dropdown flips, the other closes, so at most one is open |
| Navbar.FlipTwice | src/components/Navbar.jsx:87-91 | flipping the same dropdown twice restores any state `Flip` leaves |
| Navbar.Header.ToggleMenu | src/components/Navbar.jsx:39-45 | the menu flips; closing it collapses both dropdowns |
| Navbar.Header.ToggleDropdown | src/components/Navbar.jsx:82-93 | on mobile the named dropdown flips and the other is closed; otherwise nothing changes |
| Navbar.Header.CloseMenuAndCollapse | src/components/Navbar.jsx:96-99 | the menu and both dropdowns end closed |
| Navbar.Header.CloseMenu | src/components/Navbar.jsx:145 | the menu closes |
| Navbar.Header.OpenSearch | src/components/Navbar.jsx:167 | the search modal opens |
| Navbar.Header.CloseSearch | src/components/Navbar.jsx:249 | the search modal closes |
| Navbar.Header.LoginPrompted | src/components/Navbar.jsx:50-52 | the `open-login-modal` event opens the login modal |
| Navbar.Header.CloseLogin | src/components/Navbar.jsx:252 | the login modal closes |
| Navbar.Header.LoginClick | src/components/Navbar.jsx:55-62 | outside `/login` the redirect slot becomes `pathname + search`; the menu always closes and the login modal opens |
| Navbar.Header.Logout | src/components/Navbar.jsx:65-75 | an admin gets only `adminLogout`; anyone else is logged out and sent to `/`; both close the user menu and the main menu |
| Navbar.Header.constructor | src/components/Navbar.jsx:27-31 | every menu, dropdown and modal closed, no admin logout yet |

## Left out

- Network requests (`fetch`, `credentials`, status codes, JSON bodies) are not modelled. Their results are outcome parameters: `Checkout.Gateway`, `Checkout.OrderOutcome`, `Login.Reply`, `ProductDetails.Fetch`, `Welcome.Fetched`. The Razorpay script, its options and its overlay are not modelled either.
- The cart, wishlist, authentication and admin contexts are not part of this model. `Session.Client` records only id membership and the calls made. Quantities, insertion order and remote persistence are left out. Admin logout is a counter.
- Timers are tick methods: the 5 s slide and card intervals, the 1 s cooldown and the 1.5 s redirect.
- DOM scrolling, `getBoundingClientRect` and `window.matchMedia` are left out. Mobile view is a boolean input.
- `alert` and the warning dialog are recorded as messages only.
- `Intl.NumberFormat` formatting is left out. Prices are `real`, so JavaScript floating-point rounding is not modelled.
- `Shop.CreatedTime`: a present `createdAt` is taken as already parsed to milliseconds. `Date` parsing of the string is not modelled.
- `Shop.Sort`: modelled as a stable insertion sort. The engine's sort is stable too, but a different algorithm. Only the resulting order is claimed, and that order is unique when the comparator separates the products.
- `Common.LexCompare`: `localeCompare` collation is replaced by code-point order. JavaScript strings are UTF-16, so for characters above U+FFFF code-unit order differs (`"\u{1F600}"` sorts before `"\u{FF5E}"` by code units, after it by code points). The `id.length === 24` test of `getCreatedTime` counts code units, which the model's length does not do for such characters.
- `Common.Lower`: case mapping covers ASCII letters only, so `Welcome.BucketOf` and `Welcome.NormalizeKey` do not fold non-ASCII letters.
- `Welcome.CategoriesToRender`: the page draws only the listed keys whose `popularByCategory` entry is a non-empty array (src/pages/Welcome.jsx:320-321). `Welcome.Drawn` states that over an `items` map given as a parameter; the landing page object keeps only the keys, not the arrays, so its methods say nothing about which sections are drawn.
- `Welcome.PopularKeys`: JavaScript lists integer-like object keys first, in numeric order. The model keeps every key in insertion order.
- `Checkout.ProfileAddress`: the spread `...user.address` would also copy keys the form does not have (`postalCode`, `_id`) and would override name, email or phone if the stored record held them; the model keeps the form's twelve fields only.
- `Checkout.OrderFailure`: the branch joining `err.response.errors` (src/pages/Checkout.jsx:193-194) is not modelled; an error thrown by `fetch` or by the code around it carries no `response`, so the branch does not change the banner.
- `Checkout.CheckoutPage.PlaceOrder`: a thrown address save is swallowed (src/pages/Checkout.jsx:163-165), so the model always records the save. The outer `catch` (lines 241-245) only covers a throw from the gateway constructor, which is not modelled.
- `ProductDetails.ProductPage.BuyNow`: the unused `existing` lookup in `localStorage` (src/pages/ProductDetails.jsx:113-114) is left out.
- `ProductCard.Card.QuickBuyNow`: the success flag is an input and the store call's own effect on membership is as `Session.Client` records it. The awaited result is not derived from the store.
- Which dropdown a link closes and the search modal beyond open/close are rendering details and are left out.
- src/pages/Bangles.jsx, src/pages/Earrings.jsx, src/App.jsx, src/pages/OrderConfirmation.jsx, src/pages/Wishlist.jsx and tailwind.config.js are not part of this model. They hold fetching, routing and rendering only.
