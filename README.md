# Shophub storefront core, modelled in Dafny

This project models the core of Shophub, a small online shop. The model has two parts.

**The back end** has two parts:
- The order controller places orders, updates them, and cancels them. It lists orders and computes the admin statistics. Placing and cancelling change product stock.
- The product routes list the catalogue, with search, filters, sort keys and pagination. They also serve the featured and trending rows, lookup by id, and soft delete.

**The front end** has the cart/wishlist context and the pages that hold real logic:
- the three-step checkout;
- the home page's product rows with their fallbacks;
- the product tile and the product page;
- the catalogue page's filter state;
- the order list and the profile's order history;
- the FAQ accordion;
- the deals countdown;
- the sign-up form.

Modules follow the source files, one module per file:
- `OrderController` and `ProductRoutes` model the back end.
- `CartContext`, `Checkout`, `Home`, `ProductCard`, `ProductDetails`, `ProductsPage`, `OrdersPage`, `Profile`, `Faq`, `Deals` and `Register` model the front end.

Shared modules:
- `Common` holds the JavaScript string and value helpers: `trim`, the `\s`/`\D` replacements, `toLowerCase`, `||` fallbacks and number formatting.
- `Sorting` holds stable sort, filter and slices.
- `Schema` holds the documents.
- `Store` holds the database.

**How mutable state is modelled:**
- The database is a class with maps of documents and sequences giving their natural (insertion) order.
- React components that keep state are classes whose fields are that state. Each event handler is a method.
- Pure helpers stay functions.

**What the model takes as parameters:**
- Order numbers, store-assigned ids and the clock.
- The answer of a network call.
- The position at which a database save throws.

Money is modelled as exact `real` and quantities as `int`.

The operations and pages follow the code as written, including its defects. Where a defect is listed under "## Findings", the corrected rule is modelled beside the written one, with the intended property proved about it.

## Model

| member | source | states |
|---|---|---|
| Common.StripSpaces | frontend/src/pages/Checkout.jsx:81 | the result has no white space and is no longer than the input |
| Common.DigitsOf | frontend/src/pages/Checkout.jsx:86 | the result is all digits and no longer than the input |
| Common.DigitsOfNoDigits | frontend/src/pages/Checkout.jsx:86 | a string without digits is removed entirely, so with `DigitsOfAllDigits` and `DigitsOfAppend` the digits are kept in order and every other character is dropped |
| Common.BlankIffAllSpace | frontend/src/pages/Checkout.jsx:96 | `v.trim() === ''` holds exactly when every character of `v` is white space |
| Common.TrimKeepsContent | frontend/src/pages/Checkout.jsx:81 | `trim()` changes no non-space character: the non-space content stays the same, in order |
| Common.Lower | frontend/src/pages/Products.jsx:23 | lower-casing keeps the length and maps every character on its own |
| Common.ContainsIffOccurs | backend/routes/productRoutes.js:25-31 | the search term matches exactly when it occurs at some position of the text |
| Common.NatToString | frontend/src/pages/Orders.jsx:350 | the decimal rendering of a count is a non-empty string of digits |
| Common.ParseNatToString | frontend/src/pages/Orders.jsx:350 | reading back the decimal rendering gives the number |
| Common.NatToStringInjective | frontend/src/pages/FAQ.jsx:84 | different numbers render differently |
| Sorting.Filter | frontend/src/pages/Home.jsx:97 | `filter` keeps exactly the elements that pass, in order |
| Sorting.Take | frontend/src/pages/Home.jsx:98 | `slice(0, n)` is the prefix of length min(n, length) |
| Sorting.TakeLast | frontend/src/pages/Home.jsx:108 | `slice(-n)` is the suffix of length min(n, length) |
| Sorting.SortBy | frontend/src/pages/Home.jsx:102-104 | sorting is a permutation of its input |
| Sorting.SortBySorted | backend/routes/productRoutes.js:67-68 | under a strict weak order, the sorted list is ordered |
| OrderController.QtyFor | backend/controllers/orderController.js:44-51 | an order that never mentions a product orders none of it |
| OrderController.Placed | backend/controllers/orderController.js:44-51 | the stock loop keeps the set of products |
| OrderController.Restored | backend/controllers/orderController.js:222-228 | the restock loop keeps the set of products |
| OrderController.PlacedStep | backend/controllers/orderController.js:44-51 | one more pass of the loop sells one more line item, or skips a missing product |
| OrderController.RestoredStep | backend/controllers/orderController.js:222-228 | one more pass of the cancellation loop restocks one more line item |
| OrderController.ReferencedSplit | backend/controllers/orderController.js:44 | an order refers to a product iff its first item or the rest does |
| OrderController.SoldAll | backend/controllers/orderController.js:46-50 | placement touches only a product's stock and sales, and never one the order omits |
| OrderController.PlacedAt | backend/controllers/orderController.js:44-51 | each product evolves independently of the others |
| OrderController.PlacedUntouched | backend/controllers/orderController.js:44-51 | products not in the order are unchanged |
| OrderController.SoldAllCounts | backend/controllers/orderController.js:47-48 | repeated clamping of one product equals one clamp of the summed quantity; sales grow by the sum |
| OrderController.PlacedProduct | backend/controllers/orderController.js:44-51 | stock ends at max(0, stock − ordered) and totalSales at (totalSales or 0) + ordered |
| OrderController.PlacedNonNegative | backend/controllers/orderController.js:47 | placement never makes stock negative |
| OrderController.PlacedDistinct | backend/controllers/orderController.js:44-51 | with distinct products per line, each product takes exactly its own line's update |
| OrderController.PlacedCounters | backend/controllers/orderController.js:44-51 | placement changes nothing but stock and totalSales |
| OrderController.RestoredProduct | backend/controllers/orderController.js:222-228 | cancellation adds the product's ordered quantity back, unclamped |
| OrderController.RestoredStockOnly | backend/controllers/orderController.js:222-228 | cancellation changes nothing but stock |
| OrderController.PlaceThenCancel | backend/controllers/orderController.js:44-51 | placing then cancelling without clamping restores stock; sales keep the cancelled sale |
| OrderController.Reached | backend/controllers/orderController.js:44-51 | the loop stops early exactly when a save throws within the items |
| OrderController.CreateOrder | backend/controllers/orderController.js:6-66 | 400 with no change for missing/empty items; else the order is stored (paid, pending) before stock changes, and the reply is 201 or 500 |
| OrderController.PlaceStock | backend/controllers/orderController.js:44-51 | the loop's products equal `Placed` of the items it reached |
| OrderController.UpdateOrderStatus | backend/controllers/orderController.js:165-197 | 404 for an unknown id; a throwing save is a 500 with nothing stored; otherwise any status is stored, and only 'delivered' sets isDelivered and deliveredAt |
| OrderController.CancelOrder | backend/controllers/orderController.js:200-242 | 404 unknown; 400 unless pending/processing; a throwing order save is a 500 with nothing changed; else cancelled, then restocked item by item, 200 or 500 |
| OrderController.RestoreStock | backend/controllers/orderController.js:222-228 | the loop's products equal `Restored` of the items it reached |
| OrderController.GetOrder | backend/controllers/orderController.js:69-93 | 404 iff the id is unknown; 200 carries that order |
| OrderController.FindByNumber | backend/controllers/orderController.js:98 | None iff no order has that number; otherwise the first order in natural order that has it |
| OrderController.GetOrderByNumber | backend/controllers/orderController.js:96-119 | 404 iff no stored order has that number; 200 carries the first stored order, in natural order, that has it |
| OrderController.MyOrders | backend/controllers/orderController.js:122-140 | exactly the user's orders, newest first |
| OrderController.AllOrders | backend/controllers/orderController.js:143-162 | every order, newest first |
| OrderController.RevenueGroups | backend/controllers/orderController.js:251-254 | the pipeline yields at most one group |
| OrderController.PaidSumOfUnpaid | backend/controllers/orderController.js:252 | with no paid order the sum is zero |
| OrderController.PaidSumNonNegative | backend/controllers/orderController.js:253 | non-negative totals sum to a non-negative revenue |
| OrderController.StatsRevenue | backend/controllers/orderController.js:251-263 | the reported revenue equals the sum over paid orders |
| OrderController.StatsCountsBounded | backend/controllers/orderController.js:247-249 | pending plus delivered never exceeds the total |
| OrderController.PendingDeliveredDisjoint | backend/controllers/orderController.js:248-249 | no order is counted as both pending and delivered |
| ProductRoutes.BuildFilter | backend/routes/productRoutes.js:21-42 | a product matches the query document iff it is active, matches the search, is in the category and lies in the price bounds |
| ProductRoutes.SortOptionMeaning | backend/routes/productRoutes.js:45-64 | each key the catalogue page offers (Products.jsx:166-170) orders by the field and direction its label names; 'newest' and every other key sort newest first |
| ProductRoutes.NameOrder | backend/routes/productRoutes.js:54-57 | name comparison is irreflexive, transitive and transitive in incomparability |
| ProductRoutes.PrecedesOrder | backend/routes/productRoutes.js:45-64 | every sort key is a strict weak order |
| ProductRoutes.Window | backend/routes/productRoutes.js:69-70 | a negative skip fails; otherwise the page is the run of entries starting at the skip, of length min(absolute limit, rest), or the whole rest for limit 0 |
| ProductRoutes.Sorted | backend/routes/productRoutes.js:67-68 | the wanted products, as a permutation, ordered by the sort key |
| ProductRoutes.ListProductsIn | backend/routes/productRoutes.js:17-79 | 500 iff (page − 1) · limit is negative (page 1 and limit 50 by default); otherwise the data is the run of sorted matches starting there, of length min(absolute limit, rest), count its length and total the number of matches |
| ProductRoutes.ListedAreWanted | backend/routes/productRoutes.js:67-70 | every listed product is a stored product the request asks for |
| ProductRoutes.ListedInOrder | backend/routes/productRoutes.js:67-70 | the page is ordered by the sort key |
| ProductRoutes.DefaultPage | backend/routes/productRoutes.js:17-18 | without page or limit, the listing is the first 50 sorted matches |
| ProductRoutes.PageBelowOneFails | backend/routes/productRoutes.js:70 | a page below 1 with a positive limit makes the request fail |
| ProductRoutes.MostReviewedOrder | backend/routes/productRoutes.js:123 | the reviews-then-rating order is a strict weak order |
| ProductRoutes.FeaturedIn | backend/routes/productRoutes.js:95-100 | min(8, matches) featured active products, a sub-multiset of the matches, newest first, and no match left out is newer than one listed |
| ProductRoutes.TrendingIn | backend/routes/productRoutes.js:122-124 | min(8, active) active products, a sub-multiset of them, by reviews then rating, and no active product left out has more reviews, or as many and a higher rating |
| ProductRoutes.InactiveHidden | backend/routes/productRoutes.js:22 | an inactive product appears in no listing, featured or trending result |
| ProductRoutes.GetProduct | backend/routes/productRoutes.js:144-159 | 404 iff the id is unknown; the active flag is not checked |
| ProductRoutes.SoftDelete | backend/routes/productRoutes.js:227-252 | 404 unknown; a throwing save is a 500 with nothing stored; else only isActive becomes false |
| ProductRoutes.DeletedIsHidden | backend/routes/productRoutes.js:237-238 | after soft delete the product vanishes from the listing, featured and trending |
| CartContext.Bumped | frontend/src/context/CartContext.jsx:95-103 | only entries with that id change quantity, by the given delta |
| CartContext.WithQuantity | frontend/src/context/CartContext.jsx:85-93 | only entries with that id get the new quantity |
| CartContext.RemovedFrom | frontend/src/context/CartContext.jsx:81-83 | no entry with that id remains |
| CartContext.Decremented | frontend/src/context/CartContext.jsx:105-115 | after decrementing, every remaining entry has quantity ≥ 1 |
| CartContext.WithoutProduct | frontend/src/context/CartContext.jsx:148-150 | no wishlist entry with that id remains |
| CartContext.FindListed | frontend/src/context/CartContext.jsx:161 | found iff listed, and what is found is the first wishlist entry with that id |
| CartContext.FilterKeepsUnique | frontend/src/context/CartContext.jsx:81-83 | filtering keeps ids unique |
| CartContext.FilterKeepsPositive | frontend/src/context/CartContext.jsx:105-115 | filtering keeps quantities positive |
| CartContext.UpdatersKeepUnique | frontend/src/context/CartContext.jsx:60-115 | every cart updater keeps ids unique |
| CartContext.UpdatersKeepPositive | frontend/src/context/CartContext.jsx:60-103 | positive additions and the other updaters keep quantities ≥ 1 |
| CartContext.AddedShape | frontend/src/context/CartContext.jsx:66-76 | adding merges into the matching entry or appends exactly one entry |
| CartContext.BumpedCount | frontend/src/context/CartContext.jsx:95-103 | changing one entry by delta changes the count by delta, if present |
| CartContext.AddedCount | frontend/src/context/CartContext.jsx:124-126 | adding q units raises the item count by q |
| CartContext.AddedTotal | frontend/src/context/CartContext.jsx:121-123 | a new entry adds price × quantity to the total |
| CartContext.BumpUnknown | frontend/src/context/CartContext.jsx:95-103 | incrementing an absent id changes nothing |
| CartContext.WithoutAbsent | frontend/src/context/CartContext.jsx:148-150 | removing an absent id changes nothing |
| CartContext.ToggleTwice | frontend/src/context/CartContext.jsx:132-146 | toggling appends an unlisted product, and toggling again restores the list |
| CartContext.CartProvider.constructor | frontend/src/context/CartContext.jsx:8-11 | both lists start empty with no user |
| CartContext.CartProvider.SwitchUser | frontend/src/context/CartContext.jsx:18-56 | signing out empties both lists; a user's stored lists replace them when readable |
| CartContext.CartProvider.AddToCart | frontend/src/context/CartContext.jsx:60-79 | fails iff nobody is signed in; otherwise merges or appends |
| CartContext.CartProvider.RemoveFromCart | frontend/src/context/CartContext.jsx:81-83 | the cart loses the product's entries; nothing else changes |
| CartContext.CartProvider.UpdateQuantity | frontend/src/context/CartContext.jsx:85-93 | a quantity ≤ 0 removes the product; otherwise sets it |
| CartContext.CartProvider.IncrementQuantity | frontend/src/context/CartContext.jsx:95-103 | the product's quantity goes up by one |
| CartContext.CartProvider.DecrementQuantity | frontend/src/context/CartContext.jsx:105-115 | down by one, and entries at zero are dropped |
| CartContext.CartProvider.ClearCart | frontend/src/context/CartContext.jsx:117-119 | the cart becomes empty; the wishlist stays |
| CartContext.CartProvider.AddToWishlist | frontend/src/context/CartContext.jsx:132-146 | fails iff nobody is signed in; otherwise toggles the product |
| CartContext.CartProvider.RemoveFromWishlist | frontend/src/context/CartContext.jsx:148-150 | the product leaves the wishlist |
| CartContext.CartProvider.ClearWishlist | frontend/src/context/CartContext.jsx:152-154 | the wishlist becomes empty; the cart stays |
| CartContext.CartProvider.MoveToCart | frontend/src/context/CartContext.jsx:159-172 | succeeds iff signed in and listed; then adds one unit and unlists it, else nothing changes |
| CartContext.MovedProduct | frontend/src/context/CartContext.jsx:159-172 | after a move the product is in the cart and not in the wishlist |
| Checkout.GroupDigitsContent | frontend/src/pages/Checkout.jsx:81 | inserting group spaces keeps the non-space characters |
| Checkout.FormatCardContent | frontend/src/pages/Checkout.jsx:81 | formatting keeps exactly the typed non-space characters |
| Checkout.FormatCardIdempotent | frontend/src/pages/Checkout.jsx:81 | re-formatting a formatted number changes nothing |
| Checkout.GroupShort | frontend/src/pages/Checkout.jsx:81 | fewer than four characters get no space |
| Checkout.GroupStep | frontend/src/pages/Checkout.jsx:81 | four leading digits become one group followed by a space |
| Checkout.FormatFifteenDigits | frontend/src/pages/Checkout.jsx:81 | a 15-digit number formats as 4-4-4-3 groups |
| Checkout.Prefix | frontend/src/pages/Checkout.jsx:86 | `substr(0, n)` is the prefix of length min(n, length) |
| Checkout.FormatExpiryShape | frontend/src/pages/Checkout.jsx:86 | at most five characters: two digits, a slash, up to two more digits |
| Checkout.FormatExpiryIdempotent | frontend/src/pages/Checkout.jsx:86 | re-formatting a formatted expiry changes nothing |
| Checkout.FilledIff | frontend/src/pages/Checkout.jsx:96 | a field is filled iff it has a non-space character |
| Checkout.ValidateShippingIff | frontend/src/pages/Checkout.jsx:95-97 | shipping passes iff each of the eight fields has a non-space character |
| Checkout.ValidatePayment | frontend/src/pages/Checkout.jsx:99-113 | accepts exactly when the written check returns true, so a throw and a refusal both block the order |
| Checkout.ValidatePaymentAsWritten | frontend/src/pages/Checkout.jsx:99-113 | the check throws exactly for 'upi' with an untyped UPI id |
| Checkout.UpiUntouchedThrows | frontend/src/pages/Checkout.jsx:61-67 | choosing UPI before typing an id throws as written; the corrected check is false |
| Checkout.ValidatePaymentAgrees | frontend/src/pages/Checkout.jsx:99-113 | the corrected check agrees wherever the original returns; cod always passes; upi/card need text |
| Checkout.CardLastFourAsWrittenFifteen | frontend/src/pages/Checkout.jsx:150 | for 15 digits the stored last four is a space and three digits |
| Checkout.CardLastFourAsWritten | frontend/src/pages/Checkout.jsx:150 | `slice(-4)`: the last min(4, length) characters of the formatted field, spaces included |
| Checkout.FormatSixteenDigits | frontend/src/pages/Checkout.jsx:81 | 16 digits format as four groups of four, with no trailing space |
| Checkout.CardLastFourAsWrittenSixteen | frontend/src/pages/Checkout.jsx:150 | for 16 digits the written rule stores exactly the last four digits |
| Checkout.CardLastFour | frontend/src/pages/Checkout.jsx:150 | the corrected rule of the Findings row (the page itself sends `CardLastFourAsWritten`): no space and at most four characters |
| Checkout.CardLastFourOfFormatted | frontend/src/pages/Checkout.jsx:150 | they are the last four of the typed digits, whatever the grouping |
| Checkout.PaymentLabelMatchesDetails | frontend/src/pages/Checkout.jsx:142-160 | the label agrees with the details: 'Online Payment' iff no details are sent, never for a validated payment, and the three methods carry distinct labels |
| Checkout.PaymentResultFor | frontend/src/pages/Checkout.jsx:142-160 | the details' kind matches the chosen method; UPI carries the typed id; a card carries its name and the last four characters of the formatted number field |
| Checkout.ItemImage | frontend/src/pages/Checkout.jsx:169 | the first image when it is non-empty, else `image` when present, else '' |
| Checkout.OrderItemsFor | frontend/src/pages/Checkout.jsx:164-170 | one line per cart entry, with id, name, quantity and price |
| Checkout.PricingFacts | frontend/src/pages/Checkout.jsx:204-206 | free shipping iff subtotal > 50; total is 1.1 × subtotal plus shipping |
| Checkout.OrderData | frontend/src/pages/Checkout.jsx:163-178 | the cart's lines, the address as entered, the label and details of the method, the cart subtotal; tax is 10% of it, shipping is 0 above 50 and 9.99 otherwise, and the total is the sum of the three parts |
| Checkout.OrderDataHasItems | frontend/src/pages/Checkout.jsx:163-178 | the request has items iff the cart is non-empty |
| Checkout.WithPaymentField | frontend/src/pages/Checkout.jsx:76-93 | card number and expiry are stored formatted; UPI id, card name and CVV as typed; only that field changes |
| Checkout.CheckoutPage.constructor | frontend/src/pages/Checkout.jsx:24-67 | step 1, user's name and email pre-filled, country 'India' |
| Checkout.CheckoutPage.ChangeShipping | frontend/src/pages/Checkout.jsx:69-74 | one shipping field changes |
| Checkout.CheckoutPage.ContinueToPayment | frontend/src/pages/Checkout.jsx:115-121 | step 2 iff shipping is valid |
| Checkout.CheckoutPage.BackToShipping | frontend/src/pages/Checkout.jsx:584 | back to step 1, data kept |
| Checkout.CheckoutPage.SelectPaymentMethod | frontend/src/pages/Checkout.jsx:439 | the chosen method is recorded |
| Checkout.CheckoutPage.ChangePayment | frontend/src/pages/Checkout.jsx:76-93 | one payment field changes, formatted |
| Checkout.CheckoutPage.PlaceOrder | frontend/src/pages/Checkout.jsx:123-202 | sent iff signed in and payment valid, and what is sent is `OrderData` of the page's state; step 3 iff the API answers success |
| Deals.NextTimeLeft | frontend/src/pages/Deals.jsx:27-41 | valid readings stay valid and lose one second, stuck at zero |
| Deals.Countdown.constructor | frontend/src/pages/Deals.jsx:9-13 | starts at 23:45:30 |
| Deals.Countdown.Tick | frontend/src/pages/Deals.jsx:26-43 | total seconds decrease by one, down to zero |
| Home.HomeSections | frontend/src/pages/Home.jsx:69-118 | nothing is set iff the whole-list request throws; a row holds at most eight products unless its endpoint answered more |
| Home.MoreReviewedOrder | frontend/src/pages/Home.jsx:103 | the comparator is a strict weak order |
| Home.FallbackOnlyWhenEmpty | frontend/src/pages/Home.jsx:76-106 | a row shows its endpoint's array (a non-array or a thrown request counting as empty), and uses the fallback iff that is empty and products exist |
| Home.FallbackFeaturedIs | frontend/src/pages/Home.jsx:96-99 | the first eight well-rated products in order |
| Home.FallbackTrendingIs | frontend/src/pages/Home.jsx:101-105 | eight most-reviewed, sorted, and no omitted product has more reviews |
| Home.NewArrivalsAreLastFour | frontend/src/pages/Home.jsx:107-109 | the last four products as delivered |
| ProductCard.ProductImage | frontend/src/components/ProductCard.jsx:33-38 | first image, else image, else imageUrl, else none |
| ProductCard.StockBadges | frontend/src/components/ProductCard.jsx:286-295 | 'Out of Stock' iff stock is 0; 'Low Stock' iff it is below 10 |
| ProductCard.ButtonLabel | frontend/src/components/ProductCard.jsx:391 | 'Added!', 'Out' when disabled, else 'Add' |
| ProductCard.StockNotice | frontend/src/components/ProductCard.jsx:396-400 | a notice iff 0 < stock < 20 |
| ProductCard.StockCuesAgree | frontend/src/components/ProductCard.jsx:286-400 | the out-of-stock badge, disabled button and notice agree |
| ProductCard.OriginalPriceRule | frontend/src/components/ProductCard.jsx:349 | a struck price shows iff it is higher (for a non-negative price) |
| ProductDetails.ProductImages | frontend/src/pages/ProductDetails.jsx:46-52 | the image list, else one image, else none |
| ProductDetails.ImagesAgreeWithCard | frontend/src/pages/ProductDetails.jsx:46-52 | the page's first image is the tile's image |
| ProductDetails.Savings | frontend/src/pages/ProductDetails.jsx:176-183 | savings are shown iff the tile strikes the price, have a positive amount, and are tied to the two prices |
| ProductDetails.ProductDetailsPage.constructor | frontend/src/pages/ProductDetails.jsx:20-24 | the quantity starts at 1 |
| ProductDetails.ProductDetailsPage.Load | frontend/src/pages/ProductDetails.jsx:34-44 | a fetched product replaces the shown one, and the quantity is kept |
| ProductDetails.ProductDetailsPage.IncrementQuantity | frontend/src/pages/ProductDetails.jsx:60-64 | +1 only below stock, and the quantity stays ≥ 1 |
| ProductDetails.ProductDetailsPage.DecrementQuantity | frontend/src/pages/ProductDetails.jsx:66-70 | −1 only above one |
| ProductDetails.ProductDetailsPage.HandleAddToCart | frontend/src/pages/ProductDetails.jsx:54-58 | the chosen quantity goes to the cart |
| ProductsPage.WithFilter | frontend/src/pages/Products.jsx:60-62 | one key changes, the others stay |
| ProductsPage.FiltersByValues | frontend/src/pages/Products.jsx:10-16 | filters are determined by their five values |
| ProductsPage.WithFilterLaws | frontend/src/pages/Products.jsx:60-62 | the last value set wins, and writing the same value changes nothing |
| ProductsPage.NormalizeCategoryAsWritten | frontend/src/pages/Products.jsx:23-26 | lower-cased, and 'home & garden' becomes 'home' |
| ProductsPage.NormalizeCategory | frontend/src/pages/Products.jsx:23-26 | the corrected rule of the Findings row: both home names become 'home', anything else is lower-cased |
| ProductsPage.NormalizeCategoryAgrees | frontend/src/pages/Products.jsx:23-26 | the two rules differ exactly on 'home & living' |
| ProductsPage.LowerIdempotent | frontend/src/pages/Products.jsx:23 | lower-casing twice equals once |
| ProductsPage.CategoryDisplayName | frontend/src/pages/Products.jsx:75-86 | mapped names, else 'All Products' |
| ProductsPage.Title | frontend/src/pages/Products.jsx:92 | 'All Products' iff 'all' or unknown; a known category shows its display name from the map |
| ProductsPage.HomeTileAsWritten | frontend/src/pages/Products.jsx:24 | the 'Home & Living' tile gives an unknown category |
| ProductsPage.HomeTileCorrected | frontend/src/pages/Home.jsx:133 | corrected, both names select 'home' |
| ProductsPage.BuildParams | frontend/src/pages/Products.jsx:42-48 | search, prices and sort are sent iff non-empty; the category iff it is not 'all', even when empty |
| ProductsPage.ProductsPage.constructor | frontend/src/pages/Products.jsx:10-16 | the default filters |
| ProductsPage.ProductsPage.ApplyStoredCategory | frontend/src/pages/Products.jsx:19-32 | a non-empty stored category is applied as the written rule normalises it, then removed; otherwise nothing changes |
| ProductsPage.ProductsPage.HandleFilterChange | frontend/src/pages/Products.jsx:60-62 | only that key changes |
| ProductsPage.ProductsPage.ResetFilters | frontend/src/pages/Products.jsx:64-72 | back to the defaults |
| OrdersPage.FilteredOrders | frontend/src/pages/Orders.jsx:97-100 | 'all' shows all; another tab shows exactly that status |
| OrdersPage.TabsMatchStats | frontend/src/pages/Orders.jsx:290-302 | the tab counts equal the admin statistics |
| OrdersPage.StatusCountsPartition | frontend/src/pages/Orders.jsx:284-302 | five status counts sum to all orders when statuses are known |
| OrdersPage.StatusColor | frontend/src/pages/Orders.jsx:76-85 | five colours, and the grey default iff the status is unknown |
| OrdersPage.StatusColorsDistinct | frontend/src/pages/Orders.jsx:76-85 | known statuses have distinct colours |
| OrdersPage.ItemPreview | frontend/src/pages/Orders.jsx:336-351 | the first three items, plus "+n more" iff there are more than three |
| OrdersPage.PreviewAccountsForAll | frontend/src/pages/Orders.jsx:349-351 | shown plus hidden equals all items |
| Profile.StatusClass | frontend/src/pages/Profile.jsx:73-82 | known classes, 'status-default' iff the status is unknown |
| Profile.OrderItemsOf | frontend/src/pages/Profile.jsx:85-87 | orderItems, else items, else [] |
| Profile.IdLabel | frontend/src/pages/Profile.jsx:210 | the last eight characters of the id |
| Profile.TotalShown | frontend/src/pages/Profile.jsx:242 | totalPrice unless zero or missing, then totalAmount, then 0 |
| Profile.CancelButtonMismatch | frontend/src/pages/Profile.jsx:251 | as written the button misses 'processing' and includes 'confirmed' |
| Profile.CancelVisibleMatchesServer | backend/controllers/orderController.js:211 | corrected, the button shows iff the server would cancel |
| Register.CheckForm | frontend/src/pages/Register.jsx:21-29 | a mismatch first, then the length, else accepted |
| Register.Submit | frontend/src/pages/Register.jsx:17-44 | an error message or the home page |
| Register.GoHomeNeedsValidForm | frontend/src/pages/Register.jsx:17-44 | going home needs matching passwords of at least 6 characters |
| Faq.DashPosition | frontend/src/pages/FAQ.jsx:84 | the first dash follows the category digits |
| Faq.KeyInjective | frontend/src/pages/FAQ.jsx:84 | distinct questions have distinct keys |
| Faq.Toggled | frontend/src/pages/FAQ.jsx:85 | opens the question unless it is the open one |
| Faq.AtMostOneOpen | frontend/src/pages/FAQ.jsx:105-106 | at most one question is open |
| Faq.ToggleLaws | frontend/src/pages/FAQ.jsx:83-86 | toggle opens it and closes the others; twice closes it |
| Faq.FaqPage.constructor | frontend/src/pages/FAQ.jsx:6 | nothing open |
| Faq.FaqPage.ToggleQuestion | frontend/src/pages/FAQ.jsx:83-86 | the open index is toggled |

## Left out

**Outside the model:**
- Network calls, local-storage writes, timers (`setInterval`, the delayed `clearCart`) and alerts. Network answers appear as parameters.
- `populate`, schema defaults and the create/update product routes.
- Order-number generation and a failing `Order.create`.
- Ids that are not well-formed ObjectIds, for which `findById` throws a CastError and the handlers answer 500. Ids are modelled as well-formed keys, so an unknown id is always the 404 path.
- Floating point and `toFixed`: money is exact `real`.
- `NaN` and fractional quantities.
- Regex metacharacters in a search term. A term is treated as a literal substring.
- ProductRoutes.ListProductsIn / DefaultPage: the database returns products with equal sort keys in an unspecified order, so ties may come back in any order and may move between pages. The model breaks ties by natural order, so the page it gives is one admissible answer.

**Simplifications:**
- Common.Lower: ASCII only, whereas JavaScript's `toLowerCase` is Unicode-aware.
- Register.CheckForm: counts `string` characters, whereas JavaScript counts UTF-16 code units.
- The lookup maps do not model prototype keys such as `constructor`.

**Not modelled:**
- The `isNew` badge: `isNew` is not a product field.
- Status label capitalisation.
- Input `maxLength` attributes.
- The checkout's redirects: to login when signed out, and the empty-cart alert (Checkout.jsx:36-46).
- Home.jsx:130-137: the 'Fashion' and 'Beauty' tiles match no category. This is noted, but no fix is inferred.

## Findings

| source | as written | input that shows it | evidently intended | confidence | as-written member | corrected member |
|---|---|---|---|---|---|---|
| frontend/src/pages/Checkout.jsx:104-106 | `upiId` is missing from the initial state (line 66), so its `.trim()` throws | pick UPI and place the order without typing an id | return false | not executed | Checkout.UpiUntouchedThrows | Checkout.ValidatePaymentAgrees |
| frontend/src/pages/Checkout.jsx:150 | `slice(-4)` of the grouped number from line 81 | card 123456789012345 is stored as `1234 5678 9012 345`, giving ` 345` | the last four digits | not executed | Checkout.CardLastFourAsWrittenFifteen | Checkout.CardLastFourOfFormatted |
| frontend/src/pages/Profile.jsx:251 | Cancel shown for 'pending' or 'confirmed' | a 'processing' order has no button; a 'confirmed' one would be refused | pending or processing | not executed | Profile.CancelButtonMismatch | Profile.CancelVisibleMatchesServer |
| frontend/src/pages/Products.jsx:24 | only 'home & garden' is renamed | the 'Home & Living' tile (Home.jsx:133) | rename it to 'home' | not executed | ProductsPage.HomeTileAsWritten | ProductsPage.HomeTileCorrected |
