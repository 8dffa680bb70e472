# Storefront core in Dafny

A Dafny model of the core of a small React storefront for handmade goods. The model covers:

- the twelve-product catalog;
- the product listing with its category, search, price and sort pipeline;
- the featured section and the product detail page;
- the cart engine, which is mirrored into local storage;
- checkout on the cart page, which writes one order row and then one item row per cart line;
- the user's address directory, with its "at most one default address per user" rule, and the page that edits it;
- the order history page, with its status, payment and delivery badges.

Remote tables (`addresses`, `orders`, `order_items`) are sequences of rows. Whether each remote write or read is accepted is a boolean parameter, so every error path is modelled. Service-assigned values are also parameters: row ids and `created_at`. So are the browser's clock, which the delivery estimate is computed from, and the random delivery draw. Prices are integer cents.

Modules:

- `Seqs`, `Sorting` and `Text`: generic helpers (filter, prefix, stable insertion sort, ASCII lower-casing, substring search, decimal digits).
- `Catalog`: products.ts.
- `CartEngine`: CartContext.tsx.
- `AddressDirectory`: useAddresses.tsx.
- `AddressesPage`: Addresses.tsx.
- `Checkout`: Cart.tsx.
- `ProductsPage`: Products.tsx.
- `FeaturedSection`: FeaturedProducts.tsx.
- `ProductDetail`: ProductDetail.tsx.
- `OrderHistory`: Orders.tsx.

Three behaviours of the code that the model keeps as written:

- **Setting a default address.** src/hooks/useAddresses.tsx:126-135 awaits the clearing of the user's other defaults, ignores its error and then runs the set. `AddressDirectory.SetDefaultWrites` models this, and `AddressDirectory.ClearRejectedLeavesTwoDefaults` shows the result: a user with two default rows. The same unchecked clear precedes insert and update (lines 50-56 and 78-83). The "at most one default per user" invariant therefore holds only when the clear is accepted.
- **Choices after a route change.** src/pages/ProductDetail.tsx:26-28 initialises the colour, size and quantity with `useState` only, and nothing resets them when the route id changes. A related product's card (lines 209-211) links to `/products/:id`, so following it reuses the mounted page and keeps the previous product's choices. `ProductDetail.ProductDetailPage.RouteChanged` models this, and `ProductDetail.StaleColorReachesCart` shows an unlisted colour reaching the cart.
- **Cart line quantities.** `addToCart` and `updateQuantity` accept any number. Only the buttons on the cart page and on the detail page keep quantities at least 1 (`Checkout.ClicksKeepQuantitiesPositive`, `ProductDetail.ProductDetailPage.Valid`).

## Model

| member | source | states |
|---|---|---|
| Catalog.CatalogIds | src/data/products.ts:18-191 | the catalog holds 12 products whose ids are 1..12 in order, so ids are distinct |
| Catalog.CatalogPricesAndStock | src/data/products.ts:18-191 | every product has a positive price and is in stock |
| Catalog.CatalogCategories | src/data/products.ts:18-191 | every category is "dresses", "decor" or "accessories" |
| Catalog.CatalogFeatured | src/data/products.ts:18-191 | a product is featured exactly when its id is 1, 2, 3 or 6 |
| Catalog.CatalogColors | src/data/products.ts:18-191 | every product lists colours |
| Catalog.CatalogSizes | src/data/products.ts:18-191 | a product lists sizes exactly when its id is 1, 2, 6 or 11 |
| Catalog.CatalogPricesWithinRange | src/data/products.ts:18-191 | every price lies inside the listing's initial $0-$200 range |
| Catalog.CatalogFeaturedAt | src/data/products.ts:18-191 | the featured products sit at positions 0, 1, 2 and 5 |
| Catalog.CatalogFeaturedInOrder | src/data/products.ts:18-191 | the featured products in catalog order are ids 1, 2, 3, 6 |
| Catalog.CatalogNotFeaturedInOrder | src/data/products.ts:18-191 | the other products in catalog order are positions 3, 4 and 6..11 |
| FeaturedSection.FeaturedProducts | src/components/FeaturedProducts.tsx:8-11 | at most four products, each a featured product of the catalog |
| FeaturedSection.FeaturedProductsAreFirstFeatured | src/components/FeaturedProducts.tsx:8-11 | the section shows the first min(4, n) of the n featured products, in catalog order |
| FeaturedSection.FewFeaturedAllShown | src/components/FeaturedProducts.tsx:8-11 | with at most four featured products, exactly the featured products are shown |
| FeaturedSection.ShippedFeaturedProducts | src/components/FeaturedProducts.tsx:8-11 | with the shipped catalog the section shows ids 1, 2, 3, 6 in that order |
| ProductsPage.InitialFilters | src/pages/Products.tsx:13-20 | category is the query parameter, or "all" when it is absent or empty; no search; $0-$200; "featured" |
| ProductsPage.ByCategory | src/pages/Products.tsx:34-36 | keeps exactly the products of the chosen category; "all" keeps the list unchanged |
| ProductsPage.BySearch | src/pages/Products.tsx:39-46 | keeps exactly the products whose lower-cased name, description or a tag contains the lower-cased query; an empty query keeps the list |
| ProductsPage.ByPrice | src/pages/Products.tsx:49-51 | keeps exactly the products priced within the inclusive range |
| ProductsPage.ByCategoryIsFilter | src/pages/Products.tsx:34-36 | the category stage is a filter by one test, including for "all" |
| ProductsPage.BySearchIsFilter | src/pages/Products.tsx:39-46 | the search stage is a filter by one test, including for an empty query |
| ProductsPage.FilteredIsOneFilter | src/pages/Products.tsx:30-51 | the three stages keep exactly the products passing all three tests, as a subsequence of the catalog |
| ProductsPage.Filtered | src/pages/Products.tsx:30-51 | a product is kept exactly when it passes the category, search and price tests |
| ProductsPage.SortKey | src/pages/Products.tsx:54-68 | the key orders by ascending price, descending price, name collation, or featured before the rest, as the option says |
| ProductsPage.Results | src/pages/Products.tsx:54-68 | a permutation of the filtered products, sorted by the option's key |
| ProductsPage.FeaturedRank | src/pages/Products.tsx:64-67 | rank 0 exactly for featured products, 1 otherwise |
| ProductsPage.ResultsArePermutationOfFiltered | src/pages/Products.tsx:54-68 | every sort option shows a permutation of the filtered products |
| ProductsPage.PriceLowAscends | src/pages/Products.tsx:55-57 | "price-low" shows non-decreasing prices |
| ProductsPage.PriceHighDescends | src/pages/Products.tsx:58-60 | "price-high" shows non-increasing prices |
| ProductsPage.NameAscends | src/pages/Products.tsx:61-63 | "name" shows names in collation order |
| ProductsPage.TiesKeepCatalogOrder | src/pages/Products.tsx:54-68 | products with equal sort keys keep their catalog order (the sort is stable) |
| ProductsPage.FeaturedFirst | src/pages/Products.tsx:64-67 | "featured", and any unknown option, shows the featured products and then the others, each group in catalog order |
| Sorting.Insert | src/pages/Products.tsx:54-68 | the result holds the input's elements plus the inserted one, as a multiset |
| Sorting.InsertKeepsSorted | src/pages/Products.tsx:54-68 | inserting into a sorted list keeps it sorted |
| Sorting.SortBy | src/pages/Products.tsx:54-68 | the result is sorted by the key and is a permutation of the input |
| Sorting.SortByIsStable | src/pages/Products.tsx:54-68 | the elements of any one key keep their input order |
| Sorting.SortByTwoKeysPartitions | src/pages/Products.tsx:64-67 | with a 0/1 key the result is the 0-elements followed by the 1-elements, each in input order |
| Text.ToLower | src/pages/Products.tsx:40-44 | same length; each ASCII upper-case letter is lowered, every other character is kept, and no upper-case letter remains |
| Text.IncludesIffOccurs | src/pages/Products.tsx:42-44 | `includes` holds exactly when the needle occurs at some position |
| Text.DecimalRoundTrip | src/pages/Orders.tsx:97 | the decimal digits of a number read back as that number |
| ProductDetail.FirstWithId | src/pages/ProductDetail.tsx:17 | the first position holding the id, or the catalog length when no product has it |
| ProductDetail.FindById | src/pages/ProductDetail.tsx:17 | finds a product exactly when the route id is a number that some product carries, and the product found carries it |
| ProductDetail.FindByIdIsUnique | src/pages/ProductDetail.tsx:17 | with distinct ids, looking up a product's id returns that product |
| ProductDetail.ShippedLookup | src/pages/ProductDetail.tsx:17 | in the shipped catalog exactly ids 1..12 resolve, each to the product at position id-1 |
| ProductDetail.RelatedProducts | src/pages/ProductDetail.tsx:20-24 | at most four products of the same category with another id; none without a product |
| ProductDetail.RelatedProductsInCatalogOrder | src/pages/ProductDetail.tsx:20-24 | the first min(4, n) qualifying products in catalog order, never the product itself |
| ProductDetail.FirstOrEmpty | src/pages/ProductDetail.tsx:26-27 | the first listed value, or "" when none is listed |
| ProductDetail.InitialSizeReachesOrder | src/pages/ProductDetail.tsx:26-27 | a product without sizes enters the cart with size "" and its order item row stores no size; otherwise the row stores the first size |
| ProductDetail.ProductDetailPage.constructor | src/pages/ProductDetail.tsx:17-28 | first render: the looked-up product, its related products, the first colour and size, quantity 1; the choices are listed by the product |
| ProductDetail.ProductDetailPage.RouteChanged | src/pages/ProductDetail.tsx:17-28 | a new route id on the mounted page recomputes the product and its related products; the colour, size and quantity keep their values |
| ProductDetail.ProductDetailPage.Decrement | src/pages/ProductDetail.tsx:160 | "-" lowers the quantity only when it is above 1 |
| ProductDetail.ProductDetailPage.Increment | src/pages/ProductDetail.tsx:167 | "+" raises the quantity by one |
| ProductDetail.ProductDetailPage.SelectColor | src/pages/ProductDetail.tsx:123 | choosing one of the shown product's colours selects it; the quantity stays at least 1 |
| ProductDetail.ProductDetailPage.SelectSize | src/pages/ProductDetail.tsx:145 | choosing one of the shown product's sizes selects it; the quantity stays at least 1 |
| ProductDetail.ProductDetailPage.HandleAddToCart | src/pages/ProductDetail.tsx:46-48 | the product, a quantity of at least 1 and the chosen colour and size go to `addToCart` unchanged, and storage then mirrors the cart; without a product the cart and storage are untouched; the payment method never changes |
| ProductDetail.StaleColorReachesCart | src/pages/ProductDetail.tsx:26-48 | after choosing a colour of one product and following a link to another, "Add to cart" puts a line of the new product with the old colour in the cart |
| ProductDetail.NaturalIsStaleOnFour | src/data/products.ts:18-191 | in the shipped catalog product 3 lists "Natural" and product 4 does not, so carrying the colour from 3 to 4 gives a colour product 4 does not offer |
| CartEngine.FindKey | src/contexts/CartContext.tsx:58-63 | the first line with the same id, colour and size, or -1 exactly when no line matches |
| CartEngine.AddLine | src/contexts/CartContext.tsx:55-89 | "updated" exactly when a line has the key; then one matching line gains the quantity; otherwise one new line is appended; lines without the key are unchanged |
| CartEngine.AddMergesIntoFirstMatch | src/contexts/CartContext.tsx:58-72 | the quantity is merged into the first matching line, and nothing else changes |
| CartEngine.AddAppendsNewLine | src/contexts/CartContext.tsx:74-86 | with no match, exactly one line is appended after the existing lines |
| CartEngine.AddKeepsKeysDistinct | src/contexts/CartContext.tsx:55-89 | no two lines ever share (id, colour, size) |
| CartEngine.RemoveProduct | src/contexts/CartContext.tsx:91-99 | keeps, in order, exactly the lines of other products, whatever the variant, each as many times as before |
| CartEngine.RemoveSignalsIffPresent | src/contexts/CartContext.tsx:94-96 | the "removed" toast appears exactly when some line of the product existed |
| CartEngine.RemoveIsIdempotent | src/contexts/CartContext.tsx:91-99 | removing the same product twice equals removing it once |
| CartEngine.SetQuantity | src/contexts/CartContext.tsx:101-107 | every variant of the product takes the quantity, with no lower bound; the other lines and the length are unchanged |
| CartEngine.TotalItems | src/contexts/CartContext.tsx:114-116 | a cart whose lines all have positive quantities counts at least one item per line |
| CartEngine.TotalPrice | src/contexts/CartContext.tsx:118-120 | with non-negative quantities and prices the total is non-negative |
| CartEngine.TotalsOfAppend | src/contexts/CartContext.tsx:114-120 | item count and price total add up over concatenated carts |
| CartEngine.TotalsOfUpdate | src/contexts/CartContext.tsx:114-120 | changing one line's quantity moves the totals by the difference |
| CartEngine.AddLineTotals | src/contexts/CartContext.tsx:55-89 | every add raises the item count by the quantity, and the total by the quantity times the price of the line it lands in |
| CartEngine.TotalsExample | src/contexts/CartContext.tsx:114-120 | two at $20 and one at $50: 3 items, $90 |
| CartEngine.RepeatedAddsAccumulate | src/contexts/CartContext.tsx:55-89 | repeated adds of a new variant leave one line for it, at the end, holding the sum of the quantities |
| CartEngine.MergeIntoLast | src/contexts/CartContext.tsx:58-72 | an add whose only match is the last line merges into that line |
| CartEngine.Serialize | src/contexts/CartContext.tsx:52 | saving always writes well-formed cart text (read back by `CartEngine.ParseSerialize`) |
| CartEngine.Parse | src/contexts/CartContext.tsx:42-45 | parsing fails exactly on malformed text |
| CartEngine.ParseSerialize | src/contexts/CartContext.tsx:42-52 | a saved cart parses back to itself |
| CartEngine.Rehydrate | src/contexts/CartContext.tsx:38-48 | a parseable stored cart is restored; a missing or malformed one gives the empty cart |
| CartEngine.RehydrateAfterSave | src/contexts/CartContext.tsx:38-53 | reloading after a save restores exactly the saved cart |
| CartEngine.CartStore.constructor | src/contexts/CartContext.tsx:34-35 | an empty cart with "cod" as the payment method |
| CartEngine.CartStore.LoadEffect | src/contexts/CartContext.tsx:38-48 | a parseable stored cart becomes the cart; a malformed one is removed from storage; an absent or empty slot changes nothing |
| CartEngine.CartStore.SaveEffect | src/contexts/CartContext.tsx:51-53 | storage holds the serialised current cart |
| CartEngine.CartStore.Mount | src/contexts/CartContext.tsx:37-53 | after mounting, the cart is what was stored (or empty) and storage mirrors it |
| CartEngine.CartStore.AddToCart | src/contexts/CartContext.tsx:55-89 | the cart and the toast follow `AddLine`; storage mirrors the new cart |
| CartEngine.CartStore.RemoveFromCart | src/contexts/CartContext.tsx:91-99 | the cart loses the product's lines; the toast appears exactly when something was removed; storage mirrors the new cart |
| CartEngine.CartStore.UpdateQuantity | src/contexts/CartContext.tsx:101-107 | the cart follows `SetQuantity`; storage mirrors the new cart |
| CartEngine.CartStore.ClearCart | src/contexts/CartContext.tsx:109-112 | the cart is empty with zero totals; storage mirrors it |
| CartEngine.CartStore.SetPaymentMethod | src/contexts/CartContext.tsx:35 | the payment method is replaced |
| AddressDirectory.NewRow | src/hooks/useAddresses.tsx:58-60 | the inserted row carries the new id, the user as owner and the requested flag |
| AddressDirectory.Apply | src/hooks/useAddresses.tsx:85-88 | supplied columns take the new value; id and owner never change |
| AddressDirectory.ApplyEmptyPatch | src/hooks/useAddresses.tsx:85-88 | a patch naming no column changes nothing |
| AddressDirectory.UpdateWhere | src/hooks/useAddresses.tsx:85-88 | exactly the matching rows are patched, in place |
| AddressDirectory.DefaultsFirst | src/hooks/useAddresses.tsx:29-32 | a permutation of the rows with every default row before every other row |
| AddressDirectory.Listing | src/hooks/useAddresses.tsx:29-35 | exactly the user's rows, each as often as in the table, with every default row before every other row |
| AddressDirectory.FilterKeepsUniqueIds | src/hooks/useAddresses.tsx:105-108 | removing rows keeps ids unique |
| AddressDirectory.FilterKeepsAtMostOneDefault | src/hooks/useAddresses.tsx:105-108 | removing rows keeps at most one default per user |
| AddressDirectory.FlagsOnlyDrop | src/hooks/useAddresses.tsx:126-129 | a write that keeps owners and only clears flags keeps at most one default per user |
| AddressDirectory.UpdateKeepsUniqueIds | src/hooks/useAddresses.tsx:85-88 | patching keeps ids unique |
| AddressDirectory.SetDefaultWrites | src/hooks/useAddresses.tsx:126-135 | same length, ids and owners; an accepted set makes the target default; an accepted clear unflags the user's other rows; other users' rows with another id are untouched |
| AddressDirectory.SetDefaultLeavesSoleDefault | src/hooks/useAddresses.tsx:121-135 | with both writes accepted, each of the user's rows is default exactly when it is the target, and other users' rows are untouched |
| AddressDirectory.SetDefaultThenRead | src/hooks/useAddresses.tsx:121-140 | after setting a default, the user's listing starts with that row, and it is the only default |
| AddressDirectory.SoleDefaultListsFirst | src/hooks/useAddresses.tsx:29-32 | a user's only default row is listed first, and no other listed row is default |
| AddressDirectory.ClearRejectedLeavesTwoDefaults | src/hooks/useAddresses.tsx:126-135 | a rejected clear followed by an accepted set leaves one user with two defaults |
| AddressDirectory.SetDefaultKeepsInvariant | src/hooks/useAddresses.tsx:121-137 | setting a default keeps at most one default per user whenever the clear is accepted or the set rejected |
| AddressDirectory.AddWrites | src/hooks/useAddresses.tsx:50-60 | the new row is appended exactly when the insert is accepted; when it is default and the clear is accepted, the user's earlier rows lose their flag; every other row is untouched |
| AddressDirectory.AddKeepsInvariant | src/hooks/useAddresses.tsx:45-71 | adding keeps at most one default per user unless a default row is inserted after a rejected clear |
| AddressDirectory.AddKeepsUniqueIds | src/hooks/useAddresses.tsx:58-60 | inserting under a fresh id keeps ids unique |
| AddressDirectory.UpdateWrites | src/hooks/useAddresses.tsx:78-88 | same length, ids and owners; rows of other users with another id are untouched; an accepted patch that supplies the flag gives the target that flag |
| AddressDirectory.UpdateWritesEffect | src/hooks/useAddresses.tsx:78-88 | the target row takes the patch; the user's other rows lose their flag exactly when the patch sets it; other users' rows are untouched |
| AddressDirectory.UpdateKeepsInvariant | src/hooks/useAddresses.tsx:73-99 | updating keeps at most one default per user unless the flag is set after a rejected clear |
| AddressDirectory.DeleteWrites | src/hooks/useAddresses.tsx:105-108 | an accepted delete removes exactly the rows with that id and keeps the rest in order; a rejected one changes nothing |
| AddressDirectory.DeleteKeepsInvariant | src/hooks/useAddresses.tsx:101-119 | deleting keeps ids unique and at most one default per user |
| AddressDirectory.AddressBook.constructor | src/hooks/useAddresses.tsx:21-22 | no rows listed yet, and loading |
| AddressDirectory.AddressBook.FetchAddresses | src/hooks/useAddresses.tsx:24-43 | nothing happens without a user; otherwise a successful read lists the user's rows with defaults first, a failed read keeps the old list, and loading ends |
| AddressDirectory.AddressBook.OnUserChanged | src/hooks/useAddresses.tsx:148-155 | signing out empties the list; signing in fetches |
| AddressDirectory.AddressBook.AddAddress | src/hooks/useAddresses.tsx:45-71 | the table takes the add writes; success exactly when the insert is accepted, then a refetch; the invariant is kept under the condition above |
| AddressDirectory.AddressBook.UpdateAddress | src/hooks/useAddresses.tsx:73-99 | the table takes the update writes; success exactly when the update is accepted, then a refetch; the invariant is kept under the condition above |
| AddressDirectory.AddressBook.DeleteAddress | src/hooks/useAddresses.tsx:101-119 | the table takes the delete; success exactly when it is accepted, then a refetch; the invariant is kept |
| AddressDirectory.AddressBook.SetDefaultAddress | src/hooks/useAddresses.tsx:121-146 | the table takes both writes; only the set step decides success; the invariant is kept under the condition above |
| AddressesPage.InputOf | src/pages/Addresses.tsx:111-118 | the form becomes the insert payload with its flag and country |
| AddressesPage.PatchOf | src/pages/Addresses.tsx:111-118 | the form becomes a patch that supplies every column, including the flag |
| AddressesPage.AddDialogForm | src/pages/Addresses.tsx:83-95 | a blank form, with "India" as the country, pre-ticked as default exactly when the user has no address |
| AddressesPage.EditDialogForm | src/pages/Addresses.tsx:97-109 | the edit form carries the row's flag, and submitting it unchanged rewrites the row as it was |
| AddressesPage.SetDefaultTargets | src/pages/Addresses.tsx:187-195 | "Set as Default" is offered for exactly the non-default rows |
| AddressesPage.FirstAddressBecomesDefault | src/pages/Addresses.tsx:83-95 | a user's first address, submitted from the pre-ticked dialog, reads back as their only row, marked default |
| AddressesPage.AddressDialog.constructor | src/pages/Addresses.tsx:63-76 | the dialog is closed, edits nothing and holds the default form |
| AddressesPage.AddressDialog.OpenAddDialog | src/pages/Addresses.tsx:83-95 | the dialog opens for a new row with the add form |
| AddressesPage.AddressDialog.OpenEditDialog | src/pages/Addresses.tsx:97-109 | the dialog opens on the row with its values |
| AddressesPage.AddressDialog.HandleSubmit | src/pages/Addresses.tsx:111-118 | an edit updates the row with every form value, otherwise a row is added; on success the list is refetched, otherwise it is unchanged; the dialog closes either way |
| AddressesPage.AddressDialog.HandleDelete | src/pages/Addresses.tsx:120-124 | the row is deleted only after confirmation; on success the list is refetched, otherwise it is unchanged |
| AddressesPage.AddressDialog.HandleSetDefault | src/pages/Addresses.tsx:126-128 | the directory's set-default writes are applied and their report is returned; on success the list is refetched; without a user or on failure it is unchanged |
| Checkout.DeliveryOffsetDays | src/pages/Cart.tsx:53-54 | the delivery offset is 3, 4 or 5 days |
| Checkout.DeliveryOffsetsReachable | src/pages/Cart.tsx:53-54 | each of 3, 4 and 5 days can be drawn |
| Checkout.PaymentStatus | src/pages/Cart.tsx:64 | "Pending" exactly for cash on delivery, otherwise "Paid" |
| Checkout.NewOrder | src/pages/Cart.tsx:57-69 | the row carries the service's id, the buyer, the chosen address and payment method; its total is the cart total, its status is "Processing", its payment status follows the method; delivery is the drawn 3, 4 or 5 days after the browser's clock; `createdAt` is the service's own stamp |
| Checkout.NullIfEmpty | src/pages/Cart.tsx:83-84 | absent and empty values become null; other values are kept |
| Checkout.ItemRow | src/pages/Cart.tsx:78-85 | an item row records the line's product, quantity, unit price, colour and size |
| Checkout.ItemRows | src/pages/Cart.tsx:78-85 | one item row per cart line, in cart order |
| Checkout.ItemsTotalIsCartTotal | src/pages/Cart.tsx:57-85 | the order's stored total equals the sum over its item rows |
| Checkout.FirstDefault | src/pages/Cart.tsx:28 | the first default address, or none exactly when no address is default |
| Checkout.PreselectedId | src/pages/Cart.tsx:26-35 | the first default address, else the first address |
| Checkout.PreselectsFirstOfListing | src/pages/Cart.tsx:26-35 | on a listing with defaults first, the preselection is the first row |
| Checkout.MinusClick | src/pages/Cart.tsx:214 | on quantity above 1 every line of the clicked product, whatever its variant, takes the clicked quantity minus one; on quantity 1 nothing changes; other products' lines are untouched |
| Checkout.PlusClick | src/pages/Cart.tsx:221 | every line of the clicked product, whatever its variant, takes the clicked quantity plus one; other products' lines are untouched |
| Checkout.ClicksKeepQuantitiesPositive | src/pages/Cart.tsx:214-221 | the cart's "-" and "+" never take a positive quantity below 1; "-" on quantity 1 does nothing |
| Checkout.PlusOverwritesSiblingVariant | src/pages/Cart.tsx:221 | "+" on one variant also sets the quantity of the product's other variants |
| Checkout.CartPage.constructor | src/pages/Cart.tsx:20-22 | not processing, no confirmation, no address selected |
| Checkout.CartPage.PreselectAddress | src/pages/Cart.tsx:26-35 | once addresses are loaded and there is at least one, the preselected id is chosen; otherwise nothing changes |
| Checkout.CartPage.PlaceOrder | src/pages/Cart.tsx:37-101 | no user: go to sign-in; no address: nothing is written; otherwise the order row, then the item rows, are appended as each insert is accepted; confirmation exactly when both are accepted; the cart is never cleared |
| Checkout.CartPage.FinishOrder | src/pages/Cart.tsx:103-109 | the cart is cleared and the orders page is shown |
| Checkout.CartPage.MinusClicked | src/pages/Cart.tsx:214 | the cart follows the "-" rule |
| Checkout.CartPage.PlusClicked | src/pages/Cart.tsx:221 | the cart follows the "+" rule |
| OrderHistory.StatusColor | src/pages/Orders.tsx:137-148 | yellow, blue and green exactly for "Processing", "Shipped" and "Delivered"; gray for anything else |
| OrderHistory.PaymentStatusColor | src/pages/Orders.tsx:150-159 | green exactly for "Paid", yellow exactly for "Pending", gray otherwise |
| OrderHistory.StatusBadge | src/pages/Orders.tsx:204-208 | "Delivered" in green exactly once the estimate has passed, otherwise "In Transit" in the stored status's colour |
| OrderHistory.DeliveryNote | src/pages/Orders.tsx:247-249 | the delivery note says "Delivered on" exactly when the badge says "Delivered" |
| OrderHistory.PlacedOrderBadges | src/pages/Orders.tsx:204-208 | a new order shows "In Transit" in yellow for at least three days and "Delivered" in green after five; its payment badge is yellow for cash on delivery, green otherwise |
| OrderHistory.MethodLabel | src/pages/Orders.tsx:232-242 | "Cash on Delivery" exactly for "cod", otherwise "Online Payment" |
| OrderHistory.CountLabel | src/pages/Orders.tsx:255 | "item" exactly for one, otherwise "items" |
| OrderHistory.ShortId | src/pages/Orders.tsx:197 | the first min(8, length) characters of the id |
| OrderHistory.ProductLabel | src/pages/Orders.tsx:97 | "Product #" followed by the id's digits, with a minus sign exactly for a negative id |
| OrderHistory.ProductLabelNamesId | src/pages/Orders.tsx:97 | "Product #" followed by digits that read back as the product id |
| OrderHistory.ViewItem | src/pages/Orders.tsx:94-103 | the view keeps the row's product, price and quantity; it shows colour and size exactly when they are non-empty |
| OrderHistory.CartLineShownBack | src/pages/Orders.tsx:94-103 | a cart line written at checkout and read back shows its product, price and quantity, and its colour and size exactly when they were non-empty |
| OrderHistory.ViewItems | src/pages/Orders.tsx:94-103 | one view per item row, in order |
| OrderHistory.ViewOrder | src/pages/Orders.tsx:105-115 | the card carries the order's fields and the views of the item rows stored under its id |
| OrderHistory.UserOrders | src/pages/Orders.tsx:64-76 | a permutation of the user's orders, with creation times non-increasing |
| OrderHistory.LoadedOrders | src/pages/Orders.tsx:81-117 | one card per order of the user, in newest-first order |
| OrderHistory.LoadedOrdersNewestFirst | src/pages/Orders.tsx:64-117 | as many cards as the user has orders, dates non-increasing, each card holding exactly its order's items |
| OrderHistory.LoadedOrdersComplete | src/pages/Orders.tsx:64-117 | every order of the user has its card |
| OrderHistory.LoadedOrdersSound | src/pages/Orders.tsx:64-117 | every card is the view of an order of the user |
| OrderHistory.PlacedOrderShown | src/pages/Cart.tsx:59-67 | the order row checkout inserts carries the buyer, so its card appears on the buyer's orders page |
| OrderHistory.PlacedItemsShownWithOrder | src/pages/Orders.tsx:84-87 | after checkout the item query returns exactly the new order's item rows, as a multiset; the card shows one view per cart line and nothing else; order is not promised |
| OrderHistory.OrdersShown | src/pages/Orders.tsx:58-135 | without a user, or when a read fails, the list stays empty |

## Left out

- Markup, styling, routing components and toasts. Toasts are modelled only as returned outcomes (`Report`, `AddOutcome`, `PlaceOutcome`).
- Asynchrony and interleaving: every async handler runs to completion in one step, `Promise.all` is a plain map, and races between tabs are not modelled. React effect scheduling (including StrictMode double effects) is reduced to "load, then save" for the cart and to explicit calls elsewhere.
- Row-level security. The service's policies are not part of this model. Reads are modelled as scoped to the signed-in user, as those policies are meant to make them.
- Service responses are parameters: acceptance of each write, row ids and `created_at`. The browser's clock (`new Date()`) and the `Math.random` draw are parameters too.
- The "no row returned" reply to the order insert (`OrderReply.NoRow`) is treated like a rejection.
- `localeCompare` is a collation rank function given as a parameter. `toLowerCase` is modelled for ASCII letters only.
- The router configuration is not part of this model. `ProductDetail.ProductDetailPage.RouteChanged` assumes one route element for `/products/:id`, so the page stays mounted when only the id changes.
- `Number(id)` is the parameter `routeId: Option<int>`. Parsing the route string is not modelled.
- JSON is modelled as an abstract serialise/parse pair. Malformed text is a separate stored value, not a character-level parser.
- Prices are integer cents. Floating-point rounding and `toFixed` are not modelled.
- Date parsing and formatting (`formatDate`, `toISOString`, `toLocaleDateString`, time zones) are not modelled. Instants are integers in milliseconds, and a day is exactly 86 400 000 ms.
- Orders page: the item row's own id (a React key), the joined shipping address, the loading flag and the sign-in redirect are not modelled. The addresses page's sign-in redirect is not modelled either.
- `CartEngine.AddLine`: the merge path mutates the previous state's line in place (src/contexts/CartContext.tsx:68) before copying the array. The model produces a fresh value, so aliasing into the previous state is not captured.
- `AddressDirectory.DefaultsFirst`: the service orders rows by the flag only. The model keeps table order within each group, which the service does not promise.
- `AddressDirectory.AddKeepsInvariant`, `AddressDirectory.UpdateKeepsInvariant`, `AddressDirectory.SetDefaultKeepsInvariant`: the invariant is proved only when the clear step is accepted whenever the later default-setting write is. The code does not check the clear (see `AddressDirectory.ClearRejectedLeavesTwoDefaults`).
- `OrderHistory.ViewOrder`: the item query at src/pages/Orders.tsx:84-87 has no ordering. The model shows item rows in table order, which the service does not promise.
- `OrderHistory.UserOrders`: orders with equal `created_at` keep their table order. The query orders by that column only, so the service does not promise an order among them.
- `OrderHistory.PlacedItemsShownWithOrder`: states which rows appear and how often, not their order, because the item query does not promise one.
- `OrderHistory.OrdersShown`: the contract states only the empty cases. The successful case is `OrderHistory.LoadedOrders`, whose lemmas state its content.
- `CartEngine.CartStore.SetPaymentMethod`: the payment method is not persisted, as in the source; there is no validation of its value.
