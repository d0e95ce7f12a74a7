# Storefront cart, checkout and signup logic in Dafny

A model of the client-side logic of a React grocery storefront. It covers:

- the shared **cart store**, which holds a list of cart lines plus a separately maintained item counter;
- the **checkout page**, with its subtotal, the fixed delivery charge of 60, and the `FREEUSE` promo code worth 20;
- the **order-review page**, which derives the same figures again from navigation state, with `||`/`??` fallbacks;
- the **cart consumers** that send quantity requests to the store: the "added to cart" toast, the cart sidebar, the product-details page and the product modal's quantity selector;
- the **catalogue searches and list maintenance**: header search with its recent-search list, the search-results page and its applied-filter map, the filter panel, the location picker, related and similar products, and the home page's category sections;
- the **signup wizard**, a six-screen state machine with an OTP input sanitiser and a resend countdown.

Each source component is one Dafny module:

| module | file | source |
|---|---|---|
| `Cart` | `cart.dfy` | `src/contexts/CartContext.tsx` |
| `Checkout` | `checkout.dfy` | `src/Pages/Checkout/Checkout.tsx` |
| `OrderReview` | `order_review.dfy` | `src/Pages/Checkout/OrderReview.tsx` |
| `CartToast` | `cart_toast.dfy` | `src/components/ui/CartToast.tsx` |
| `CartSideBar` | `cart_sidebar.dfy` | `src/components/ui/CartSideBar.tsx` |
| `ProductSearch`, `Header` | `search.dfy`, `header.dfy` | `src/components/layout/Header.tsx` |
| `SearchProduct` | `search_product.dfy` | `src/Pages/SearchProduct/SearchProduct.tsx` |
| `Filters` | `filters.dfy` | `src/Pages/SearchProduct/components/Filters.tsx` |
| `LocationSelector` | `location_selector.dfy` | `src/components/layout/header/LocationSelector.tsx` |
| `ProductDetails` | `product_details.dfy` | `src/Pages/ProductDetails/ProductDetails.tsx` |
| `Home` | `home.dfy` | `src/Pages/Home/Home.tsx` |
| `ProductDetailModal` | `product_detail_modal.dfy` | `src/components/ui/ProductDetailModal.tsx` |
| `Login` | `login.dfy` | `src/Pages/Login/Login.tsx` |

Four modules are shared helpers:

- `Wrappers` holds `Option` and `Result`.
- `Text` stands in for the JavaScript string methods: `trim`, `toLowerCase`, `toUpperCase`, `includes`, `startsWith` and `split`.
- `Seqs` stands in for `filter` and `slice(0, n)`.
- `Catalogue` holds the `Product` record and two fixtures from `src/data/products.ts`. `Events` holds the callbacks a component fires (`onUpdateQuantity`, `onRemoveItem`, `onClose`, `navigate`, ...) as values.

How state is modelled:

- **Components with state become classes.** A component whose handlers rewrite its state is a class, with one field per `useState` and one method per handler. Each method states the whole new state.
- **The cart is specified by step functions.** Each cart method is proved equal to a pure step function on `CartState(items, count)` (`AddStep`, `UpdateStep`, `RemoveStep`). The store's invariant is `Consistent`: the counter equals the sum of quantities, ids are unique, and every quantity is at least 1. Lemmas about the step functions state what each handler does to this invariant.
- **Callbacks are interpreted in the store.** A component returns the effects its callbacks fire, and `Cart.ApplyEffect` applies a cart effect to the store. Lemmas about the toast, the sidebar and the details page can therefore state what a button press does to the cart.
- **The wizard is a transition function.** The signup wizard is `Login.Apply(wizard, event)`. Each `SignupWizard` handler method is proved to take exactly that transition.

## Model

| member | source | states |
|---|---|---|
| Cart.FindLine | src/contexts/CartContext.tsx:31 | the `find` returns a line with the id when one exists, and none exactly when no line has it |
| Cart.Bump | src/contexts/CartContext.tsx:33-37 | same length; the line with the id gains one, every other line is unchanged |
| Cart.SetQuantity | src/contexts/CartContext.tsx:49-51 | same length; the line with the id gets exactly the new quantity, every other line is unchanged |
| Cart.WithoutMembers | src/contexts/CartContext.tsx:60 | the remove filter keeps exactly the lines with another id |
| Cart.UseCart | src/contexts/CartContext.tsx:80-86 | the store inside a provider; outside one, the error "useCart must be used within a CartProvider" |
| Cart.TotalBump | src/contexts/CartContext.tsx:33-41 | bumping a present line raises the sum of quantities by exactly 1, matching the counter's +1 |
| Cart.TotalSetQuantity | src/contexts/CartContext.tsx:49-54 | setting a present line to q changes the sum of quantities by q minus its old quantity, matching the counter's delta |
| Cart.TotalWithout | src/contexts/CartContext.tsx:57-61 | filtering a line out lowers the sum of quantities by its quantity (0 when absent), matching the counter's delta |
| Cart.AddKeepsConsistent | src/contexts/CartContext.tsx:29-42 | an add keeps counter = sum of quantities, unique ids and positive quantities |
| Cart.AddExisting | src/contexts/CartContext.tsx:31-41 | adding a present id: same number of lines, that line's quantity +1 with its other fields kept, all other lines unchanged, count +1 |
| Cart.AddNew | src/contexts/CartContext.tsx:39-41 | adding an absent id appends one line with the product's fields and quantity 1; count and sum of quantities +1 |
| Cart.AddTwice | src/contexts/CartContext.tsx:29-42 | adding a new product twice leaves one line for it, with quantity 2, and keeps the store consistent |
| Cart.RemoveAbsent | src/contexts/CartContext.tsx:57-61 | removing an absent id leaves items and count unchanged |
| Cart.RemovePresent | src/contexts/CartContext.tsx:57-61 | removing a present line drops only that line (order kept), subtracts its quantity, and keeps the store consistent |
| Cart.RemoveKeepsConsistent | src/contexts/CartContext.tsx:57-61 | removal keeps the store consistent for every id and leaves no line with that id |
| Cart.UpdateNonPositiveRemoves | src/contexts/CartContext.tsx:45-48 | an update to q <= 0 has exactly the effect of removing the id; the id is gone and the store stays consistent |
| Cart.UpdatePresent | src/contexts/CartContext.tsx:49-54 | an update to q > 0 of a present line sets exactly that line's quantity, with order and the other lines kept; count changes by q minus the old quantity; the store stays consistent |
| Cart.UpdateAbsentBreaksCount | src/contexts/CartContext.tsx:49-54 | an update to q > 0 of an absent id leaves the lines unchanged but raises the count by q, so a consistent store becomes inconsistent |
| Cart.UpdateAbsentExample | src/contexts/CartContext.tsx:49-54 | on the empty cart, an update of id 7 to 2 gives no lines and count 2 |
| Cart.UpdateIntendedKeepsConsistent | src/contexts/CartContext.tsx:44-55 | the corrected update, which ignores a positive update of an absent id, keeps the store consistent for every id and quantity |
| Cart.ApplyEffectKeepsConsistent | src/contexts/CartContext.tsx:29-61 | each of the three cart callbacks keeps the store consistent, except a positive update of an absent id (the raw setters are not modelled) |
| Cart.CartStore.constructor | src/contexts/CartContext.tsx:26-27 | the store starts with no lines and count 0, and is consistent |
| Cart.CartStore.HandleAddToCart | src/contexts/CartContext.tsx:29-42 | the new state is the add step of the old one; consistency is preserved |
| Cart.CartStore.HandleRemoveItem | src/contexts/CartContext.tsx:57-61 | the new state is the remove step of the old one; consistency is preserved |
| Cart.CartStore.HandleUpdateQuantity | src/contexts/CartContext.tsx:44-55 | the new state is the update step of the old one; consistency is preserved unless q > 0 names an absent id, where the lines stay and the count rises by q |
| Checkout.TotalsBreakdown | src/Pages/Checkout/Checkout.tsx:80-87 | total = subtotal + 60, minus 20 when the coupon is applied; an empty cart totals 60 or 40; the subtotal grows by price × quantity per appended line |
| Checkout.TotalExample | src/Pages/Checkout/Checkout.tsx:80-87 | lines 60×2 and 80×1 give subtotal 200, total 260 without the coupon and 240 with it |
| Checkout.PromoIgnoresPadding | src/Pages/Checkout/Checkout.tsx:89-91 | surrounding whitespace never changes whether a code is accepted |
| Checkout.PromoMatchesUnpadded | src/Pages/Checkout/Checkout.tsx:89-91 | an unpadded code is accepted iff it has 7 characters that upper-case to F, R, E, E, U, S, E |
| Checkout.PromoAcceptsPaddedLowerCase | src/Pages/Checkout/Checkout.tsx:89-91 | "freeuse" with any whitespace before and after it is accepted |
| Checkout.PromoAcceptsLowerCase | src/Pages/Checkout/Checkout.tsx:89-91 | "freeuse" is accepted |
| Checkout.PromoRejectsLonger | src/Pages/Checkout/Checkout.tsx:89-95 | "FREEUSE2" is rejected |
| Checkout.ToggleCategory | src/Pages/Checkout/Checkout.tsx:377-383 | clicking the selected card deselects it; clicking any other card selects that card |
| Checkout.CategoryProductsSpec | src/Pages/Checkout/Checkout.tsx:108-110 | no selection, or the falsy empty name, gives no products; a non-empty selection gives exactly the catalogue entries with that category card, in catalogue order |
| Checkout.PlaceOrderDisabled | src/Pages/Checkout/Checkout.tsx:346 | Place Order is disabled exactly when the cart is empty |
| Checkout.CheckoutPage.constructor | src/Pages/Checkout/Checkout.tsx:59-61 | empty promo code, coupon not applied, no category selected |
| Checkout.CheckoutPage.EditPromoCode | src/Pages/Checkout/Checkout.tsx:289 | typing replaces the promo code and changes nothing else |
| Checkout.CheckoutPage.HandleApplyPromo | src/Pages/Checkout/Checkout.tsx:89-95 | the applied flag becomes exactly whether the current code matches; an invalid code clears an earlier success, and applying twice changes nothing |
| Checkout.CheckoutPage.HandlePlaceOrder | src/Pages/Checkout/Checkout.tsx:97-104 | the payload's discount is 20 or 0 by the flag; it carries the promo code iff the coupon is applied |
| Checkout.CheckoutPage.ClickCategoryCard | src/Pages/Checkout/Checkout.tsx:377-383 | the selection becomes the toggle of the clicked card; promo state unchanged |
| Checkout.CheckoutPage.ClearSelection | src/Pages/Checkout/Checkout.tsx:362 | the selection is cleared; promo state unchanged |
| OrderReview.ReviewMatchesCheckout | src/Pages/Checkout/OrderReview.tsx:44-56 | given Checkout's payload, the review shows Checkout's subtotal, delivery charge, discount and total for the same cart |
| OrderReview.ZeroFiguresFallBack | src/Pages/Checkout/OrderReview.tsx:49-56 | a passed subtotal, delivery charge or total of 0 is treated like a missing one (delivery becomes 60); any non-zero passed value is used as is |
| OrderReview.DiscountFallback | src/Pages/Checkout/OrderReview.tsx:53-55 | a passed discount is used, including an explicit 0; a missing one is 0; with fallback 0, `??` and `\|\|` agree on every input |
| OrderReview.StateItemsWin | src/Pages/Checkout/OrderReview.tsx:45-78 | passed items win over the store's, even when empty (an array is truthy); an empty effective list redirects home; without state the redirect happens iff the store is empty |
| OrderReview.CountFallback | src/Pages/Checkout/OrderReview.tsx:46 | a passed non-zero count is used; a missing or 0 count falls back to the store's |
| OrderReview.ItemsSuffix | src/Pages/Checkout/OrderReview.tsx:180 | the label has no "s" exactly when there is one line |
| CartToast.DisplayedAmount | src/components/ui/CartToast.tsx:75-100 | something is shown iff the toast is visible; a zero quantity shows 0 |
| CartToast.MinusEnabledIffForwarded | src/components/ui/CartToast.tsx:63-107 | the minus button is enabled iff its press is forwarded to the store, and a forwarded quantity is never below 1 |
| CartToast.QuantityChangeKeepsLine | src/components/ui/CartToast.tsx:63-68 | a quantity change on a cart line never removes it: a positive quantity sets it and a non-positive one is dropped; the store stays consistent |
| CartToast.DeleteRemovesLine | src/components/ui/CartToast.tsx:70-73 | delete removes the line from the store, keeps it consistent, and closes the toast last |
| CartToast.PlusOnMissingLineDrifts | src/components/ui/CartToast.tsx:116 | plus on an id with no line leaves the lines unchanged and raises the count by quantity + 1, making a consistent store inconsistent |
| CartSideBar.FooterVisible | src/components/ui/CartSideBar.tsx:161 | the footer shows iff the list is non-empty |
| CartSideBar.PlusRaisesTotals | src/components/ui/CartSideBar.tsx:110-112 | plus on a row raises the total price by that row's price and the count by 1; the store stays consistent |
| CartSideBar.MinusLowersTotals | src/components/ui/CartSideBar.tsx:99-101 | minus on a row lowers the total price by its price and the count by 1; the row disappears iff its quantity was 1 |
| CartSideBar.RemoveDropsRow | src/components/ui/CartSideBar.tsx:126 | remove drops exactly that row, lowering the total price by its row total and the count by its quantity |
| ProductSearch.BlankQueryFindsNothing | src/components/layout/Header.tsx:134-142 | a blank or whitespace-only query finds nothing |
| ProductSearch.SearchResultsExact | src/components/layout/Header.tsx:134-142 | for a non-blank query the results are exactly the catalogue entries whose lower-cased name, category or non-empty category card contains the lower-cased query, in catalogue order and without new duplicates |
| ProductSearch.MatchesIgnoresQueryCase | src/components/layout/Header.tsx:135-141 | matching does not depend on the query's case |
| Header.RecordSearch | src/components/layout/Header.tsx:182-190 | a known search leaves the list unchanged (not moved); a new one goes first, followed by the first five old entries; the search is in the result |
| Header.RecordSearchKeepsNoDuplicates | src/components/layout/Header.tsx:182-190 | recording a search keeps the recent list free of duplicates |
| Header.DefaultRecentValid | src/components/layout/Header.tsx:118-123 | the default recent list has no duplicates and at most 6 entries |
| Header.ShownProducts | src/components/layout/Header.tsx:327-328 | the first min(3, n) of the n results: every result when there are fewer than 3 |
| Header.HeaderSearch.constructor | src/components/layout/Header.tsx:118-123 | empty query, not focused; the saved list if there is one, otherwise the default four searches; remembers whether the page passed `onCloseCart` |
| Header.HeaderSearch.HandleSearchFocus | src/components/layout/Header.tsx:150-156 | focuses the search; closes the cart exactly when the page passed `onCloseCart` (the home and search pages do; checkout and the product page do not; order review renders `src/components/ui/Header.tsx`, which has no search) |
| Header.HeaderSearch.HandleSearchClick | src/components/layout/Header.tsx:182-190 | puts the search in the box and records it in the recent list; keeps the list valid |
| Header.HeaderSearch.HandleRemoveRecent | src/components/layout/Header.tsx:171-175 | deletes every equal entry and keeps the others in order, each as many times as before, even in a saved list with duplicates |
| Header.HeaderSearch.ClearAllRecent | src/components/layout/Header.tsx:177-180 | empties the recent list |
| Header.HeaderSearch.HandleSearchSubmit | src/components/layout/Header.tsx:158-164 | navigates to the results page and unfocuses iff the query is not blank; otherwise nothing changes |
| Header.HeaderSearch.HandleSearchClose | src/components/layout/Header.tsx:166-169 | unfocuses and clears the query; the recent list is unchanged |
| SearchProduct.WhitespaceQueryShowsNoResults | src/Pages/SearchProduct/SearchProduct.tsx:221 | a non-empty whitespace-only query finds nothing and shows the no-results message |
| SearchProduct.EmptyQueryShowsNothing | src/Pages/SearchProduct/SearchProduct.tsx:221 | an empty query finds nothing and shows no message |
| SearchProduct.SearchPage.constructor | src/Pages/SearchProduct/SearchProduct.tsx:22-31 | counter 3, empty query, loading, no results, no applied filters |
| SearchProduct.SearchPage.SetQueryFromUrl | src/Pages/SearchProduct/SearchProduct.tsx:34-42 | the query is the `q` parameter or ""; loading starts again exactly when the query changes, an unchanged query keeps the shown results and loading state |
| SearchProduct.SearchPage.FinishLoading | src/Pages/SearchProduct/SearchProduct.tsx:41-57 | the results are the search results of the query; loading ends; the no-results flag agrees with the message rule |
| SearchProduct.SearchPage.HandleAddToCart | src/Pages/SearchProduct/SearchProduct.tsx:67-70 | the page's counter rises by exactly 1 and nothing else changes |
| SearchProduct.SearchPage.HandleFiltersChange | src/Pages/SearchProduct/SearchProduct.tsx:72-74 | the applied filters become the given map |
| SearchProduct.SearchPage.RemoveFilter | src/Pages/SearchProduct/SearchProduct.tsx:187-191 | deletes only that key; every other key keeps its value; the size drops by one iff the key was there |
| SearchProduct.SearchPage.ClearFilters | src/Pages/SearchProduct/SearchProduct.tsx:76-78 | the applied filters become empty |
| Filters.ToggleBrand | src/Pages/SearchProduct/components/Filters.tsx:33-37 | an absent brand is appended at the end; a present one is removed and the others keep their order |
| Filters.FlipPromotion | src/Pages/SearchProduct/components/Filters.tsx:43-48 | flips only the named flag |
| Filters.MinSlider | src/Pages/SearchProduct/components/Filters.tsx:119-121 | replaces only the lower end |
| Filters.MaxSlider | src/Pages/SearchProduct/components/Filters.tsx:129-131 | replaces only the upper end |
| Filters.ToggleKeepsNoDuplicates | src/Pages/SearchProduct/components/Filters.tsx:33-37 | the selected brands never contain duplicates |
| Filters.ToggleTwiceRestores | src/Pages/SearchProduct/components/Filters.tsx:33-37 | toggling an absent brand twice restores the list |
| Filters.ToggleChosenTwiceMovesLast | src/Pages/SearchProduct/components/Filters.tsx:33-37 | toggling a chosen brand twice moves it to the end |
| Filters.FlipTwiceRestores | src/Pages/SearchProduct/components/Filters.tsx:43-48 | flipping a flag twice restores the flags |
| Filters.SlidersMayCross | src/Pages/SearchProduct/components/Filters.tsx:119-131 | min <= max is not enforced: the sliders can produce min 1600, max 200 |
| Filters.FilterPanel.constructor | src/Pages/SearchProduct/components/Filters.tsx:9-20 | sort tab, "most-popular", price 200..1600, no brands, both promotions off, delivery "fastest" |
| Filters.FilterPanel.HandleBrandToggle | src/Pages/SearchProduct/components/Filters.tsx:33-37 | the brands become the toggle of the old list; everything else is unchanged; no duplicates is kept |
| Filters.FilterPanel.HandlePriceChange | src/Pages/SearchProduct/components/Filters.tsx:39-41 | the range becomes (min, max); everything else is unchanged |
| Filters.FilterPanel.MinSliderChange | src/Pages/SearchProduct/components/Filters.tsx:119-121 | only the lower end changes |
| Filters.FilterPanel.MaxSliderChange | src/Pages/SearchProduct/components/Filters.tsx:129-131 | only the upper end changes |
| Filters.FilterPanel.HandlePromotionsChange | src/Pages/SearchProduct/components/Filters.tsx:43-48 | only the named flag flips |
| LocationSelector.LocationMatch | src/components/layout/header/LocationSelector.tsx:42-48 | the match throws (no state) exactly when the city does not match and the entry has no ", " |
| LocationSelector.FilterMatching | src/components/layout/header/LocationSelector.tsx:41-50 | the filter throws iff some entry throws; otherwise it keeps exactly the matching entries, in order |
| LocationSelector.SplitJoined | src/components/layout/header/LocationSelector.tsx:44 | "city, state" with no comma in either part splits into exactly city and state |
| LocationSelector.LocationsWellFormed | src/components/layout/header/LocationSelector.tsx:10-19 | no built-in location makes the filter throw |
| LocationSelector.FilteredLocationsSpec | src/components/layout/header/LocationSelector.tsx:41-50 | a blank search gives no locations; otherwise exactly the locations whose city or state, lower-cased, starts with the trimmed lower-cased search, in order |
| LocationSelector.ShownListing | src/components/layout/header/LocationSelector.tsx:147-166 | nothing is listed for an empty search; "No locations found" iff the search is non-empty and nothing matched; otherwise the matches |
| LocationSelector.WhitespaceSearchShowsNoLocations | src/components/layout/header/LocationSelector.tsx:147-166 | a non-empty whitespace-only search shows "No locations found" |
| LocationSelector.LocationDropdown.constructor | src/components/layout/header/LocationSelector.tsx:25-26 | closed, with an empty search |
| LocationSelector.LocationDropdown.Toggle | src/components/layout/header/LocationSelector.tsx:79 | flips open/closed |
| LocationSelector.LocationDropdown.EditSearch | src/components/layout/header/LocationSelector.tsx:136 | replaces the search text |
| LocationSelector.LocationDropdown.HandleLocationSelect | src/components/layout/header/LocationSelector.tsx:52-56 | reports the location, closes, clears the search |
| LocationSelector.LocationDropdown.HandleCloseButton | src/components/layout/header/LocationSelector.tsx:106-109 | closes and clears the search |
| LocationSelector.LocationDropdown.HandleClickOutside | src/components/layout/header/LocationSelector.tsx:29-39 | closes and keeps the search |
| ProductDetails.FindProduct | src/Pages/ProductDetails/ProductDetails.tsx:19-21 | the product at the first position holding the id; none iff no product has it |
| ProductDetails.SelectedProduct | src/Pages/ProductDetails/ProductDetails.tsx:18-21 | no id, or id 0, selects nothing; otherwise the catalogue lookup |
| ProductDetails.InitialDetailCategory | src/Pages/ProductDetails/ProductDetails.tsx:27-29 | the product's category card when non-empty, otherwise "All"; never empty. It is the category of a first mount only (see `DetailsPage.ShowProduct`) |
| ProductDetails.RelatedProductsSpec | src/Pages/ProductDetails/ProductDetails.tsx:60-67 | "All" gives every other product; a category gives the products with that card; the selected id never appears; catalogue order is kept |
| ProductDetails.SimilarProductsSpec | src/Pages/ProductDetails/ProductDetails.tsx:69-73 | exactly the products with the same name and another id, in order |
| ProductDetails.SimilarExample | src/Pages/ProductDetails/ProductDetails.tsx:69-73 | products 1 and 9 share a name, so each is similar to the other |
| ProductDetails.DisplayedSimilar | src/Pages/ProductDetails/ProductDetails.tsx:85-87 | the first min(3, n) of the n similar products, or min(5, n) when expanded: all of them when there are fewer |
| ProductDetails.DisplayedRelated | src/Pages/ProductDetails/ProductDetails.tsx:88-90 | the first min(8, n) of the n related products, or all of them when expanded |
| ProductDetails.MinusAtOneRemovesLine | src/Pages/ProductDetails/ProductDetails.tsx:173-178 | minus at quantity 1 removes the line from the store; above 1 it lowers the quantity by one; the store stays consistent |
| ProductDetails.PlusAddsOne | src/Pages/ProductDetails/ProductDetails.tsx:187-192 | plus raises exactly that line's quantity and the count by 1; the store stays consistent |
| ProductDetails.DetailsPage.constructor | src/Pages/ProductDetails/ProductDetails.tsx:23-29 | the first mount of the route: nothing expanded, no checkout button, initial category from the product |
| ProductDetails.DetailsPage.ShowProduct | src/Pages/ProductDetails/ProductDetails.tsx:36-39 | opening another product from the page changes only the product shown; the expansions, the checkout button and the related-products category carry over |
| ProductDetails.DetailsPage.ShowProductRemounted | src/Pages/ProductDetails/ProductDetails.tsx:23-39 | the intended navigation: the new product's page is exactly a first mount, so the checkout button shows only after that product is added |
| ProductDetails.DetailsPage.CheckoutVisible | src/Pages/ProductDetails/ProductDetails.tsx:169-207 | the Checkout button is drawn exactly when the flag is set and the cart holds a line for the product shown |
| ProductDetails.NavigationCarriesState | src/Pages/ProductDetails/ProductDetails.tsx:23-39 | add product 1, add 9 from its similar card, pick a card, open 9: page 9 draws the Checkout button though its own add button was never pressed, and the picked card replaces 9's own; the remounted page draws no Checkout button and keeps 9's category |
| ProductDetails.DetailsPage.HandleAddToCartClick | src/Pages/ProductDetails/ProductDetails.tsx:75-81 | adds the product; the checkout button appears iff it was already shown or the product is the page's own; a page whose button was honest stays so |
| ProductDetails.DetailsPage.SelectCategory | src/Pages/ProductDetails/ProductDetails.tsx:364-365 | the related-products category becomes the clicked card |
| ProductDetails.DetailsPage.ToggleShowAllSimilar | src/Pages/ProductDetails/ProductDetails.tsx:316 | flips only the similar-products expansion |
| ProductDetails.DetailsPage.ToggleShowAllRelated | src/Pages/ProductDetails/ProductDetails.tsx:383 | flips only the related-products expansion |
| Home.SectionProductsSpec | src/Pages/Home/Home.tsx:88-100 | with tab "All" a section lists every product of its card; otherwise those matching both card and tab; always in catalogue order |
| Home.VisibleSectionsSpec | src/Pages/Home/Home.tsx:186-191 | a category card gets a section iff it has products; cards keep their order |
| Home.ToastLine | src/Pages/Home/Home.tsx:42 | the toast's line is the cart line at the first position whose name equals the last added name; none iff no line has it |
| Home.ToastTakesEarlierSameName | src/Pages/Home/Home.tsx:42 | of two same-named lines after an unrelated one, the toast takes the earlier |
| Home.PropsFor | src/Pages/Home/Home.tsx:258-261 | the toast gets the line's id, quantity and price, or 0, 1 and 0 without a line |
| Home.ToastNameLookupPicksOtherLine | src/Pages/Home/Home.tsx:42 | after adding products 1 and 9 (same name), the toast for product 9 shows and acts on product 1's line |
| Home.ToastLineByIdFindsAdded | src/Pages/Home/Home.tsx:42 | a lookup by id always finds the line of the product just added |
| Home.ToastAfterLineRemovedDrifts | src/Pages/Home/Home.tsx:258-261 | with the toast's line gone, its plus button leaves the lines alone and raises the count by 2, taking the toast to behave like `src/components/ui/CartToast.tsx` |
| Home.ToastAmountIsRowTotal | src/Pages/Home/Home.tsx:258-261 | the toast's amount equals the sidebar's row total for its line, or 0 without a line, taking the toast and sidebar to behave like the ones in `src/components/ui/` |
| Home.HomePage.constructor | src/Pages/Home/Home.tsx:33-39 | tab "All", no card, toast and cart closed |
| Home.HomePage.ChangeTab | src/Pages/Home/Home.tsx:178-181 | sets the tab and clears the active card |
| Home.HomePage.HandleCategoryCardClick | src/Pages/Home/Home.tsx:60-68 | sets the active card, keeps the tab |
| Home.HomePage.HandleAddToCart | src/Pages/Home/Home.tsx:70-75 | adds the product, remembers its name, shows the toast |
| Home.HomePage.ViewCart | src/Pages/Home/Home.tsx:264-267 | hides the toast and opens the cart |
| Home.HomePage.CloseToast | src/Pages/Home/Home.tsx:268 | hides the toast |
| ProductDetailModal.DescriptionIsFirstMatch | src/components/ui/ProductDetailModal.tsx:46-69 | the description is the first keyword rule that matches, in the order soup, onion, peas, cabbage, spicy/sticks, fan, liquor/achari, else the default |
| ProductDetailModal.DetailsAreFirstMatch | src/components/ui/ProductDetailModal.tsx:72-123 | the details are the first matching rule in the order soup, onion, peas, cabbage, fan, spicy/current, else the default |
| ProductDetailModal.SoupAlwaysWins | src/components/ui/ProductDetailModal.tsx:46-123 | a name with "soup" in any case anywhere gets the soup description and the soup details, whatever else it mentions |
| ProductDetailModal.SpicyFanDisagree | src/components/ui/ProductDetailModal.tsx:46-123 | a "spicy fan" gets the snack description but the fan's details |
| ProductDetailModal.CurrentOnlyInDetails | src/components/ui/ProductDetailModal.tsx:46-123 | "current" picks the snack details but the default description |
| ProductDetailModal.DefaultDetails | src/components/ui/ProductDetailModal.tsx:119-122 | default details are exactly "Net weight" and "Brand" |
| ProductDetailModal.QuantitySelector.constructor | src/components/ui/ProductDetailModal.tsx:32 | the quantity starts at 1 |
| ProductDetailModal.QuantitySelector.IncrementQuantity | src/components/ui/ProductDetailModal.tsx:42 | adds exactly 1 |
| ProductDetailModal.QuantitySelector.DecrementQuantity | src/components/ui/ProductDetailModal.tsx:43 | subtracts 1 but never goes below 1 |
| ProductDetailModal.QuantitySelector.HandleAddToCart | src/components/ui/ProductDetailModal.tsx:36-40 | passes the current quantity, then closes; the quantity is back to 1 |
| Login.DigitsOnly | src/Pages/Login/Login.tsx:294-296 | only digits, in order, each digit as many times as the input holds it |
| Login.SanitiseOtp | src/Pages/Login/Login.tsx:294-296 | the first min(6, n) of the input's n digits: all of them when there are fewer than 6 |
| Login.RepeatedDigitsKept | src/Pages/Login/Login.tsx:294-296 | the code "112233", repeated digits and all, is stored in full |
| Login.SanitiseIdempotent | src/Pages/Login/Login.tsx:294-296 | sanitising a sanitised OTP changes nothing |
| Login.ApplyKeepsValid | src/Pages/Login/Login.tsx:23-108 | every event keeps the countdown within 0..30 and the OTP at most 6 digits |
| Login.RunKeepsValid | src/Pages/Login/Login.tsx:23-108 | so does every sequence of events |
| Login.ForwardGuards | src/Pages/Login/Login.tsx:34-96 | signup→otp iff name and phone are non-empty (countdown reset to 30); otp→password iff the OTP has 6 characters; password→location iff the password is non-empty and confirmed; otherwise nothing changes; "do it later" goes to loading |
| Login.BackUndoesForward | src/Pages/Login/Login.tsx:98-103 | back maps signup→initial, otp→signup, password→otp, location→password, and undoes each forward move |
| Login.TicksCountDown | src/Pages/Login/Login.tsx:23-28 | on the OTP screen n ticks lower the countdown by n, stopping at 0 |
| Login.ResendHiddenUntilCountdownEnds | src/Pages/Login/Login.tsx:105-108 | after a resend the OTP is empty and the resend button stays hidden for exactly 30 ticks |
| Login.SignupWizard.constructor | src/Pages/Login/Login.tsx:9-18 | the initial screen with empty fields and countdown 30 |
| Login.SignupWizard.HandleCreateAccount | src/Pages/Login/Login.tsx:30-32 | takes the create-account transition; stays valid |
| Login.SignupWizard.SetFullName | src/Pages/Login/Login.tsx:215 | takes the edit transition; stays valid |
| Login.SignupWizard.SetPhoneNumber | src/Pages/Login/Login.tsx:232 | takes the edit transition; stays valid |
| Login.SignupWizard.HandleSignupSubmit | src/Pages/Login/Login.tsx:34-39 | takes the guarded signup transition; stays valid |
| Login.SignupWizard.HandleOtpChange | src/Pages/Login/Login.tsx:294-296 | stores the sanitised input; stays valid |
| Login.SignupWizard.HandleOtpSubmit | src/Pages/Login/Login.tsx:41-45 | takes the guarded OTP transition; stays valid |
| Login.SignupWizard.HandleResendOtp | src/Pages/Login/Login.tsx:105-108 | resets the countdown and clears the OTP; stays valid |
| Login.SignupWizard.SetPassword | src/Pages/Login/Login.tsx:377 | takes the edit transition; stays valid |
| Login.SignupWizard.SetConfirmPassword | src/Pages/Login/Login.tsx:387 | takes the edit transition; stays valid |
| Login.SignupWizard.HandlePasswordSubmit | src/Pages/Login/Login.tsx:47-51 | takes the guarded password transition; stays valid |
| Login.SignupWizard.HandleLocationSubmit | src/Pages/Login/Login.tsx:91-96 | moves to the loading screen; stays valid |
| Login.SignupWizard.HandleBack | src/Pages/Login/Login.tsx:98-103 | takes the back transition; stays valid |
| Login.SignupWizard.CountdownTick | src/Pages/Login/Login.tsx:23-28 | one second of countdown, only on the OTP screen and only while above 0; stays valid |
| Text.TrimIgnoresPadding | src/Pages/Checkout/Checkout.tsx:90 | `trim` removes any whitespace padding on both sides |
| Text.BlankIffAllWhitespace | src/components/layout/Header.tsx:134 | a string trims to empty iff it is all whitespace |
| Text.Lower | src/components/layout/Header.tsx:137-140 | `toLowerCase` keeps the length and lower-cases each character |
| Text.IndexOf | src/components/layout/header/LocationSelector.tsx:44 | finds the first occurrence of the separator, or none when it does not occur |
| Seqs.Filter | src/components/layout/Header.tsx:172 | keeps exactly the elements that pass, each as often as in the input, in order |
| Seqs.FilterKeepsNoDuplicates | src/components/layout/Header.tsx:172 | filtering a list without duplicates leaves none |
| Seqs.Take | src/components/layout/Header.tsx:185 | `slice(0, n)` is the prefix of length min(n, length) |

## Left out

- Rendering, styling, skeletons and the presentational checkout components carry no logic beyond passing props through.
- Timers are not modelled. This covers simulated loading delays, the toast's auto-hide timer and `previousQuantity`, delayed navigation and button animation. The countdown is modelled as explicit `Tick` events, and the search page's delayed filter as `FinishLoading`.
- Browser I/O is replaced by parameters or effects. `localStorage` reads and writes become the `saved` constructor parameter and are otherwise dropped, and `JSON.parse` is not modelled. Router `navigate` becomes a `Navigate` effect. `URLSearchParams` becomes the `q` parameter of `SetQueryFromUrl`, and `encodeURIComponent` is not applied to the query. `window.scrollTo` and `scrollIntoView` are dropped. The document click-outside listener becomes `HandleClickOutside`.
- Geolocation and `alert` (the login "use my location" button and the picker's "locate me") are not modelled. The wizard's `location` field is not modelled either.
- Order-ID generation from `Date.now`/`Math.random` is not modelled, because it is non-deterministic.
- Floating point is not modelled. Prices are integers; ratings, stars and `toFixed` formatting are left out.
- Case folding and trimming use ASCII letters and the ASCII whitespace characters. JavaScript applies Unicode rules.
- `clearCart` is called by the order-confirmation page but is not defined in the cart store; the order-confirmation page is not part of this model.
- A cart line keeps only the product fields the storefront reads back: id, name, price, quantity, image and weight. Other spread fields (rating, category, category card) are not copied.
- The `parseInt` of the route id is given to the model as an already-parsed `Option<int>`; a `NaN` id is the `None` case.
- The description texts in the product modal are an enumeration of which text is chosen, not the strings themselves. The detail tables are modelled exactly.
- The filter panel's sort, out-of-stock, delivery-type and tab setters are not modelled beyond their initial values; they only replace one field each. The panel never calls `onFiltersChange`, so the search page's applied filters change only through `HandleFiltersChange`, `RemoveFilter` and `ClearFilters`.
- The header's own add-to-cart handler and its toast stubs are not modelled. They only close the toast, and the header's toast lookup by name is the same lookup as the home page's `Home.ToastLine`.
- The cart store also publishes its raw `setCartItems` and `setCartCount` setters (src/contexts/CartContext.tsx:67-68). `CartStore` does not model them, because no modelled page calls them. Either setter can set the lines and the counter apart, so the consistency `Cart.ApplyEffectKeepsConsistent` proves holds only for stores changed through the three callbacks.
- The product modal's early return when it is closed or has no product is not modelled. `QuantitySelector` models the open modal, and its `HandleAddToCart` takes the product as given.
- Cart handlers are atomic. React batching and stale closures between calls fired in one render are not modelled: each handler reads the state the previous one left.
- The toast's `resetTimer` is a `ResetTimer` effect with no meaning in the model.
- `Login.Apply` does not check the current screen before a submit, because the handlers do not; their buttons appear only on their own screens.
- CartToast.DisplayedAmount: its contract states only visibility and the zero case. That the amount is price × quantity of the toast's line, equal to the sidebar's row total, is proved by `Home.ToastAmountIsRowTotal`.
- Header.HeaderSearch.constructor: a saved recent list is taken as stored, so the duplicate-free and at-most-6 invariant is promised only for the default list.
- Text.Split: its contract states only that at least one part comes back. The two-part split of the picker's "city, state" labels is proved by `LocationSelector.SplitJoined`.
- CartSideBar.ProceedToCheckout: returns the close-then-navigate effects and has no contract of its own.
- Home.ToastAmountIsRowTotal: the home page renders `src/components/feedback/CartToast.tsx` and `src/Pages/Home/components/CartSideBar.tsx`, which are not part of this model. The lemma assumes they behave like `src/components/ui/CartToast.tsx` and `src/components/ui/CartSideBar.tsx`, in particular that a row's total is price × quantity.
- Home.ToastAfterLineRemovedDrifts: for the same reason, it assumes the home page's toast behaves like `src/components/ui/CartToast.tsx`, whose plus button sends quantity + 1 without checking that the line is still in the cart.

## Findings

| source | as written | input that shows it | evidently intended | confidence | as-written member | corrected member |
|---|---|---|---|---|---|---|
| src/contexts/CartContext.tsx:49-54 | an update to a positive quantity of an id with no line leaves the lines unchanged but adds the quantity to the counter | empty cart, `handleUpdateQuantity(7, 2)`: no lines, count 2. It would be reachable from the home page if its toast behaves like `src/components/ui/CartToast.tsx`: after the toast's line is removed from the sidebar, its plus button sends id 0 at quantity 2. The toast the home page renders, `src/components/feedback/CartToast.tsx`, is not part of this model | an update of an absent id changes nothing, so the counter keeps equal to the sum of quantities | not executed | Cart.UpdateAbsentBreaksCount | Cart.UpdateIntendedKeepsConsistent |
| src/Pages/Home/Home.tsx:42 | the toast finds its cart line by product name | add product 1, then product 9 (both "2PM Classic Chicken Soup Base (Pouch)"): the toast for product 9 shows product 1's line, and its buttons change product 1 | look the line up by the id of the product just added | not executed | Home.ToastNameLookupPicksOtherLine | Home.ToastLineByIdFindsAdded |
| src/Pages/ProductDetails/ProductDetails.tsx:23-39 | the route element is shared by every product id, so opening a similar or related product keeps the page's `useState` values: the checkout button and the related-products category of the previous product carry over | on product 1, add it, add product 9 from its similar-product card, pick "Snacks & FastFood", then open product 9: page 9 draws the Checkout button beside its quantity controls though its own add button was never pressed, and related products stay filtered by the picked card instead of 9's "Daily Grocery's" | each product's page starts fresh, as on a first mount (for instance with the page keyed on the id) | not executed | ProductDetails.NavigationCarriesState | ProductDetails.DetailsPage.ShowProductRemounted |
