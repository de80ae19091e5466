# DailyHunt storefront core in Dafny

This project models the client-side logic of the DailyHunt storefront, a single-page shop whose
state lives entirely in the browser. It covers five areas:

- **The cart store** (`CartContext`). The cart is a list of rows with at most one row per product.
  Adding a product merges into its row; removing, updating and clearing change the list.
  - The total and count are reductions over the rows (`Total`, `Count`). The store's
    `GetCartTotal` reads `Total` of its current list, and checkout takes its subtotal from it.
  - The list is copied to browser storage under the signed-in user's key, and only when it is not empty.
  - On a change of user, the stored cart is loaded.
- **Checkout** (`Checkout`). Placing an order snapshots the cart into order items with frozen
  discounted prices and adds the optional 5.99 fast-delivery fee. The order is prepended to the
  user's stored ledger, and the cart is cleared.
- **The order history panel** (`UserProfile`). It loads the stored ledger and cancels a pending order.
  Cancelling is the only status change the shop makes.
- **The home page lists** (`Catalog`).
  - The product grid is filtered by category and by a case-insensitive search in name or description.
  - The "trending" and "offers" rails show the first eight flagged products. They appear only when
    nothing is filtered.
- **The product detail view** (`ProductDetail`). It covers the discounted price, the stock label, the
  clamped quantity stepper, and the add-to-cart button with its sign-in gate.

Two kinds of entity are modelled:

- **Values.** Products, cart rows, orders and addresses are Dafny datatypes (`Types`).
- **Components with state.** The cart provider, the order history panel and the detail view keep
  state that their handlers update. They are classes whose methods change their fields.
  - Browser storage is a shared `Storage.LocalStorage` object. It holds the `cart_<user>` and
    `orders_<user>` entries as maps from user id to list.
  - Every handler is specified against pure functions of the old state (`WithAdded`, `Without`,
    `QuantitySet`, `Persisted`, `PlacedOrder`, `CancelledIn`, `Decremented`, `Incremented`).
  - The properties of those functions are proved as lemmas.

Prices are real numbers. `Pricing.EffectivePrice` is price × (1 − discount/100), the formula that the
detail view, the cart total and checkout each compute.

The signed-in user is a field of the cart store, read by checkout and the detail view. The order
history panel takes the user as a parameter.

### Behaviour modelled as the code has it

The model follows the code in these places, and the lemmas state the consequences:

- **An emptied cart is not written back.** The storage effect writes only a non-empty cart.
  - Removing the last row therefore leaves the stored copy in place. After signing out and in again,
    the removed row is back (`CartContext.EmptiedCartReturns`).
  - Only `clearCart`, called after an order is placed, deletes the stored entry.
- **Signing in keeps the list when nothing is stored.** When a user with no stored cart signs in, the
  load effect leaves the current list as it is rather than emptying it.
  - Signing out always empties the list first. A user who signs in after a sign-out therefore starts
    with an empty cart (`CartContext.SignOutThenIn`).
- **A missing product snapshot aborts checkout.** Checkout dereferences each row's product snapshot
  without a check. A row without one aborts the handler before anything is written. This is the
  `Crashed` outcome of `Checkout.PlaceOrder`.
  - The cart total, by contrast, skips such a row.
- **The fee follows the checkbox alone.** The fast-delivery fee depends only on the checkbox state,
  which survives while the checkout component stays mounted. It is charged even when no row of the
  cart is eligible any more (`Checkout.FeeFollowsFlagOnly`).

## Model

| member | source | states |
|---|---|---|
| Pricing.EffectivePriceBounds | src/components/ProductDetail.tsx:20 | the discounted price lies between 0 and the list price whenever the price is non-negative and the discount is between 0 and 100 |
| Pricing.EffectivePriceExtremes | src/contexts/CartContext.tsx:90 | no discount leaves the list price; a 100% discount makes the unit free |
| Pricing.EffectivePriceMonotone | src/components/Checkout.tsx:41 | a larger discount on the same price never yields a larger unit price |
| CartContext.AddToCartShape | src/contexts/CartContext.tsx:38-61 | for a product already in the cart, only its row changes, gaining the added quantity; otherwise one new row with the snapshot, the fresh id and the user is appended |
| CartContext.AddToCartKeepsInvariant | src/contexts/CartContext.tsx:42-59 | adding keeps at most one row per product, and keeps every quantity at least one when at least one unit is added |
| CartContext.AddTwiceMerges | src/contexts/CartContext.tsx:42-59 | adding a product twice gives a single row holding both quantities |
| CartContext.AddToCartTotals | src/contexts/CartContext.tsx:38-99 | adding q units raises the count by q and the total by q times the row's unit price (the new snapshot's price for a new row, the existing row's price otherwise) |
| CartContext.RemoveFromCartShape | src/contexts/CartContext.tsx:63-65 | removal keeps the other rows in order and drops exactly the rows of that product; it is a no-op for an absent product and deletes the single row otherwise |
| CartContext.RemoveFromCartKeepsInvariant | src/contexts/CartContext.tsx:63-65 | removal keeps one row per product and positive quantities |
| CartContext.RemoveFromCartTotals | src/contexts/CartContext.tsx:63-99 | removing a product lowers the total by its line total and the count by its quantity |
| CartContext.UpdateQuantityShape | src/contexts/CartContext.tsx:67-78 | a quantity of at most 0 removes the product; otherwise only that row's quantity is replaced; an absent product changes nothing |
| CartContext.UpdateQuantityKeepsInvariant | src/contexts/CartContext.tsx:67-78 | updating keeps one row per product and positive quantities |
| CartContext.TotalAppend | src/contexts/CartContext.tsx:87-95 | the total of two lists joined is the sum of their totals |
| CartContext.CountAppend | src/contexts/CartContext.tsx:97-99 | the count of two lists joined is the sum of their counts |
| CartContext.TotalReplace | src/contexts/CartContext.tsx:87-99 | replacing one row changes the total and the count by exactly the difference of that row |
| CartContext.TotalNonNegative | src/contexts/CartContext.tsx:87-95 | with sensible prices and positive quantities the total is never negative, and the empty cart totals 0 |
| CartContext.TotalExample | src/contexts/CartContext.tsx:87-99 | two units at 100 with a 10% discount total 180; a row without a snapshot adds nothing to the total but its units count |
| CartContext.CountAtLeastRows | src/contexts/CartContext.tsx:97-99 | with positive quantities the badge count is at least the number of rows |
| CartContext.PersistedKeepsStored | src/contexts/CartContext.tsx:32-36 | writing keeps every stored cart non-empty with one row per product and positive quantities; an empty cart leaves storage unchanged |
| CartContext.CartStore.constructor | src/contexts/CartContext.tsx:17-19 | the provider starts with no user and an empty cart over the stored carts |
| CartContext.CartStore.Persist | src/contexts/CartContext.tsx:32-36 | storage gains the cart under the user's key only for a signed-in user with a non-empty cart |
| CartContext.CartStore.SwitchUser | src/contexts/CartContext.tsx:21-30 | sign-out empties the cart; sign-in loads the stored cart when there is one and otherwise keeps the list; the storage effect then runs |
| CartContext.CartStore.AddToCart | src/contexts/CartContext.tsx:38-61 | ignored when signed out; otherwise the cart becomes the merged or appended list and storage follows; invariants preserved |
| CartContext.CartStore.RemoveFromCart | src/contexts/CartContext.tsx:63-65 | the cart loses that product's rows; storage follows; invariants preserved |
| CartContext.CartStore.UpdateQuantity | src/contexts/CartContext.tsx:67-78 | the cart becomes the updated list (removal at a quantity of at most 0); storage follows; invariants preserved |
| CartContext.CartStore.ClearCart | src/contexts/CartContext.tsx:80-85 | the cart is empty and the user's stored cart is deleted; nothing is deleted when signed out |
| CartContext.SignOutThenIn | src/contexts/CartContext.tsx:21-36 | after a sign-out, a user without a stored cart signs in to an empty cart, and storage is unchanged |
| CartContext.EmptiedCartReturns | src/contexts/CartContext.tsx:32-36 | adding and then removing the only product, signing out and signing in again brings the removed row back |
| Checkout.HasFastDeliveryItemsIff | src/components/Checkout.tsx:30 | the fast-delivery option is offered exactly when some row's snapshot allows fast delivery |
| Checkout.StampOrderId | src/components/Checkout.tsx:60-62 | every item gets the order's id and nothing else about the items changes |
| Checkout.SubtotalMatchesCart | src/components/Checkout.tsx:36-43 | items copying each row's quantity and unit price add up to the cart total |
| Checkout.PlacedOrderItems | src/components/Checkout.tsx:36-62 | one item per cart row in cart order, with the row's product, quantity and snapshot, the frozen discounted price, a fresh item id and the order's id |
| Checkout.PlacedOrderTotal | src/components/Checkout.tsx:28-52 | the order total is the cart total plus the fee and also the items' subtotal plus the fee; the fee is 5.99 exactly when fast delivery was chosen |
| Checkout.PlacedOrderStatus | src/components/Checkout.tsx:45-58 | a new order belongs to the user, is pending, and is paid by card or awaits payment on delivery |
| Checkout.FeeFollowsFlagOnly | src/components/Checkout.tsx:31 | the fee is charged whenever the flag is set, even for a cart with no eligible row |
| Checkout.WidgetOrder | src/components/Checkout.tsx:28-58 | three units at 50 without fast delivery, paid by card, give a pending, paid order of 150 with no fee |
| Checkout.PlaceOrder | src/components/Checkout.tsx:33-70 | disabled without street, city, state and postal code; a no-op when signed out or for a row without a snapshot; otherwise, and only then, an order is placed: the `PlacedOrder` of the old cart is prepended to the stored ledger, the cart and its stored copy are cleared, and stored orders stay under their owners' keys |
| UserProfile.CancelTransition | src/components/UserProfile.tsx:43-47 | the pending order with the given id becomes cancelled with all other fields unchanged; every other order stays as it was; length and order are kept |
| UserProfile.CancelOnlyFromPending | src/components/UserProfile.tsx:43-47 | the only status change is from pending to cancelled, and no other field changes |
| UserProfile.CancelIdempotent | src/components/UserProfile.tsx:43-47 | cancelling the same id twice equals cancelling it once |
| UserProfile.CancelCommutes | src/components/UserProfile.tsx:43-47 | cancels of two ids give the same ledger in either order |
| UserProfile.CancelShippedAndPending | src/components/UserProfile.tsx:43-47 | a shipped order is not cancelled; a pending one is |
| UserProfile.OrderHistory.constructor | src/components/UserProfile.tsx:29 | the panel starts with an empty list |
| UserProfile.OrderHistory.LoadAsWritten | src/components/UserProfile.tsx:31-38 | a stored ledger of the signed-in user replaces the list; otherwise the list is left as it was |
| UserProfile.OrderHistory.Load | src/components/UserProfile.tsx:31-38 | after loading, the list is exactly the current user's stored ledger, or empty when signed out |
| UserProfile.OrderHistory.CancelOrder | src/components/UserProfile.tsx:40-51 | a no-op when signed out; otherwise the list is cancelled in memory and stored whole under the user's key; showing the user's ledger and keeping orders under their owners' keys are preserved |
| UserProfile.StaleLedgerScenario | src/components/UserProfile.tsx:31-51 | with the load as written, a second user sees the first user's order, and cancelling it stores it under the second user's key |
| UserProfile.CorrectedLedgerScenario | src/components/UserProfile.tsx:31-51 | with the corrected load, the same steps show the second user an empty list and keep every order under its owner |
| Catalog.Lower | src/App.tsx:32-34 | lower-casing keeps the length and leaves no upper-case ASCII letter |
| Catalog.FilteredSpec | src/App.tsx:28-36 | the grid is a subsequence of the catalogue, and a product is in it exactly when it matches both the category and the query |
| Catalog.UnfilteredShowsAll | src/App.tsx:88-132 | when the rails are visible the grid is the whole catalogue; the rails (line 88) are visible exactly when the grid heading (line 132) reads "All Products" |
| Catalog.SearchIgnoresQueryCase | src/App.tsx:32-34 | the query and its lower-case form give the same grid |
| Catalog.SearchPrefix | src/App.tsx:32-34 | a product that matches a query matches every prefix of it |
| Catalog.NarrowingQuery | src/App.tsx:28-36 | typing more characters yields a subsequence of the previous grid |
| Catalog.CategoryNarrows | src/App.tsx:31 | selecting a category yields a subsequence of the grid for all categories |
| Catalog.RailsSpec | src/App.tsx:38-44 | each rail is the first min(8, n) of the n flagged products in catalogue order, and holds only flagged products of the catalogue |
| Catalog.LaptopFound | src/App.tsx:32-34 | the query "LAP" finds a product named "Laptop" |
| ProductDetail.StockLabelSpec | src/components/ProductDetail.tsx:107-117 | "In Stock" above 20 units; "Only n left" names the stock for 1 to 20 units; "Out of Stock" exactly when the button is disabled, for non-negative stock |
| ProductDetail.StepperSpec | src/components/ProductDetail.tsx:124-137 | minus never goes below 1, an enabled plus adds exactly 1, both keep the quantity within 1 and the stock, and minus undoes plus |
| ProductDetail.DetailView.constructor | src/components/ProductDetail.tsx:14 | the view starts closed with quantity 1 |
| ProductDetail.DetailView.SelectKeepingQuantity | src/components/ProductDetail.tsx:13-18 | opening a product keeps the quantity left by the previous product |
| ProductDetail.DetailView.Select | src/components/ProductDetail.tsx:13-18 | opening a product resets the quantity to 1, so it lies within the stock |
| ProductDetail.DetailView.Close | src/components/ProductDetail.tsx:35 | closing clears the product and keeps the quantity |
| ProductDetail.DetailView.Decrement | src/components/ProductDetail.tsx:125 | the quantity becomes max(1, quantity − 1); it stays within the stock |
| ProductDetail.DetailView.Increment | src/components/ProductDetail.tsx:133-136 | below the stock the quantity becomes min(stock, quantity + 1); at the stock the disabled button changes nothing |
| ProductDetail.DetailView.AddToCart | src/components/ProductDetail.tsx:22-29 | at zero stock nothing happens; signed out, the view closes and the cart is unchanged; otherwise the stepper's quantity is added to the cart (within the stock when the stepper was in range) and the view closes |
| ProductDetail.StaleQuantityScenario | src/components/ProductDetail.tsx:14-29 | with the quantity kept across products, 5 units of a product with 2 left are added to the cart |
| ProductDetail.ResetQuantityScenario | src/components/ProductDetail.tsx:14-29 | with the quantity reset on opening, the same steps add 1 unit, within the stock |

## Left out

- Rendering: the JSX markup, styling, icons, the success banner, the discount and trending badges, and the dark-mode theme are not modelled.
- Authentication: the sign-in dialog and `AuthContext` are not part of this model. The user is an input.
- Clock and randomness: the ids built from `Date.now()` and `Math.random()`, and the two timestamps `createdAt` and `updatedAt` read by two separate `new Date()` calls, are method parameters; the model does not relate the two timestamps to each other or to the clock.
- Serialisation: JSON encoding and parsing of stored entries are not modelled. A corrupt stored entry, which the source does not guard against, cannot arise in the model.
- Numbers: prices, discounts and ratings are mathematical reals; quantities and stock are mathematical integers, so fractional, NaN and infinite quantities are not modelled. Floating-point rounding and the `toFixed(2)` display are left out.
- Lower-casing: `toLowerCase` is modelled on ASCII letters only. Unicode case mapping is left out.
- CartContext.CartStore.SwitchUser: models the state after both effects have run on a change of user, not the scheduling of React effects between renders.
- Default arguments: `addToCart`'s default quantity of 1 is not modelled. Callers pass the quantity explicitly.
- Optional fields: `Product.category` and `Order.address` are not modelled. The address, user and category records only exist to be displayed.
- Other components: the cart sidebar, header, product card and category navigation only call the operations modelled here, and are not modelled themselves.

## Findings

| source | as written | input that shows it | evidently intended | confidence | as-written member | corrected member |
|---|---|---|---|---|---|---|
| src/components/UserProfile.tsx:31-38 | the load effect replaces the order list only when the signed-in user has a stored ledger, and never clears it, so the previous user's list stays in memory | user a, with one pending order, signs out; user b, with no stored ledger, signs in and opens the panel; b sees a's order, and cancelling it stores it under b's key (UserProfile.StaleLedgerScenario) | the panel shows the current user's stored ledger, or nothing | high; not executed | UserProfile.OrderHistory.LoadAsWritten | UserProfile.OrderHistory.Load |
| src/components/ProductDetail.tsx:14 | the stepper's quantity is component state of a view that stays mounted, so it survives closing one product and opening another | raise the quantity to 5 on a product with 50 in stock, close it, open a product with 2 in stock and add to cart: 5 units are added (ProductDetail.StaleQuantityScenario) | the stepper starts at 1 for each product and stays within its stock, as the plus button's clamp intends | high; not executed | ProductDetail.DetailView.SelectKeepingQuantity | ProductDetail.DetailView.Select |
