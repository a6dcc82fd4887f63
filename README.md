# SmartCart storefront: a verified model of the client cart store

This project is a Dafny model of the browser side of the SmartCart storefront, a React shop front. Its centre is the cart store, `AppProvider`. The store holds the signed-in `user` and an ordered sequence of cart lines keyed by `productId`. It changes that sequence through five operations:

- `addToCart`, `removeFromCart` and `updateQty`;
- `updateStock` and `updateCartItem`;
- `clearCart`.

The store also restores the cart and the session from local storage at start-up, and writes a cart snapshot back after every change. Around the store sit the page helpers that read or drive it:

- the cart page's total and item-count folds, its quantity-input handling, its refresh of stock and descriptions from fetched products, and its truncated descriptions;
- the checkout payload, pay button, error message and payment handler;
- the header's active-link rule, cart badge, admin links, avatar initial and logout;
- the catalogue's add-to-cart payload, stock badge and search parameters;
- the order pages' item counts, status styles, capitalised status options and id labels.

Modules:

| module | file | models |
|---|---|---|
| `Wrappers` | `wrappers.dfy` | `Option` |
| `Context` | `context.dfy` | the `User`, `CartItem`, add-to-cart item and partial-update records |
| `CartOps` | `cart_ops.dfy` | the five cart transforms as pure functions, with the store's invariants |
| `AppContext` | `app_context.dfy` | the store as a class over local storage: restore, persist, the cart operations |
| `Text`, `Decimal` | `text.dfy`, `decimal.dfy` | the JavaScript string operations the pages use, and `parseInt` and number display on decimals |
| `Expandable` | `expandable.dfy` | the "See more" description block |
| `Products` | `products.dfy` | the catalogue page |
| `CartPage` | `cart_page.dfy` | the cart page |
| `Checkout` | `checkout.dfy` | the checkout page, as a class holding `processing` and `msg` |
| `App` | `app_shell.dfy` | the header and router |
| `Orders`, `AdminOrders` | `orders.dfy`, `admin_orders.dfy` | the order history and the admin order list |

Design points:

- Prices, stock and quantities are integers.
- `find` is the first line with the id. `map` and `filter` visit every line, so the transforms are defined on any sequence; the at-most-one-line-per-id invariant (`CartOps.UniqueIds`) is proved to be kept, not assumed.
- Local storage is a class with one typed slot per entry (`cart`, `token`, `user`); an absent entry is `None`.
- The admin orders page repeats the order page's `statusStyles` table, `StatusBadge` and `itemCount` (src/pages/AdminOrders.tsx:14-24, 57-58). They are defined once, in `Orders`, and used by `AdminOrders`.
- Elsewhere the code keeps a line's quantity at 1 or more: `updateQty` ignores a clamped quantity below 1 (src/context/AppContext.tsx:45), and the quantity input has `min={1}` (src/pages/Cart.tsx:259). `updateStock` has no such floor. It sets the quantity to `min(quantity, newStock)`, which is 0 or less for a stock of 0 or less (src/context/AppContext.tsx:51). The model follows the code, and `CartOps.UpdateStockNonPositive` states the consequence. The ids stay unique on that path too (`CartOps.UpdateStockKeepsIds`).

## Model

| member | source | states |
|---|---|---|
| CartOps.Min | src/context/AppContext.tsx:44 | `Math.min`: at most both arguments, and equal to one of them |
| CartOps.FindIndex | src/context/AppContext.tsx:25 | `find` by id: `None` exactly when no line has the id, else the index of the first line that has it |
| CartOps.FoundUnique | src/context/AppContext.tsx:25 | in a cart with unique ids, `find` on a line's id returns that line |
| CartOps.AddToCart | src/context/AppContext.tsx:23-33 | an absent product is appended as one new line with quantity 1; a found line holding at least the provided stock leaves the cart unchanged; otherwise every line with the id gets quantity + 1 and the provided stock, and every other line is kept |
| CartOps.AddKeepsKeys | src/context/AppContext.tsx:25-31 | adding changes the length by 0 or 1, keeps ids unique, and afterwards the cart holds exactly the old ids plus the added one |
| CartOps.AddKeepsWellFormed | src/context/AppContext.tsx:25-31 | adding keeps unique ids, quantity at least 1 and quantity at most a positive stock |
| CartOps.AddTwice | src/context/AppContext.tsx:25-31 | adding the same new product twice gives one appended line with quantity 2 if its stock is at least 2, else 1 |
| CartOps.AddIncrementsOneLine | src/context/AppContext.tsx:29 | with unique ids, an increment rewrites only the found line, to quantity + 1 and the new stock |
| CartOps.RemoveFromCart | src/context/AppContext.tsx:35-37 | the result is a subsequence of the cart in the original order, holds exactly the lines whose id differs, holds no line with the id, and equals the cart when the id is absent; each line whose id differs keeps its multiplicity, duplicates included |
| CartOps.RemoveAppend | src/context/AppContext.tsx:36 | removal distributes over concatenation |
| CartOps.RemoveUniqueLine | src/context/AppContext.tsx:36 | in a unique-id cart, removing line k's id deletes exactly line k |
| CartOps.RemoveIdempotent | src/context/AppContext.tsx:36 | removing twice is removing once |
| CartOps.RemoveKeepsWellFormed | src/context/AppContext.tsx:36 | removal keeps the cart invariant |
| CartOps.UpdateQty | src/context/AppContext.tsx:39-48 | an absent id, or `min(qty, stock)` below 1, leaves the cart unchanged; otherwise the length is kept and the lines with the id get quantity `min(qty, stock)`, a value in [1, stock] and at most qty, while all other lines are kept |
| CartOps.UpdateQtyUnique | src/context/AppContext.tsx:41-46 | in a unique-id cart, `updateQty` on line k's id either leaves the cart unchanged or rewrites only line k's quantity |
| CartOps.UpdateQtyKeepsWellFormed | src/context/AppContext.tsx:39-48 | `updateQty` keeps the cart invariant |
| CartOps.UpdateQtyIdempotent | src/context/AppContext.tsx:39-48 | setting the same quantity twice is setting it once |
| CartOps.UpdateStock | src/context/AppContext.tsx:50-52 | the length is kept; each line with the id takes the new stock and a quantity that is its old one or the new stock, at most both; every other field and line is kept |
| CartOps.UpdateStockKeepsWellFormed | src/context/AppContext.tsx:51 | a new stock of at least 1 keeps the cart invariant |
| CartOps.UpdateStockKeepsIds | src/context/AppContext.tsx:51 | whatever the new stock, zero or negative included, every line keeps its id, so ids stay unique |
| CartOps.UpdateStockNonPositive | src/context/AppContext.tsx:51 | a new stock of 0 or less on a present id breaks the quantity floor: a line's quantity becomes the new stock |
| CartOps.UpdateStockIdempotent | src/context/AppContext.tsx:51 | setting the same stock twice is setting it once |
| CartOps.Merge | src/context/AppContext.tsx:55 | object spread: each supplied field overwrites the line's field, and each absent one keeps it |
| CartOps.UpdateCartItem | src/context/AppContext.tsx:54-56 | the length is kept; lines with the id are merged with the patch, and every other line is kept |
| CartOps.UpdateCartItemIdempotent | src/context/AppContext.tsx:55 | merging a patch twice is merging it once |
| CartOps.UpdateCartItemKeepsIds | src/context/AppContext.tsx:55 | a patch without an id keeps every line's id, so ids stay unique |
| CartOps.UpdateCartItemKeepsWellFormed | src/context/AppContext.tsx:55 | a patch that rewrites none of id, quantity and stock keeps the cart invariant |
| CartOps.BackfillOnlyDescription | src/context/AppContext.tsx:55 | a description-only patch rewrites only the matching lines' description |
| CartOps.UpdateCartItemEmpty | src/context/AppContext.tsx:55 | an empty patch changes nothing |
| AppContext.RestoredUser | src/context/AppContext.tsx:14-16 | the user is restored exactly when a non-empty token and a saved user are both present, and it is then the saved user |
| AppContext.AppProvider.constructor | src/context/AppContext.tsx:11-21 | start-up takes the saved cart (else empty) and the user only with a token, then persists the cart |
| AppContext.AppProvider.Persist | src/context/AppContext.tsx:19-21 | the snapshot under "cart" equals the live cart |
| AppContext.AppProvider.SetUser | src/context/AppContext.tsx:8 | the session is replaced and the stored entries are not touched |
| AppContext.AppProvider.AddToCart | src/context/AppContext.tsx:23-33 | the new cart is `CartOps.AddToCart` of the old one; the invariant is kept and the snapshot written |
| AppContext.AppProvider.RemoveFromCart | src/context/AppContext.tsx:35-37 | the new cart is `CartOps.RemoveFromCart` of the old one; the invariant is kept and the snapshot written |
| AppContext.AppProvider.UpdateQty | src/context/AppContext.tsx:39-48 | the new cart is `CartOps.UpdateQty` of the old one; the invariant is kept and the snapshot written |
| AppContext.AppProvider.UpdateStock | src/context/AppContext.tsx:50-52 | the new cart is `CartOps.UpdateStock` of the old one; ids stay unique for every stock, and a positive stock keeps the whole invariant; the snapshot is written |
| AppContext.AppProvider.UpdateCartItem | src/context/AppContext.tsx:54-56 | the new cart is `CartOps.UpdateCartItem` of the old one; a patch without an id keeps ids unique, and one that also leaves quantity and stock alone keeps the whole invariant; the snapshot is written |
| AppContext.AppProvider.ClearCart | src/context/AppContext.tsx:58 | the cart is empty and the snapshot written |
| AppContext.Reload | src/context/AppContext.tsx:11-21 | a provider mounted again on the same storage gets back the persisted cart, and the user only if a session is stored |
| Text.StartsWith | src/App.tsx:36 | `startsWith` holds exactly when the prefix fits and agrees with the string at every index |
| Text.Contains | src/pages/Checkout.tsx:156 | `includes` holds only for a substring no longer than the string |
| Text.ContainsIff | src/pages/Checkout.tsx:156 | `includes` holds exactly when the substring occurs at some index |
| Text.ContainsFirstChar | src/pages/Checkout.tsx:156 | a string without the substring's first character does not include it |
| Text.LastChars | src/pages/Orders.tsx:101 | `slice(-n)`: the last n characters, or the whole string when it is shorter; the string ends with them |
| Text.UpperChar | src/App.tsx:81 | `toUpperCase` on one character: a lower-case ASCII letter becomes its capital, and any other character is kept |
| Text.UpperFirst | src/pages/AdminOrders.tsx:162 | the length is kept, the first character is upper-cased, and the rest is kept |
| Decimal.NatToString | src/pages/Products.tsx:180 | number display: a non-empty string of digits with no leading zero |
| Decimal.IntToString | src/pages/Cart.tsx:245-246 | number display of an integer: the digits of its magnitude, preceded by "-" when negative |
| Decimal.NatToStringValue | src/pages/Products.tsx:180 | the digits displayed for n denote n |
| Decimal.ParseInt | src/pages/Cart.tsx:263 | `parseInt` yields a negative number only for a string holding a minus sign |
| Decimal.ParseIntOfNat | src/pages/Cart.tsx:263 | `parseInt` reads back the display of any natural number |
| Decimal.ParseIntOfInt | src/pages/Cart.tsx:263 | `parseInt` reads back the display of any integer, negative ones included |
| Decimal.ParseIntWithoutDigits | src/pages/Cart.tsx:263 | a string without digits parses as NaN |
| Expandable.Render | src/pages/Cart.tsx:7-29 | a description within the limit is shown whole with no toggle; a longer one shows "See less" or "See more", the whole text when expanded, and when collapsed its first maxLength characters followed by "..." |
| Expandable.ExpandedShowsAll | src/pages/Cart.tsx:19 | expanded, the whole description is shown |
| Expandable.CollapsedBounded | src/pages/Cart.tsx:10-25 | the toggle appears exactly for descriptions over the limit, and collapsed text is at most the limit plus 3 characters |
| Products.CatalogueDescription | src/pages/Products.tsx:15-37 | the catalogue shows a description of up to 55 characters whole; while collapsed, a longer one is its first 55 characters and "..." |
| Products.AddPayload | src/pages/Products.tsx:213-220 | the add payload copies title, price, image, stock and description, and maps `_id` to `productId` |
| Products.ProductCard | src/pages/Products.tsx:175-222 | the badge reads "n left" when stock is positive and "Sold out" otherwise; the overlay is shown and the button disabled exactly at stock 0 |
| Products.NegativeStockCard | src/pages/Products.tsx:175-222 | at a negative stock the badge reads "Sold out", yet the button stays enabled and no overlay is shown |
| Products.SearchParams | src/pages/Products.tsx:48 | `q` is sent exactly when it is non-empty, with its value, and nothing else is sent |
| Products.AddFromCatalogue | src/pages/Products.tsx:213-220 | adding an absent product appends its fields with quantity 1; adding one whose line already holds its stock changes nothing |
| CartPage.Subtotal | src/pages/Cart.tsx:278 | a line's subtotal is non-negative for a non-negative price and quantity, and is the unit price for a quantity of 1 |
| CartPage.Total | src/pages/Cart.tsx:96-100 | the cart total is non-negative when every price and quantity is |
| CartPage.ItemCount | src/pages/Cart.tsx:320 | when every line holds at least one unit, the item count is at least the number of lines |
| CartPage.SumsAppend | src/pages/Cart.tsx:96-100 | total and item count distribute over concatenation, and are 0 for the empty cart |
| CartPage.SumsSingle | src/pages/Cart.tsx:96-100 | a one-line cart totals that line's subtotal and counts its quantity |
| CartPage.SumsAround | src/pages/Cart.tsx:96-100 | the sums of a cart are those without line k plus line k's share |
| CartPage.SumsReplace | src/pages/Cart.tsx:96-100 | replacing a line changes the sums by the difference between the two lines |
| CartPage.SumsAfterAdd | src/pages/Cart.tsx:96-100 | adding leaves the cart unchanged, or raises the item count by 1 and the total by one unit price; for a product already in the cart that is the price stored in its line |
| CartPage.SumsAfterIncrement | src/pages/Cart.tsx:96-100 | one more unit on a line adds its price to the total and 1 to the count |
| CartPage.SumsAfterRemove | src/pages/Cart.tsx:96-100 | in a unique-id cart, removing a line lowers the total by its subtotal and the count by its quantity |
| CartPage.StockScenario | src/pages/Cart.tsx:96-100 | a cart of one line at price 100, quantity 2 and stock 2 totals 200; after its stock drops to 1 it totals 100 |
| CartPage.Clamp | src/pages/Cart.tsx:133-138 | the result lies in [lo, hi], equals x inside the range, and equals the bound that x passes |
| CartPage.QtyRequest | src/pages/Cart.tsx:131-139 | an update is requested exactly when stock is positive; it asks for the input clamped to [1, stock], which is `min(newQty, stock)` whenever that is at least 1 |
| CartPage.QtyChangeOutcome | src/pages/Cart.tsx:131-139 | in a unique-id cart, a quantity change on a line with stock sets only that line to the clamped input; with no stock nothing changes |
| CartPage.QtyInputValue | src/pages/Cart.tsx:263 | the value passed on is never 0: a parsed non-zero number is kept, and NaN or 0 becomes 1 |
| CartPage.QtyInputReadsNumerals | src/pages/Cart.tsx:263 | a typed positive numeral is read as itself; "" and "0" become 1 |
| CartPage.HandleQtyChange | src/pages/Cart.tsx:131-139 | the store's `updateQty` runs exactly when `QtyRequest` asks for a quantity, with that quantity; otherwise cart and snapshot are unchanged |
| CartPage.LineStock | src/pages/Cart.tsx:237-273 | a line with stock reads "Stock Available: n" and shows the max hint; otherwise it reads "Out of Stock"; the input is disabled exactly at stock 0 |
| CartPage.NegativeStockInput | src/pages/Cart.tsx:240-266 | at a negative stock the line reads "Out of Stock" while its input stays enabled, and any typed quantity issues no update |
| CartPage.RefreshDecision | src/pages/Cart.tsx:114-121 | the stock is updated exactly when the fetched stock differs, to that stock; the description exactly when the stored one is empty and the fetched one is not, to the fetched one |
| CartPage.RefreshedLine | src/pages/Cart.tsx:114-121 | a refreshed line carries the fetched stock, a re-clamped quantity if the stock changed, and a back-filled description; its id, title, price and image are kept |
| CartPage.RefreshOneLine | src/pages/Cart.tsx:114-121 | in a unique-id cart, the updates for one line rewrite exactly that line into its refreshed form |
| CartPage.RefreshedFrom | src/pages/Cart.tsx:111-123 | the loop from line j on refreshes each later line and keeps the earlier ones |
| CartPage.RefreshAll | src/pages/Cart.tsx:111-123 | when every fetch succeeds, every line of a unique-id cart ends in its refreshed form, in the original order |
| CartPage.RefreshLine | src/pages/Cart.tsx:114-121 | one turn of the loop leaves the cart `ApplyRefresh` gives, the store's `updateStock` then `updateCartItem` as decided; it keeps ids unique and the snapshot written |
| CartPage.RefreshProductData | src/pages/Cart.tsx:106-129 | the refresh loop leaves the cart that the per-line refresh from its start gives, stopping at the first failed fetch; it keeps ids unique, a stock of 0 included, and keeps the snapshot written |
| CartPage.CartDescription | src/pages/Cart.tsx:228-234 | the block is absent exactly for an empty description; up to 100 characters it is whole; while collapsed a longer one is its first 100 characters and "..." |
| Checkout.Payload | src/pages/Checkout.tsx:59-63 | one entry per cart line, in cart order, carrying exactly the line's productId, quantity and price |
| Checkout.PayloadSums | src/pages/Checkout.tsx:44-67 | the payload's sum of price times quantity is the page total, and its quantity sum is the cart's item count |
| Checkout.CreateOrderRequest | src/pages/Checkout.tsx:59-67 | the amount sent equals the sum over the lines sent, which is the total shown |
| Checkout.PlacedOrderItemCount | src/pages/Checkout.tsx:59-67 | the order history counts an order placed from a cart as having the cart's item count |
| Checkout.PayDisabled | src/pages/Checkout.tsx:147 | the button is disabled exactly when processing or when the total is 0, and so for an empty cart |
| Checkout.ErrorMessage | src/pages/Checkout.tsx:103-108 | the server message if non-empty, else the error's own message if non-empty, else "Payment failed", which a non-request error always gives; never empty |
| Checkout.IsSuccessStyle | src/pages/Checkout.tsx:156 | the green style is chosen exactly when "successful" occurs at some index of the message |
| Checkout.SuccessMessageStyle | src/pages/Checkout.tsx:156 | "Payment successful" gets the success style |
| Checkout.FailureMessageStyle | src/pages/Checkout.tsx:156 | "Payment failed" gets the error style |
| Checkout.CheckoutPage.constructor | src/pages/Checkout.tsx:49-50 | the page starts not processing and with no message |
| Checkout.CheckoutPage.CartChanged | src/pages/Checkout.tsx:52-54 | a change of the cart clears the message |
| Checkout.CheckoutPage.Pay | src/pages/Checkout.tsx:56-112 | the order request is built from the cart with the page total; on failure the selected error message is shown, in the error style when it is "Payment failed"; processing is off at the end |
| Checkout.CheckoutPage.OnVerified | src/pages/Checkout.tsx:90-92 | as written: on a verified payment the cart is cleared and persisted, and the message is then empty; otherwise nothing changes |
| Checkout.CheckoutPage.OnVerifiedKeepingMessage | src/pages/Checkout.tsx:90-92 | as intended: on a verified payment the cart is cleared and persisted and "Payment successful" stays, with the success style; otherwise nothing changes |
| App.IsActive | src/App.tsx:35-36 | a link is active only on a pathname it prefixes |
| App.IsActiveCases | src/App.tsx:35-36 | every path is active on itself; "/" is active only on "/"; any other path is active exactly on the pathnames it prefixes |
| App.ActiveLinkIsOwnRoute | src/App.tsx:113-122 | on any routed page a header link is highlighted exactly when it points to that page |
| App.CartBadge | src/App.tsx:64-68 | the badge is shown exactly for a non-empty cart, with the sum of quantities |
| App.ShowAdminLinks | src/App.tsx:73 | the admin links are offered only to a signed-in user, and never to a non-admin |
| App.NavTargets | src/App.tsx:52-78 | of the nav links, Products and Cart always; Orders exactly when signed in; both admin links exactly for an admin |
| App.AvatarInitial | src/App.tsx:81 | the upper-cased first character of the name, or nothing for an empty name |
| App.Logout | src/App.tsx:29-33 | the "token" and "user" entries are removed and the user is cleared |
| App.LogoutThenReload | src/App.tsx:29-33 | after logout a reload restores no user and the same cart |
| Orders.QuantitySum | src/pages/Orders.tsx:48-49 | when every line holds at least one unit, the sum is at least the number of lines |
| Orders.QuantitySumAppend | src/pages/Orders.tsx:48-49 | the quantity sum distributes over concatenation |
| Orders.QuantitySumNonNegative | src/pages/Orders.tsx:48-49 | lines with non-negative quantities sum to a non-negative count |
| Orders.ItemCount | src/pages/Orders.tsx:48-49 | the sum of the lines' quantities, and 0 when the products are absent |
| Orders.ItemCountText | src/pages/Orders.tsx:106-108 | the item-count text is rendered exactly when the products are present |
| Orders.StatusStyle | src/pages/Orders.tsx:21-22 | a known status gets its table entry, and any other status the gray fallback |
| Orders.StatusStylesKeys | src/pages/Orders.tsx:13-19 | the table knows exactly pending, paid, failed, shipped and delivered |
| Orders.StatusStylesDistinct | src/pages/Orders.tsx:13-22 | the five styles are pairwise distinct and none is the fallback |
| Orders.IdSuffix | src/pages/Orders.tsx:101 | the last 6 characters of the id, or the whole id when it is shorter |
| Orders.OrderLabel | src/pages/Orders.tsx:101 | "Order #" followed by the id suffix, so the whole id for an id of up to 6 characters |
| AdminOrders.OptionLabel | src/pages/AdminOrders.tsx:162 | the status with its first character upper-cased and the rest unchanged |
| AdminOrders.OptionLabels | src/pages/AdminOrders.tsx:160-162 | the drop-down reads Pending, Paid, Failed, Shipped, Delivered, in that order |
| AdminOrders.StatusesDistinct | src/pages/AdminOrders.tsx:12 | the selectable statuses are pairwise distinct |
| AdminOrders.StatusesAreStyled | src/pages/AdminOrders.tsx:12-20 | the selectable statuses are exactly the statuses of the style table |
| AdminOrders.SelectedStatusStyle | src/pages/AdminOrders.tsx:22-24 | every status an admin can select gets its own table style, never the fallback |
| AdminOrders.IdLabel | src/pages/AdminOrders.tsx:128 | "#" followed by the last 6 characters of the id, or the whole id |

## Left out

- HTTP calls and server behaviour: the product fetch, order creation, payment creation and verification, and the admin status update (`update`, src/pages/AdminOrders.tsx:52-55) are external. Their results are parameters: the fetched products of the refresh, the failure of `pay`, the `ok` flag of verification.
- The Razorpay script loader and widget: third-party UI.
- React machinery: hooks, rendering and the DOM; the image modal; routing; the redirect timer after payment. A state setter is modelled as a direct assignment.
- JSON encoding of the local-storage entries, and malformed JSON: each entry is a typed slot.
- Async interleaving: user edits between the awaits of the refresh loop are not modelled. The loop also reads lines from the cart it captured at its start, with stock taken from those captured lines.
- Floating-point prices and JavaScript number semantics: integers are used throughout.
- Locale formatting of dates and amounts.
- src/pages/AdminProducts.tsx, src/pages/Register.tsx, src/context/useApp.ts and src/context/Context.ts: form-to-API glue, a context lookup and type declarations. The types appear as the datatypes of `Context`.
- Decimal.ParseInt: models `parseInt` on decimal digits after optional white space and sign. The white space skipped is ASCII only (space, tab, line feed, carriage return, vertical tab, form feed); `parseInt` also skips the no-break space, U+FEFF, the line and paragraph separators and the other Unicode space separators, which the model reads as NaN. The `0x` hexadecimal prefix is not modelled.
- Text.UpperChar: upper-cases ASCII letters only; other Unicode case mappings are not modelled.
- Text.LastChars: counts characters, where JavaScript counts UTF-16 code units.
- Expandable.Render: compares `length` and cuts with `substring` by characters, where JavaScript counts UTF-16 code units. A description of characters outside the Basic Multilingual Plane (emoji) is truncated in the browser at half as many characters as the model allows.
- Products.CatalogueDescription: inherits the same character-versus-code-unit gap from `Expandable.Render` for its 55-unit cut.
- CartPage.CartDescription: inherits the same character-versus-code-unit gap from `Expandable.Render` for its 100-unit cut.
- App.AvatarInitial: takes the first character, where `slice(0, 1)` takes the first UTF-16 code unit. For a name starting outside the Basic Multilingual Plane the browser shows a lone surrogate and the model the whole character.
- Orders.StatusStyle: inherited object keys such as "constructor" are not modelled; such a status gets the fallback here. An empty entry would fall back as it does in the source, but the table has none.
- AppContext.RestoredUser: treats an absent or empty token as no session. The source tests the raw stored `user` string, which is truthy when non-empty, and then parses it. The model's user slot holds an already parsed identity, so an empty or malformed stored string is modelled as an absent one.

## Findings

| source | as written | input that shows it | evidently intended | confidence | as-written member | corrected member |
|---|---|---|---|---|---|---|
| src/pages/Checkout.tsx:52-54, 90-92 | on a verified payment the handler sets "Payment successful" and then clears the cart; the effect that clears the message on every cart change then runs, so the message is empty again | any non-empty cart whose payment is verified with `ok` | "Payment successful" stays on screen after the cart is cleared, until the redirect | medium, not executed | Checkout.CheckoutPage.OnVerified | Checkout.CheckoutPage.OnVerifiedKeepingMessage |
