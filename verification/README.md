# Organic food storefront: cart, checkout, menu and session, in Dafny

This project models the state rules of the organic food storefront's client.
Those rules live inside its React contexts and pages:

- **Cart store** (`CartContext`). The cart is an ordered list of lines keyed by the food's `_id`. It has four transitions, each a pure `prev -> next` function: `addToCart`, `removeFromCart`, `updateQuantity` and `clearCart`. It also has two aggregates, the cart total and the item count.
- **Cart page**. `getItemId`, the minus, plus and trash buttons, the guard on "Proceed to Checkout", the per-line item total, and the order summary. The summary's tax is rounded to the cent.
- **Checkout page**. The form and its defaults, `handleInputChange`, and the order payload built in `handleSubmit`. On an ok response the cart is cleared; on a failed or throwing one it is kept. An empty cart renders no form, and the browser submits the form only when every `required` input is filled, the e-mail is well formed and no card input is longer than its `maxLength`. The page shows an unrounded 8% tax.
- **Menu page**. A category filter where `all` shows everything. The filtered list is copied and sorted by name, price ascending, price descending or rating descending.
- **Session** (`AuthContext`). Browser storage holds `token` and `user`. The provider exposes `currentUser` and installs a default `Authorization: Bearer <token>` header, the credential form of section 2.1 of RFC 6750. The operations are the restore effect, `login`, `register`, `logout` and the outcome handling of `googleLogin`.

Money is integer cents. Where the checkout page keeps an unrounded tax, amounts are in hundredths of a cent ("fine" units), so nothing is floating point. `toFixed(2)` followed by `parseFloat` is `Money.RoundToCents`: the nearest cent, ties away from zero. Ratings are integer tenths of a star.

A missing `_id` or `id` is `None`. JavaScript's `undefined === undefined` holds, and so does `None == None`. The stored user is the text produced by `UserJson.Serialize`, and `UserJson.Parse` reads it back. `Parse` returns `None` wherever `JSON.parse` would throw. It also returns `None` for valid JSON that `Serialize` does not write, such as `null` or an object missing a field, which `JSON.parse` accepts.

Modules, one per file: `Wrappers` (Option), `Money`, `Catalog` (foods), `CartStore`, `CartPage`, `Checkout`, `Collation` (string order), `Menu`, `UserJson`, `Auth`.

The cart invariant `CartStore.Valid` has two parts: at most one line per `_id`, and every quantity at least 1. Every store operation keeps it (`AddPreservesValid`, `RemovePreservesValid`, `UpdatePreservesValid`, `ClearCart`).

## Model

| member | source | states |
|---|---|---|
| CartStore.Find | src/context/CartContext.js:14 | `find` returns nothing exactly when no line has the `_id`; otherwise it returns the first line that has it |
| CartStore.AddToCart | src/context/CartContext.js:12-23 | after adding, some line carries the item's `_id`; the length grows only when the `_id` was absent, and then the new last line is the item with quantity 1 |
| CartStore.AddExisting | src/context/CartContext.js:14-18 | adding an `_id` already on line k raises line k's quantity by exactly 1; line k keeps its original food and price; every other line and the order stay unchanged |
| CartStore.AddNew | src/context/CartContext.js:19-20 | adding an absent `_id` appends exactly one line `(item, 1)` at the end |
| CartStore.AddPreservesValid | src/context/CartContext.js:12-23 | adding keeps one line per `_id` and quantities ≥ 1 |
| CartStore.AddCountsOne | src/context/CartContext.js:12-23 | with one line per `_id`, every `addToCart` raises the item count by exactly 1 |
| CartStore.AddTotalExisting | src/context/CartContext.js:16-18 | merging raises the total by the unit price stored on the existing line, not the price of the newly passed item |
| CartStore.AddTotalNew | src/context/CartContext.js:19-20 | appending raises the total by the new item's price |
| CartStore.RemoveFromCart | src/context/CartContext.js:26-28 | the result holds exactly the lines whose `_id` differs from the id, and is never longer |
| CartStore.RemoveAbsent | src/context/CartContext.js:26-28 | removing an `_id` that no line has is a no-op |
| CartStore.RemoveAppend | src/context/CartContext.js:27 | removal keeps the original order: filtering `a + b` equals filtering `a`, then `b` |
| CartStore.RemoveUnique | src/context/CartContext.js:26-28 | with one line per `_id`, removing line k's `_id` deletes exactly line k |
| CartStore.RemovePreservesValid | src/context/CartContext.js:26-28 | removing keeps the cart invariant |
| CartStore.RemoveAggregates | src/context/CartContext.js:26-28 | removing line k lowers the count by its quantity and the total by its `price × quantity` |
| CartStore.UpdateQuantity | src/context/CartContext.js:31-36 | a quantity below 1 returns the cart unchanged; otherwise only the matching lines take the new quantity, and foods, length and order stay the same |
| CartStore.UpdateUnique | src/context/CartContext.js:33-35 | with one line per `_id` and q ≥ 1, only line k changes; the count moves by q minus the old quantity |
| CartStore.UpdatePreservesValid | src/context/CartContext.js:31-36 | updating keeps the cart invariant, including the ignored q < 1 case |
| CartStore.ClearCart | src/context/CartContext.js:47 | clearing yields a valid cart whose total and count are both 0 |
| CartStore.GetCartTotal | src/context/CartContext.js:39-40 | the `reduce` loop computes the sum of `price × quantity` over the lines |
| CartStore.GetCartItemsCount | src/context/CartContext.js:43-44 | the `reduce` loop computes the sum of quantities |
| CartStore.ValidAggregates | src/context/CartContext.js:39-44 | with positive quantities, the total is ≥ 0 and the count is at least the number of lines; so the count is 0 only for the empty cart |
| CartPage.ItemId | src/pages/Cart.js:12 | a line is identified by `_id` when it is a non-empty string, otherwise by `id` |
| CartPage.MinusAtOneKeepsCart | src/pages/Cart.js:61-64 | minus on a line of quantity 1 requests 0; the store ignores that, and the cart is unchanged |
| CartPage.MinusLowersLine | src/pages/Cart.js:61-64 | minus on a line above 1 lowers only that line by 1, and the count by 1 |
| CartPage.PlusRaisesLine | src/pages/Cart.js:70-73 | plus raises only that line by 1 and the count by 1, and keeps the cart invariant |
| CartPage.RemoveDeletesLine | src/pages/Cart.js:82-84 | the trash button deletes exactly its own line |
| CartPage.RemoveIdOnlyLineKeepsIt | src/pages/Cart.js:82-84 | for a line with only a plain `id`, the store compares that `id` with `_id`, so the trash button leaves the line in place |
| CartPage.LineDisplayTotal | src/pages/Cart.js:80 | a line's shown total is `price × quantity`, the store's line total that the subtotal sums; it is at least the unit price, and equal to it at quantity 1 |
| CartPage.HandleCheckout | src/pages/Cart.js:18-21 | proceeding navigates exactly when the cart is non-empty |
| CartPage.CheckoutNeedsItems | src/pages/Cart.js:18-21 | for a valid cart, proceeding is possible exactly when the item count is positive |
| CartPage.CartSummary | src/pages/Cart.js:23-26 | the tax is 8% of the subtotal rounded to the cent, and the total is subtotal + tax + 2.99 |
| CartPage.SummaryTotalNearExact | src/pages/Cart.js:23-26 | the shown total is within half a cent of the exact 1.08 × subtotal + 2.99 |
| CartPage.SampleSummary | src/pages/Cart.js:23-26 | $24.99 × 1 plus $4.99 × 2 gives subtotal 34.97, tax 2.80 and total 40.76 |
| Money.RoundToCents | src/pages/Cart.js:24 | `parseFloat(x.toFixed(2))` gives the nearest cent, ties away from zero |
| Checkout.InitialForm | src/pages/Checkout.js:21-33 | each contact and address field defaults to the current user's value or `''`; payment defaults to `credit-card`; the card fields start empty |
| Checkout.InputNamed | src/pages/Checkout.js:37-42 | an event's `name` selects the form's input with that `name` attribute, and selects none when no input of the form has it |
| Checkout.SetFieldSetsIt | src/pages/Checkout.js:37-42 | a change event on one of the form's inputs sets that input's text to the typed value |
| Checkout.SetFieldKeepsOthers | src/pages/Checkout.js:37-42 | a change event leaves every input with a different name as it was |
| Checkout.SetFieldUnknown | src/pages/Checkout.js:37-42 | a change event naming no input of the form changes nothing |
| Checkout.OrderItems | src/pages/Checkout.js:51-54 | one order item per cart line, in order, with `food = _id` and the line's quantity |
| Checkout.BuildOrder | src/pages/Checkout.js:50-67 | the form's `address/city/state/zipCode` becomes `street/city/state/zipCode`; payment method and `{name, email, phone}` are copied |
| Checkout.OrderUnitsMatchCart | src/pages/Checkout.js:51-54 | the order's quantities sum to the cart's item count |
| Checkout.OrderItemsDistinct | src/pages/Checkout.js:51-54 | a valid cart gives an order that names each food once, with quantities ≥ 1 |
| Checkout.HandleSubmit | src/pages/Checkout.js:44-96 | an ok response empties the cart, shows the success toast and goes home; a failed or throwing request keeps the cart and shows the server message or the fallback text |
| Checkout.SubmitFromPage | src/pages/Checkout.js:98-129 | an order is sent exactly when the cart is non-empty (otherwise no form is rendered) and the form passes the browser's constraint validation; a sent order is never empty and carries a non-empty e-mail |
| Checkout.BlankFieldBlocks | src/pages/Checkout.js:139-228 | a blank `required` contact or address input blocks submission, so a guest's untouched initial form cannot be sent |
| Checkout.CardFieldsOnlyForCards | src/pages/Checkout.js:238-298 | the card inputs constrain the form only under `credit-card`, where each is required; under another payment method their contents do not matter |
| Checkout.ValidEmailSplit | src/pages/Checkout.js:149-158 | the `type="email"` input accepts exactly a non-empty local part of the allowed characters, one `@`, and a valid domain |
| Checkout.ValidDomainSplit | src/pages/Checkout.js:149-158 | a domain is valid exactly when its first dot-separated label is 1–63 letters, digits or inner hyphens and the rest is a valid domain |
| Checkout.SubmitKeepsCartValid | src/pages/Checkout.js:81-92 | after any response the cart is still valid, and either empty or exactly as before |
| Checkout.CheckoutTotals | src/pages/Checkout.js:117-120 | the tax is exactly 8% of the subtotal, unrounded; total = subtotal + 2.99 + tax |
| Checkout.CheckoutMatchesCartPage | src/pages/Checkout.js:117-120 | shown to two decimals, the checkout tax and total equal the cart page's; the unrounded tax is within half a cent of the cart page's |
| Checkout.SampleTaxesDiffer | src/pages/Checkout.js:119 | on the sample cart the checkout tax is 279.76 cents, while the cart page has 280 |
| Checkout.AsWrittenDropsToken | src/pages/Checkout.js:74 | as written, a signed-in order carries `Bearer undefined` instead of the user's token |
| Checkout.OrderAuthorizationFollowsSession | src/pages/Checkout.js:74 | the corrected header carries the stored token after login, is absent after logout, and equals the client's default header after login or a restore |
| Menu.OfCategory | src/pages/Menu.js:14 | the result holds exactly the foods of that category |
| Menu.FilterFoods | src/pages/Menu.js:12-14 | a food is shown iff it is in the list and either the category is `all` or the food's category matches |
| Menu.FilterAll | src/pages/Menu.js:12-13 | `all` returns the list unchanged |
| Menu.OfCategoryAppend | src/pages/Menu.js:14 | the filter keeps the original order |
| Menu.OfCategoryCounts | src/pages/Menu.js:14 | the filter keeps every copy of a matching food and none of the others |
| Menu.ParseSortKey | src/pages/Menu.js:17-27 | `price-low`, `price-high` and `rating` select their comparators; every other key falls to `name` |
| Menu.Sort | src/pages/Menu.js:16 | the sorted copy is a permutation of its input, ordered by the comparator |
| Menu.ShownFoods | src/pages/Menu.js:12-28 | the grid is a permutation of the filtered list, and so holds exactly the foods that pass the filter |
| Menu.PriceLowAscending | src/pages/Menu.js:18-19 | under `price-low`, prices never decrease |
| Menu.PriceHighDescending | src/pages/Menu.js:20-21 | under `price-high`, prices never increase |
| Menu.RatingDescending | src/pages/Menu.js:22-23 | under `rating`, ratings never increase |
| Menu.NameAscending | src/pages/Menu.js:24-26 | `name` and any unrecognised key give the same list, ordered by name |
| Collation.CompareTransitive | src/pages/Menu.js:26 | the stand-in for `localeCompare` orders transitively |
| Collation.CompareFlip | src/pages/Menu.js:26 | swapping the two names flips the comparison's sign |
| UserJson.Serialize | src/context/AuthContext.js:34 | the stored user text is never empty, so it is truthy |
| UserJson.ParseSerialize | src/context/AuthContext.js:34 | parsing the stored user text gives back the user |
| Auth.BearerRoundTrip | src/context/AuthContext.js:37 | the header is `"Bearer " + token`, and the token can be read back from it |
| Auth.Restore | src/context/AuthContext.js:18-30 | the user is restored iff both `token` and `user` are truthy and the user text parses; then the header is `Bearer <token>`; otherwise there is no user and no header; text that does not parse throws and `loading` never clears |
| Auth.Login | src/context/AuthContext.js:32-38 | login stores `token = t` and a user text that parses back to u; it sets `currentUser = u` and the header `Bearer t`; other storage keys are unchanged |
| Auth.RegisterIsLogin | src/context/AuthContext.js:40-46 | `register` has exactly the effect of `login` |
| Auth.Logout | src/context/AuthContext.js:48-54 | logout removes both keys, the user and the header, from any state; other keys are unchanged |
| Auth.LogoutIdempotent | src/context/AuthContext.js:48-54 | logging out twice is the same as logging out once |
| Auth.RestoreAfterLogin | src/context/AuthContext.js:20-26 | a reload after `login(u, t)` restores u and `Bearer t` when t is non-empty; an empty t comes back anonymous |
| Auth.RestoreAfterLogout | src/context/AuthContext.js:20-27 | a reload after `logout` comes back anonymous, with no header |
| Auth.GoogleLogin | src/context/AuthContext.js:57-76 | on success: `login(user, token)` and `success: true`; on failure: the session is unchanged, `success: false`, and the server's message or `Google authentication failed` |

## Findings

| source | as written | input that shows it | evidently intended | confidence | as-written member | corrected member |
|---|---|---|---|---|---|---|
| src/pages/Checkout.js:18 | `token` is taken from `useAuth()`, but the auth provider's value has no `token` field. The order request's header is therefore `` `Bearer ${undefined}` ``, which is `Bearer undefined`. | any signed-in session, e.g. after `login(u, "abc")` | `Authorization: Bearer abc`, the session's stored token | high; not executed | Checkout.AsWrittenDropsToken | Checkout.OrderAuthorizationFollowsSession |

The order payload in `Checkout.HandleSubmit` covers only the request body. The header is modelled only by the two members above.

## Left out

- HTTP: the `fetch` in the checkout page and the Google sign-in `axios.post` are not modelled. Only their outcome is, as an input: ok / not ok with a message / thrown.
- Base URLs and request paths are configuration. The checkout page's base URL ends in `/`, so the order path has a double slash; that is not modelled.
- Floating point: prices are integer cents and ratings integer tenths. `toFixed` tie-breaking on binary doubles is not modelled, and neither is drift in `price * quantity`. Prices are non-negative.
- `localeCompare` collation: replaced by comparing code points left to right (`Collation`). Locale rules are not modelled.
- Sort stability: `Array.prototype.sort` is stable, and so is `Menu.Insert`. Stability is not stated as a property.
- JSON: `UserJson` covers only the profile fields the pages read (name, email, phone, address). Unlike `JSON.stringify`, it writes a missing field as `null` rather than omitting it, and it escapes only `"` and `\`. `Parse` accepts only the texts `Serialize` writes; any other stored text is treated as one on which `JSON.parse` throws. Logging in with a `null` user is not modelled.
- `useAuth` throwing outside its provider is not modelled, and neither is the `loading` gate's rendering. The session does record whether `loading` was cleared.
- The checkout page's `loading` flag is not modelled. It disables the button while a request is in flight.
- Markup, routing, toasts and spinners: only the toast text and the "go home" decision are modelled. The cart summary's line count label is not modelled. Neither are the navbar, footer, home, food card, order success and register pages, the password check, the `api.js` helper or the sample catalog; `Catalog` holds only the sample foods the worked examples use.
- Token renewal, retry on 401 and request coalescing are not modelled; the code has none of them. Beyond the browser's built-in constraint validation (`Checkout.Submittable`), the code does not validate the form either.
- Checkout.SubmitFromPage: the browser's value sanitization is not modelled. It strips newlines from text inputs and trims whitespace around an e-mail address before validating. Internationalised domains, which a browser converts to ASCII before checking, count as invalid here.
- Auth.GoogleLogin: assumes the success response always carries `user` and `token`. A response missing them would call `login(undefined, undefined)`; that case is not modelled.
