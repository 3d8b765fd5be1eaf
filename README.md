# Storefront cart, favorites and checkout — a Dafny model

This project models the state engine of a storefront. That engine is the cart and favorites
store of `src/context/StoreContext.tsx` (a React context provider), together with the
checkout route `src/app/api/checkout/route.ts`. The route turns a cart into a payment session
request for a hosted payment processor.

- `text.dfy` (module `Text`): decimal rendering of clock readings, and the string facts that
  entry ids and order ids rest on.
- `types.dfy` (module `StoreTypes`): `Product`, `CartItem`, `Cart` and `FavoriteItem`, as in
  `src/types/index.ts`. Optional fields become `Option`.
- `cart.dfy` (module `CartEngine`): `calculateTotal`, the reduce in `getTotalItems`, and the
  updater functions that `addToCart`, `removeFromCart`, `updateQuantity` and `clearCart`
  pass to `setCart`. Each one is a pure function from the previous cart to the next. It is
  split into a function on the lines (`AddLines`, `RemoveLines`, `SetQuantity`) and
  `WithTotal`, which pairs the new lines with their recomputed total.
- `favorites.dfy` (module `FavoritesEngine`): the updaters of `addToFavorites`,
  `removeFromFavorites` and `toggleFavorite`, and the `isFavorite` predicate.
- `store.dfy` (module `StoreContext`): the class `StoreProvider`. Its fields are `cart` and
  `favorites`. Each action replaces one field wholesale, with the value the pure updater
  computes, and keeps the other field unchanged. `getTotalItems` and `isFavorite` are
  loops that change nothing.
- `checkout.dfy` (module `CheckoutRoute`): the POST handler. It covers the empty-items
  guard, the mapping of cart lines to line items, the session parameters with their default
  redirect URLs, and the 200/400/500 responses.

Prices are exact `real`s, so `Math.round(price * 100)` is rounded exactly. Quantities are
`nat`s. A clock reading is a `nat` (milliseconds), passed in as a parameter.

Two invariants are proved for every state the actions can reach:
- the stored total equals the sum of price × quantity over the lines, and the cart has at
  most one line per product id;
- favorites hold at most one entry per product id, and every entry id is the product id, a
  dash, and decimal digits. So two entries never share an id.

Two behaviours of the code, as written, are followed here:
- `updateQuantity(id, 0)` keeps a line of quantity 0 rather than removing it. The line then
  adds nothing to the total (`UpdateToZeroKeepsLine`).
- Toggling a favorite twice gives back the same list whenever the product was not a
  favorite (`ToggleTwiceFromAbsent`). When it was one, its entry is re-created at the end
  of the list with the second toggle's reading as its id and date, so the list comes back
  unchanged only if that entry was already last and carried that reading. The set of
  favorited products is the same either way (`ToggleTwiceFromPresent`).

## Model

| member | source | states |
|---|---|---|
| `Text.NatToDecimal` | src/context/StoreContext.tsx:153 | the rendering of a clock reading is a non-empty string of decimal digits with no leading zero |
| `Text.DecimalRoundTrip` | src/context/StoreContext.tsx:153 | reading the rendered digits back gives the clock reading |
| `Text.DecimalInjective` | src/app/api/checkout/route.ts:63 | different clock readings render differently |
| `Text.SplitAtLastDash` | src/context/StoreContext.tsx:153 | `p + "-" + digits` determines both `p` and the digits |
| `CartEngine.LineTotal` | src/context/StoreContext.tsx:21 | defined by its body, one line's price × quantity; `LineTotalGrows` and `SingleLine` state what it contributes |
| `CartEngine.CalculateTotal` | src/context/StoreContext.tsx:19-24 | defined by its body, the left fold of the line totals from 0; `TotalAppend`, `SingleLine`, `TotalNonNegative`, `TotalReplace`, `TotalDelete` and `TotalGrow` state its behaviour |
| `CartEngine.TotalItems` | src/context/StoreContext.tsx:130-132 | defined by its body, the left fold of the quantities from 0; the same lemmas as for `CalculateTotal` state its behaviour, and `StoreProvider.GetTotalItems` is proved equal to it |
| `CartEngine.HasLine` | src/context/StoreContext.tsx:83-85 | defined by its body, whether `find` by product id succeeds; `AddLinesHasLine` and `RemoveLinesGone` state it after adding and removing |
| `CartEngine.WithTotal` | src/context/StoreContext.tsx:100-102 | defined by its body, the new lines with the recomputed total; `CartAddKeepsInvariant`, `CartRemoveKeepsInvariant` and `CartUpdateKeepsInvariant` state that this keeps "total is the recomputed sum" |
| `CartEngine.TotalAppend` | src/context/StoreContext.tsx:19-24 | the total and the item count of two line lists put end to end are the sums of their parts |
| `CartEngine.SingleLine` | src/context/StoreContext.tsx:19-24 | one line sums to its price × quantity and counts its quantity |
| `CartEngine.TotalNonNegative` | src/context/StoreContext.tsx:19-24 | with no negative price the total is never negative |
| `CartEngine.TotalReplace` | src/context/StoreContext.tsx:19-24 | replacing one line moves the total and the item count by exactly that line's difference |
| `CartEngine.TotalDelete` | src/context/StoreContext.tsx:19-24 | deleting one line lowers the total and the item count by exactly that line |
| `CartEngine.LineTotalGrows` | src/context/StoreContext.tsx:21-22 | a line with `q` more units costs its unit price × `q` more |
| `CartEngine.TotalGrow` | src/context/StoreContext.tsx:19-24 | growing one line by `q` raises the total by its unit price × `q` and the item count by `q` |
| `CartEngine.MergeInto` | src/context/StoreContext.tsx:88-94 | the merge keeps the number of lines and every line's product |
| `CartEngine.MergeIntoSingle` | src/context/StoreContext.tsx:88-94 | with one line per id, the merge changes only that line, whose quantity grows by `quantity` |
| `CartEngine.AddLines` | src/context/StoreContext.tsx:83-98 | defined by its body, the merge when a line of the id is found and the append otherwise; `AddLinesExisting`, `AddLinesHasLine` and `AddLinesKeepsUnique` state it |
| `CartEngine.AddLinesExisting` | src/context/StoreContext.tsx:83-94 | adding a product id that has a line gives the old lines with that line grown in place |
| `CartEngine.AddLinesHasLine` | src/context/StoreContext.tsx:83-98 | after adding, a line of the product id exists |
| `CartEngine.AddLinesKeepsUnique` | src/context/StoreContext.tsx:83-98 | adding keeps at most one line per product id |
| `CartEngine.RemoveLines` | src/context/StoreContext.tsx:107-109 | the filter keeps exactly the lines of other product ids, is no longer than its input, and is the identity when the id is absent |
| `CartEngine.RemoveLinesKeepsUnique` | src/context/StoreContext.tsx:107-109 | filtering keeps at most one line per product id |
| `CartEngine.RemoveLinesSingle` | src/context/StoreContext.tsx:107-109 | with one line per id, removing drops exactly that line and keeps the others in order |
| `CartEngine.RemoveLinesGone` | src/context/StoreContext.tsx:107-109 | after removing, no line of the product id remains |
| `CartEngine.SetQuantity` | src/context/StoreContext.tsx:117-119 | the update keeps the number of lines and every line's product |
| `CartEngine.SetQuantitySingle` | src/context/StoreContext.tsx:117-119 | with one line per id, the update sets that line's quantity and changes nothing else |
| `CartEngine.CartClear` | src/context/StoreContext.tsx:126-128 | clearing gives no lines, total 0, and a cart that keeps the invariant |
| `CartEngine.CartAdd` | src/context/StoreContext.tsx:80-104 | defined by its body as addToCart's successor cart; `CartAddExisting`, `CartAddNew` and `CartAddKeepsInvariant` state its lines, total and invariant |
| `CartEngine.CartRemove` | src/context/StoreContext.tsx:106-114 | defined by its body as removeFromCart's successor cart; `CartRemovePresent` and `CartRemoveKeepsInvariant` state it |
| `CartEngine.CartUpdate` | src/context/StoreContext.tsx:116-124 | defined by its body as updateQuantity's successor cart; `CartUpdatePresent`, `UpdateToZeroKeepsLine` and `CartUpdateKeepsInvariant` state it |
| `CartEngine.CartAddExisting` | src/context/StoreContext.tsx:80-104 | adding a present id keeps the line count; only that line's quantity grows, by `quantity`; the other lines stay unchanged and in order; the total grows by the stored unit price × `quantity`, and the item count by `quantity` |
| `CartEngine.CartAddNew` | src/context/StoreContext.tsx:95-102 | adding a new id appends exactly `{product, quantity}` after the unchanged lines; the total grows by price × `quantity` |
| `CartEngine.CartAddKeepsInvariant` | src/context/StoreContext.tsx:80-104 | addToCart keeps "total is the recomputed sum" and "one line per id", and leaves a line of the product |
| `CartEngine.AddAllOntoLine` | src/context/StoreContext.tsx:83-94 | further adds onto the last line leave one line whose quantity is the sum of all requested quantities |
| `CartEngine.AddAllKeepsInvariant` | src/context/StoreContext.tsx:80-104 | any number of adds keeps the cart invariant |
| `CartEngine.RepeatedAddsMerge` | src/context/StoreContext.tsx:83-98 | repeated adds of one new id give exactly one line for it, at the end, whose quantity is the sum of the requested quantities |
| `CartEngine.CartRemovePresent` | src/context/StoreContext.tsx:106-114 | removing a present id drops exactly its line and keeps the rest in order; the total and the item count fall by that line |
| `CartEngine.CartRemoveKeepsInvariant` | src/context/StoreContext.tsx:106-114 | removeFromCart keeps the cart invariant, leaves no line of the id, and changes nothing when the id is absent |
| `CartEngine.CartUpdatePresent` | src/context/StoreContext.tsx:116-124 | updating a present id sets its quantity, 0 included, and keeps every line in order; the total and the item count move by the difference |
| `CartEngine.UpdateToZeroKeepsLine` | src/context/StoreContext.tsx:116-124 | updating to 0 keeps the line, but the total and the item count equal those of the cart with the line removed |
| `CartEngine.CartUpdateKeepsInvariant` | src/context/StoreContext.tsx:116-124 | updateQuantity keeps the cart invariant and the set of product ids with a line, and changes nothing when the id is absent |
| `CartEngine.RunKeepsInvariant` | src/context/StoreContext.tsx:80-128 | after any sequence of add, remove, update and clear, the total is the recomputed sum and there is at most one line per id |
| `CartEngine.ScenarioMergeSameProduct` | src/context/StoreContext.tsx:80-104 | adding A (89.99) with quantity 1 and then quantity 2 gives one line of quantity 3, with total 269.97 |
| `CartEngine.ScenarioRemoveOne` | src/context/StoreContext.tsx:106-114 | adding A and then B × 2 (149.5), then removing A, leaves B's line alone, with total 299.0 |
| `FavoritesEngine.IsFavorite` | src/context/StoreContext.tsx:183-188 | defined by its body, `some` over the product ids; `FindFavorite` is `None` exactly when it is false, and `StoreProvider.IsFavoriteProduct` is proved equal to it |
| `FavoritesEngine.FavoriteId` | src/context/StoreContext.tsx:153 | defined by its body, the product id, a dash and the reading in decimal; `NewFavoriteNamesProduct`, `IdsOfDifferentProducts` and `ScenarioEntryId` state its shape and distinctness |
| `FavoritesEngine.NewFavorite` | src/context/StoreContext.tsx:152-156 | defined by its body, the entry `{id, product, addedAt}`; `FavoritesAdd` states that it is the entry appended |
| `FavoritesEngine.FindFavorite` | src/context/StoreContext.tsx:169-171 | the first entry of the product id, or none exactly when no entry has it |
| `FavoritesEngine.FavoritesAdd` | src/context/StoreContext.tsx:142-160 | addToFavorites changes nothing when the product is already a favorite; otherwise it appends exactly the entry `{id: product.id + "-" + reading, product, addedAt: reading}`; either way the product is favorited and no other product becomes one |
| `FavoritesEngine.FavoritesRemove` | src/context/StoreContext.tsx:162-166 | the filter keeps exactly the entries with another id, and is the identity when no entry has the id |
| `FavoritesEngine.NewFavoriteNamesProduct` | src/context/StoreContext.tsx:152-156 | a new entry's id is its product id, a dash and digits |
| `FavoritesEngine.IdsOfDifferentProducts` | src/context/StoreContext.tsx:153 | entries of different products never share an id, whatever the clock readings |
| `FavoritesEngine.DistinctIds` | src/context/StoreContext.tsx:142-166 | in a list that keeps the invariant, all entry ids are distinct |
| `FavoritesEngine.FavoritesAddKeepsInvariant` | src/context/StoreContext.tsx:142-160 | addToFavorites keeps one entry per product and well-formed ids |
| `FavoritesEngine.RemoveKeepsUniqueProducts` | src/context/StoreContext.tsx:162-166 | filtering keeps at most one entry per product id |
| `FavoritesEngine.FavoritesRemoveKeepsInvariant` | src/context/StoreContext.tsx:162-166 | removeFromFavorites keeps the favorites invariant |
| `FavoritesEngine.RemoveHeadEntry` | src/context/StoreContext.tsx:162-166 | removing the first entry's id, held by no other entry, leaves the rest |
| `FavoritesEngine.RemoveOnlyEntry` | src/context/StoreContext.tsx:162-166 | removing an id that only one entry holds drops exactly that entry and keeps the others in order |
| `FavoritesEngine.FavoritedWithoutAt` | src/context/StoreContext.tsx:183-188 | without the entry at `k`, a product is favorited exactly when it was and is not `k`'s product |
| `FavoritesEngine.FavoritedWithout` | src/context/StoreContext.tsx:183-188 | the same for all product ids at once |
| `FavoritesEngine.RemoveEntry` | src/context/StoreContext.tsx:162-166 | removing an entry's id drops exactly that entry and unfavorites exactly its product |
| `FavoritesEngine.FavoritesToggle` | src/context/StoreContext.tsx:168-181 | defined by its body, removal by the found entry's id or an add; `ToggleFlips`, `ToggleTwiceFromAbsent` and `ToggleTwiceFromPresent` state it |
| `FavoritesEngine.ToggleFlips` | src/context/StoreContext.tsx:168-181 | toggleFavorite flips whether the product is a favorite, leaves every other product as it was, and keeps the invariant |
| `FavoritesEngine.ToggleTwiceFromAbsent` | src/context/StoreContext.tsx:168-181 | toggling a non-favorite twice, at any two clock readings, gives back exactly the original list |
| `FavoritesEngine.ToggleTwiceFromPresent` | src/context/StoreContext.tsx:168-181 | toggling a favorite twice keeps the favorited products; its entry moves to the end with the second reading's id |
| `FavoritesEngine.ScenarioEntryId` | src/context/StoreContext.tsx:153 | product "7" favorited at reading 2024 gets the id "7-2024" |
| `StoreContext.StoreProvider.constructor` | src/context/StoreContext.tsx:40-41 | the store starts with an empty cart of total 0 and no favorites, a valid state |
| `StoreContext.StoreProvider.AddToCart` | src/context/StoreContext.tsx:80-104 | the cart becomes the addToCart successor, favorites are unchanged, validity is kept, and the product has a line |
| `StoreContext.StoreProvider.RemoveFromCart` | src/context/StoreContext.tsx:106-114 | the cart becomes the removeFromCart successor with no line of the id; favorites are unchanged; validity is kept |
| `StoreContext.StoreProvider.UpdateQuantity` | src/context/StoreContext.tsx:116-124 | the cart becomes the updateQuantity successor; favorites are unchanged; validity is kept |
| `StoreContext.StoreProvider.ClearCart` | src/context/StoreContext.tsx:126-128 | the cart becomes empty with total 0; favorites are unchanged; validity is kept |
| `StoreContext.StoreProvider.GetTotalItems` | src/context/StoreContext.tsx:130-132 | returns the sum of the line quantities and changes nothing |
| `StoreContext.StoreProvider.AddToFavorites` | src/context/StoreContext.tsx:142-160 | favorites become the addToFavorites successor; the cart is unchanged; validity is kept |
| `StoreContext.StoreProvider.RemoveFromFavorites` | src/context/StoreContext.tsx:162-166 | favorites become the filtered list; the cart is unchanged; validity is kept |
| `StoreContext.StoreProvider.ToggleFavorite` | src/context/StoreContext.tsx:168-181 | favorites become the toggle successor, which flips whether the product is a favorite; the cart is unchanged; validity is kept |
| `StoreContext.StoreProvider.IsFavoriteProduct` | src/context/StoreContext.tsx:183-188 | returns true exactly when some entry has the product id, and changes nothing |
| `CheckoutRoute.OrDefault` | src/app/api/checkout/route.ts:59-61 | defined by its body, JavaScript's `||` on an optional string (absent or empty takes the fallback); `SessionRequestDefaults` states both fallbacks |
| `CheckoutRoute.ResolveImageUrl` | src/app/api/checkout/route.ts:31-33 | defined by its body; `ImageUrlEndsWithImage` and `ImageUrlAbsolute` state both branches |
| `CheckoutRoute.Round` | src/app/api/checkout/route.ts:47 | `Math.round` gives an integer within half a unit, with halves rounded up |
| `CheckoutRoute.UnitAmount` | src/app/api/checkout/route.ts:47 | defined by its body, `Math.round(price * 100)`; `UnitAmountNearest`, `WholeCents` and `UnitAmountExample` state it |
| `CheckoutRoute.RoundUnique` | src/app/api/checkout/route.ts:47 | that integer is the only one within half a unit |
| `CheckoutRoute.WholeCents` | src/app/api/checkout/route.ts:47 | a price of a whole number `c` of centavos gives `unit_amount` `c` |
| `CheckoutRoute.UnitAmountExample` | src/app/api/checkout/route.ts:47 | 129.99 gives 12999 |
| `CheckoutRoute.UnitAmountNearest` | src/app/api/checkout/route.ts:47 | `unit_amount` is the number of centavos nearest the price |
| `CheckoutRoute.BuildLineItem` | src/app/api/checkout/route.ts:30-51 | defined by its body, one cart line's Stripe line item; `BuildLineItems` states every field of it |
| `CheckoutRoute.BuildLineItems` | src/app/api/checkout/route.ts:19-52 | one line item per cart line, in order, with the quantity copied, currency "brl", the product's name and description, the single resolved image, metadata `{auraId: id, stripeProductId}`, and the nearest whole number of centavos |
| `CheckoutRoute.ImageUrlEndsWithImage` | src/app/api/checkout/route.ts:31-33 | an image starting with "http" is kept; any other becomes exactly the base URL followed by the image (prefix, suffix and length); either way the URL ends with the image path |
| `CheckoutRoute.ImageUrlAbsolute` | src/app/api/checkout/route.ts:31-33 | with an http(s) base URL every image URL is absolute, and resolving again changes nothing |
| `CheckoutRoute.LineCharge` | src/app/api/checkout/route.ts:47-49 | a whole-centavo line charges 100 × its price × quantity |
| `CheckoutRoute.ChargeMatchesCartTotal` | src/app/api/checkout/route.ts:19-52 | with whole-centavo prices the session charges exactly 100 × the store's cart total |
| `CheckoutRoute.Post` | src/app/api/checkout/route.ts:10-79 | missing or empty items give 400 "No items provided" and no session request; an unparsable body or a failed session call gives 500 "Failed to create checkout session"; otherwise 200 with the session's id and url |
| `CheckoutRoute.DefaultSuccessUrl` | src/app/api/checkout/route.ts:60 | defined by its body; `SessionRequestDefaults` states it as the success fallback |
| `CheckoutRoute.DefaultCancelUrl` | src/app/api/checkout/route.ts:61 | defined by its body; `SessionRequestDefaults` states it as the cancel fallback |
| `CheckoutRoute.OrderId` | src/app/api/checkout/route.ts:63 | defined by its body, "LUMA-" and the reading in decimal; `OrderIdsDiffer` and `SessionRequestDefaults` state it |
| `CheckoutRoute.SessionRequest` | src/app/api/checkout/route.ts:55-67 | defined by its body as the argument of `stripe.checkout.sessions.create`; `SessionRequestDefaults` states every field |
| `CheckoutRoute.SessionRequestDefaults` | src/app/api/checkout/route.ts:55-67 | the session request carries the built line items, card payment, mode "payment", customer creation "always" and locale "pt-BR"; absent or empty redirect URLs fall back to `baseUrl + "/success?session_id={CHECKOUT_SESSION_ID}"` and `baseUrl + "/cancel"`; the order id starts with "LUMA-" |
| `CheckoutRoute.OrderIdsDiffer` | src/app/api/checkout/route.ts:63 | requests at different clock readings carry different order ids |

## Left out

- Persistence to `localStorage` (src/context/StoreContext.tsx:45-78) is not modelled. The
  source adopts any stored JSON that parses, without checking its shape, and does not
  recompute the stored total. So the invariants hold for states reached through the
  actions, which is what `StoreProvider.Valid` states.
- `isCartOpen`, `toggleCart` and `closeCart` are not modelled: they are a visibility flag
  only.
- React batches state updates and defers them. The model applies each action at once, in
  call order. `toggleFavorite` reads the rendered `favorites`, while the updater it queues
  reads the latest state. Here both are the same list, so two toggles queued within one
  render are not modelled.
- `Date.now()` and `new Date()` become a single clock reading `now`, passed in. `addedAt` is
  that reading rather than a `Date` object.
- Floating point is not modelled: prices are exact reals. JavaScript's rounding of sums in
  `calculateTotal` is not captured.
- `CheckoutRoute.UnitAmount`: rounds the exact product price × 100. For a price such as
  1.005, whose double × 100 falls just below a half, the source's `Math.round` can give one
  centavo less.
- Quantities are `nat`. The source accepts any number, so a negative or fractional quantity
  passed by a caller is not modelled. The cart sidebar clamps decrements at 0
  (src/components/CartSidebar.tsx:119-123).
- The payment processor's SDK call, its client construction and the environment variables
  (src/app/api/checkout/route.ts:4-8, 55-67) are not modelled. Its outcome is the `created`
  parameter of `Post`, and the base URL is a parameter. So the fallback to
  "http://localhost:3000" is not modelled.
- Request bodies whose items are not cart lines (a missing product or image throws inside
  the `map`, giving 500) are not modelled. Items are typed cart lines, and only an
  unparsable body as a whole takes the 500 path without a session request.
- Error logging via `console.error` is not modelled.
- `Text.NatToDecimal` renders every natural number as plain digits. JavaScript switches to
  exponent notation ("1e+21") from 10^21 on, which no clock reading in milliseconds reaches;
  that notation is not modelled.
