# Online Boutique services, modelled and verified in Dafny

This project models the core logic of the Online Boutique microservices demo, ported to
serverless functions (`gcp-microservices-demo`), and proves properties of that model.

- **Money** (`money.dfy`): the checkout service's exact decimal money type. A value is a
  currency code, 64-bit `units` and 32-bit `nanos`. The module covers the validity and
  sign tests, negation, the carry and borrow `Sum` with its typed errors, `Must`, and
  `MultiplySlow`. Go's integer widths are explicit: `Int64`, `Int32` and `Uint32` subset
  types, wrap-around on overflow (`Wrap64`, `Wrap32`, `ToUint32`), and Go's truncating
  `/` and `%` (`GoQuo`, `GoRem`).
- **Checkout** (`checkout.dfy`): `PlaceOrder` and its preparation steps. Every remote
  collaborator is an oracle in a `Collaborators` value: the cart, the catalog, the currency
  converter, the shipping quote, payment, shipping, cart emptying, the email sender and
  the order-id generator. Each oracle answers with a value or fails. The methods return
  the outcome together with the log of calls they made. Specification functions
  (`PricedItems`, `Prepared`, `OrderTotal`, `CheckoutRun`) describe the same runs. The
  lemmas prove:
  - the fixed step order;
  - abort on the first failure, with nothing undone;
  - index alignment of order items;
  - what is charged;
  - the best-effort confirmation;
  - the contents of the order.
- **Cart** (`cart.dfy`): the cart service's item merge. It also models `addItem`, `getCart`
  and `emptyCart` as methods of a class whose `store` field stands for Redis, plus the
  dict⇄object converters. Python values are `Json.Value`s, and the Python errors that can
  escape are `TypeError` and `AttributeError`.
- **Catalog** (`catalog.dfy`): the product catalog's cached catalog, lookup, search and
  the routing decision of its HTTP handler.
- **Ads** (`ads.dfy`): the ad service's category lookup, its random fallback and its
  handler checks.
- **Recommendation** (`recommendation.dfy`): the recommendation filter, the fake catalog
  and the serialisers.
- **Payment** (`payment.dfy`): the payment service's card acceptance rules and its
  `CreditCardError` family.
- **Email** (`email.dfy`): the email service's dict⇄object serialisers and its dummy
  sender.
- **Frontend** (`frontend.dfy`): the frontend's display helpers and the total it shows
  after an order. `Text` (`text.dfy`) renders integers as `%d` does and proves the digits
  read back.

Nondeterminism is an input in every module:

| Source of nondeterminism | Input in the model |
|---|---|
| uuids | answers of the `newOrderId` oracle; `txId` in Payment |
| `rand.Intn` | `draws` |
| Python set iteration order | `order` |
| `random.sample` | `indices` |
| Go map iteration order | `order` in Ads |
| `new Date()` | `currentYear`, `currentMonth` |
| Unicode `strings.ToLower` | a `lower` function |
| the card validator library | a `validate` function |
| whether Redis is reachable | a `reachable` flag |

Where the services' documentation and their code disagree, the model follows the
code:

- `OrderItem.cost` is the converted per-unit price, not the price of the whole line. The
  quantity is applied only when the total is computed (`Checkout.PricedItemsAligned`,
  `Checkout.AddItemCosts`).
- MultiplySlow never runs its loop for a count of 0 or 1, so an item of quantity 0 adds
  its per-unit cost once to the total (`Checkout.LineCount`, `Checkout.AddItemCostsValue`).
- `IsPositive` and `IsNegative` are true for any value with zero units and positive
  (negative) nanos, even when the nanos are out of range. In Go `&&` binds tighter than
  `||` (`Money.PositiveDespiteInvalidNanos`).
- `Sum` counts only `units > 0`, `units < 0` and an exact zero as "same sign". A zero
  units sum with non-zero nanos goes through the borrow branch and yields `units = 1`,
  which can be invalid. `Sum` is therefore not associative
  (`Money.SumZeroUnitsBorrow`, `Money.SumNotAssociative`).
- `Sum` accepts two empty currency codes, although `AreSameCurrency` rejects them.
- `MultiplySlow(m, 0)` returns `m`.
- The checkout total goes through `Must`, so a currency mismatch panics instead of
  returning an error.
- `Negate` wraps at the minimum `int64`, so `Sum(m, Negate(m))` is zero only when
  `m.units` is not that minimum (`Money.NegateMinUnitsInvalid`).
- When products share an id, `GetProduct` returns the last one.
- The catalog handler ignores any other query parameters next to a lone `id` or `query`.
- The total the frontend displays starts from the shipping cost, while the checkout's
  charged total starts by adding the shipping cost to zero. The two differ when the
  shipping cost is a sub-unit amount (`Frontend.TotalPaidDiffersOnSubUnitShipping`).

## Model

| member | source | states |
|---|---|---|
| Money.ToUint32 | gcp-microservices-demo/src/checkoutservice/main.go:247 | Go's `uint32(q)` keeps a non-negative quantity and adds 2^32 to a negative one |
| Money.GoRem | gcp-microservices-demo/src/checkoutservice/money/money.go:90-91 | quotient and remainder recompose the dividend; the remainder takes the dividend's sign and is smaller than the divisor |
| Money.Must | gcp-microservices-demo/src/checkoutservice/money/money.go:67-74 | returns exactly when the result is a success, with its value; an error becomes a panic carrying that error |
| Money.Sum | gcp-microservices-demo/src/checkoutservice/money/money.go:79-107 | an invalid operand gives ErrInvalidValue before any currency check; valid operands with different codes give ErrMismatchingCurrency; success exactly when both are valid and the codes agree; the result takes the left code |
| Money.MultiplySlow | gcp-microservices-demo/src/checkoutservice/money/money.go:109-118 | the loop computes Multiplied (n - 1 sums through Must); n of 0 or 1 returns m unchanged |
| Money.IsValid | gcp-microservices-demo/src/checkoutservice/money/money.go:21-29 | a valid value has nanos strictly inside ±10^9 and nanos never of the opposite sign to units |
| Money.ValidIsCanonicalSplit | gcp-microservices-demo/src/checkoutservice/money/money.go:21-29 | a value is valid iff its units and nanos are Go's truncating quotient and remainder of its amount by 10^9 |
| Money.AreEquals | gcp-microservices-demo/src/checkoutservice/money/money.go:54-57 | AreEquals holds iff the two values are identical, code, units and nanos, valid or not |
| Money.Negate | gcp-microservices-demo/src/checkoutservice/money/money.go:60-65 | keeps the code and negates units and nanos, except that the minimum of each width negates to itself |
| Money.SignTestsMatchValue | gcp-microservices-demo/src/checkoutservice/money/money.go:32-44 | on valid values IsZero, IsPositive and IsNegative hold exactly when units·10^9+nanos is zero, positive, negative |
| Money.IsPositiveExactly | gcp-microservices-demo/src/checkoutservice/money/money.go:36-38 | IsPositive holds iff the value is valid and its amount is positive, or units are zero and nanos positive |
| Money.IsNegativeExactly | gcp-microservices-demo/src/checkoutservice/money/money.go:42-44 | IsNegative holds iff the value is valid and its amount is negative, or units are zero and nanos negative |
| Money.PositiveDespiteInvalidNanos | gcp-microservices-demo/src/checkoutservice/money/money.go:36-38 | {0, 10^9} is invalid yet IsPositive |
| Money.ValidRepresentationUnique | gcp-microservices-demo/src/checkoutservice/money/money.go:21-29 | two valid values with the same amount have the same units and nanos |
| Money.AreEqualsIsSameAmount | gcp-microservices-demo/src/checkoutservice/money/money.go:54-57 | on valid values AreEquals holds iff the codes and amounts agree, iff the values are identical |
| Money.EmptyCurrencyAcceptedBySum | gcp-microservices-demo/src/checkoutservice/money/money.go:79-84 | two empty codes fail AreSameCurrency, yet Sum adds them |
| Money.NegateValue | gcp-microservices-demo/src/checkoutservice/money/money.go:60-65 | away from the minimum of each width, Negate negates the amount, keeps the code and is an involution |
| Money.NegatePreservesValid | gcp-microservices-demo/src/checkoutservice/money/money.go:60-65 | Negate keeps a valid value valid and swaps positive and negative (units not the int64 minimum) |
| Money.NegateMinUnitsInvalid | gcp-microservices-demo/src/checkoutservice/money/money.go:60-65 | the valid {min int64, -1} negates to the invalid {min int64, 1} |
| Money.SumWithNegation | gcp-microservices-demo/src/checkoutservice/money/money.go:79-107 | a valid value plus its negation is zero in its currency |
| Money.SumCommutative | gcp-microservices-demo/src/checkoutservice/money/money.go:79-107 | Sum(l, r) == Sum(r, l), errors included |
| Money.SumExact | gcp-microservices-demo/src/checkoutservice/money/money.go:85-106 | without overflow, a successful Sum's amount is the sum of the amounts, in the left currency |
| Money.SumValid | gcp-microservices-demo/src/checkoutservice/money/money.go:88-101 | when the raw units sum is non-zero or the raw nanos sum is zero, the sum of valid values is valid |
| Money.SumZeroUnitsBorrow | gcp-microservices-demo/src/checkoutservice/money/money.go:88-101 | a zero units sum with non-zero nanos sum gives units 1 and nanos raw − 10^9, valid iff raw ≥ 10^9 |
| Money.SumOfTwoSubUnitAmountsIsInvalid | gcp-microservices-demo/src/checkoutservice/money/money.go:88-101 | {0,5e8}+{0,2e8} = {1,−3e8}, which is invalid |
| Money.SumOfTwoNegativeSubUnitAmountsWraps | gcp-microservices-demo/src/checkoutservice/money/money.go:92-101 | {0,−9e8}+{0,−8e8} borrows to nanos below the int32 range, which wraps to 1594967296 |
| Money.SumNotAssociative | gcp-microservices-demo/src/checkoutservice/money/money.go:79-107 | grouping three sub-unit and unit amounts differently gives an error one way and a value the other |
| Money.SumBorrowExample | gcp-microservices-demo/src/checkoutservice/money/money.go:92-101 | {2,5e8}+{−1,−8e8} borrows to {0,7e8} |
| Money.SumWithZero | gcp-microservices-demo/src/checkoutservice/money/money.go:79-107 | adding a valid value to zero returns it, except a sub-unit value, which becomes {1, nanos − 10^9} |
| Money.AddRepeatedlyValue | gcp-microservices-demo/src/checkoutservice/money/money.go:111-118 | k more additions of a valid non-negative amount add k times its amount, while units stay in range |
| Money.SumUnitsGrowth | gcp-microservices-demo/src/checkoutservice/money/money.go:85-101 | one sum of non-negative amounts moves units by at most one more than the addend's units |
| Money.MultipliedValue | gcp-microservices-demo/src/checkoutservice/money/money.go:111-118 | MultiplySlow of a valid non-negative amount by n ≥ 1, when it returns, returns n times the amount in the same currency |
| Money.SumOfSameSignWholeUnits | gcp-microservices-demo/src/checkoutservice/money/money.go:79-107 | adding a whole-unit amount to an accumulator of the same sign succeeds, keeps sign and currency, is exact, and grows the unit count by at most one more than the addend's |
| Money.AddRepeatedlyWholeUnits | gcp-microservices-demo/src/checkoutservice/money/money.go:111-118 | k repeated additions of a whole-unit amount to a same-sign accumulator return a valid same-sign amount, the accumulator plus k times the amount, while the units fit |
| Money.MultipliedReturns | gcp-microservices-demo/src/checkoutservice/money/money.go:111-118 | MultiplySlow of a valid amount of at least one whole unit, positive or negative, returns a valid whole-unit amount of the same sign in the same currency, n times the amount for n ≥ 1, while n·(abs(units) + 1) fits in int64 |
| Money.MultipliedNegativeFractionWraps | gcp-microservices-demo/src/checkoutservice/money/money.go:92-118 | {0, −9e8}·2 borrows to nanos below the int32 range and wraps to the positive {1, 1494967296} |
| Money.AddRepeatedlyCurrency | gcp-microservices-demo/src/checkoutservice/money/money.go:111-118 | repeated addition keeps the starting currency |
| Money.MultipliedPanicsOnSmallFraction | gcp-microservices-demo/src/checkoutservice/money/money.go:111-118 | multiplying an amount below half a unit by 3 or more panics with ErrInvalidValue (the first sum borrows into an invalid value) |
| Money.HalfUnitDoubles | gcp-microservices-demo/src/checkoutservice/money/money.go:111-118 | {0,5e8}·2 = {1,0} |
| Money.MultipliedZero | gcp-microservices-demo/src/checkoutservice/money/money.go:111-118 | zero times any count is zero |
| Money.AddRepeatedlyZero | gcp-microservices-demo/src/checkoutservice/money/money.go:111-118 | adding zero any number of times leaves zero |
| Checkout.PrepOrderItems | gcp-microservices-demo/src/checkoutservice/main.go:375-405 | the array-filling loop returns the order items and call log of PricedItems |
| Checkout.PrepareOrderItemsAndShippingQuoteFromCart | gcp-microservices-demo/src/checkoutservice/main.go:290-313 | outcome and calls are those of Prepared: cart, pricing, quote, conversion, stopping at the first failure |
| Checkout.PlaceOrder | gcp-microservices-demo/src/checkoutservice/main.go:231-281 | outcome and calls are those of CheckoutRun, about which the lemmas below are proved |
| Checkout.AddItemCosts | gcp-microservices-demo/src/checkoutservice/main.go:246-249 | a total that survives every item line keeps the starting currency |
| Checkout.ItemCurrencyMismatchPanics | gcp-microservices-demo/src/checkoutservice/main.go:246-249 | a valid item line in another currency than the valid running total panics with ErrMismatchingCurrency |
| Checkout.AddItemCostsValue | gcp-microservices-demo/src/checkoutservice/main.go:246-249 | for whole-unit costs of the total's sign and currency within the int64 unit range, the fold never panics and returns the total plus each per-unit cost times its quantity (once for quantity 0) |
| Checkout.OrderTotal | gcp-microservices-demo/src/checkoutservice/main.go:244-249 | an invalid shipping cost panics with ErrInvalidValue, shipping in another currency panics with ErrMismatchingCurrency; a returned total is in the user's currency |
| Checkout.OrderTotalValue | gcp-microservices-demo/src/checkoutservice/main.go:244-249 | for whole-unit shipping and item costs of one sign in the user's currency within the int64 unit range, the total is returned in that currency and equals shipping plus each per-unit cost times its quantity |
| Checkout.CheckoutRun | gcp-microservices-demo/src/checkoutservice/main.go:231-281 | every run starts with the order-id request; a failed order id ends it at once; a placed order carries the generated id and the request address |
| Checkout.PriceItemFacts | gcp-microservices-demo/src/checkoutservice/main.go:378-403 | one cart item: a lookup, then the conversion of that product's price; success keeps the item and records the converted unit price; a failure is the last call and names the product |
| Checkout.PricedItemsKeepsFailure | gcp-microservices-demo/src/checkoutservice/main.go:378-399 | once a prefix of the cart fails, pricing the whole cart gives the same failure and calls |
| Checkout.PricedItemsFacts | gcp-microservices-demo/src/checkoutservice/main.go:375-405 | pricing makes only lookups and conversions; all succeed, or only the last call failed, with a product or conversion error |
| Checkout.PricedItemsAligned | gcp-microservices-demo/src/checkoutservice/main.go:375-405 | on success, out[i].item == items[i] and out[i].cost is the converted per-unit price; calls 2i and 2i+1 look up and convert item i; lookups follow cart order |
| Checkout.PricedItemsFailureIsFirst | gcp-microservices-demo/src/checkoutservice/main.go:378-399 | a failure happened at one item k: all before it priced, the error names it, and no later item was looked up |
| Checkout.PricedItemsFailureAtLast | gcp-microservices-demo/src/checkoutservice/main.go:378-399 | when only the last item fails, pricing fails at that item |
| Checkout.QuotedFacts | gcp-microservices-demo/src/checkoutservice/main.go:301-308 | the quote is requested for the given items and address, then converted; success means both answered; otherwise the last call failed |
| Checkout.PreparedInOrder | gcp-microservices-demo/src/checkoutservice/main.go:290-313 | preparation calls are in step order and lie between GetCart and the shipping conversion |
| Checkout.PreparedOutcome | gcp-microservices-demo/src/checkoutservice/main.go:290-313 | success means every call answered and the result holds the cart, its priced items and the converted quote; failure means a preparation error from the last call |
| Checkout.PreparedQuotesCart | gcp-microservices-demo/src/checkoutservice/main.go:293-303 | any quote requested is for exactly the cart GetCart returned |
| Checkout.CheckoutRunStages | gcp-microservices-demo/src/checkoutservice/main.go:231-249 | a failed order id or preparation ends the run at once; otherwise it continues to settlement; only a failed run can stop before preparation succeeds |
| Checkout.SettledInOrder | gcp-microservices-demo/src/checkoutservice/main.go:251-279 | settlement starts with the charge of the total and keeps step order; the order is placed iff charge, shipment and cart emptying all answer, and then the calls are exactly Charge(total, card), ShipOrder(address, cart items), EmptyCart(user), SendOrderConfirmation(email, order) |
| Checkout.SettledOutcome | gcp-microservices-demo/src/checkoutservice/main.go:251-281 | settlement never panics; a failure is its last call; a shipment failure follows exactly one charge; a placed order's fields come from the order id, tracking id, preparation and request |
| Checkout.SettledRun | gcp-microservices-demo/src/checkoutservice/main.go:239-281 | with an order id, a prepared order and a total, the run is preparation followed by settlement |
| Checkout.StepsInOrder | gcp-microservices-demo/src/checkoutservice/main.go:231-281 | every run's calls follow the fixed step order and start with the order id |
| Checkout.PlacedRunCalls | gcp-microservices-demo/src/checkoutservice/main.go:234-281 | a run is placed iff the order id, the whole preparation, the total, the charge, the shipment and the cart emptying all succeed; its calls are then NewOrderId, the preparation's calls, and Charge(total, card), ShipOrder(address, cart items), EmptyCart(user), SendOrderConfirmation(email, order) |
| Checkout.FailureIsLastCall | gcp-microservices-demo/src/checkoutservice/main.go:231-281 | a failed run's last call is the one that failed and is not the confirmation; a placed order's calls all succeeded but the confirmation; a panic comes before any charge |
| Checkout.ShipmentFailureKeepsCharge | gcp-microservices-demo/src/checkoutservice/main.go:251-260 | after a shipment failure the successful charge stays in the log and nothing follows the shipment |
| Checkout.PricedItemsIgnoresConfirmation | gcp-microservices-demo/src/checkoutservice/main.go:375-405 | pricing does not depend on the email oracle |
| Checkout.ConfirmationIsBestEffort | gcp-microservices-demo/src/checkoutservice/main.go:275-281 | changing the confirmation's answer changes neither the outcome nor the calls |
| Checkout.PlacedOrderContents | gcp-microservices-demo/src/checkoutservice/main.go:267-273 | a placed order carries the generated id, the tracking id, the converted quote for the cart, the request address and one priced item per cart item, in order |
| Checkout.QuoteAndShipmentUseCartItems | gcp-microservices-demo/src/checkoutservice/main.go:257-311 | every GetQuote and ShipOrder call carries exactly the items GetCart returned and the request address |
| Checkout.ChargedAmountIsOrderTotal | gcp-microservices-demo/src/checkoutservice/main.go:244-253 | any charge made is of OrderTotal (zero + shipping + each cost × uint32 quantity, through Must) on the request's card |
| Checkout.CurrencyMismatchPanics | gcp-microservices-demo/src/checkoutservice/main.go:244-249 | shipping in another currency makes the checkout panic before any charge |
| Checkout.SubUnitShippingPanics | gcp-microservices-demo/src/checkoutservice/main.go:244-249 | a sub-unit shipping cost with any item makes the total panic before any charge |
| Checkout.CatalogFailureOnSecondItem | gcp-microservices-demo/src/checkoutservice/main.go:378-392 | when the second product cannot be fetched, the run fails naming it and nothing is charged, shipped or emptied |
| Checkout.FreeItemsAddNothing | gcp-microservices-demo/src/checkoutservice/main.go:246-249 | zero-cost items leave a running total unchanged |
| Checkout.ShippingDominatedTotal | gcp-microservices-demo/src/checkoutservice/main.go:244-249 | 8.99 USD shipping with free items totals 8.99 USD |
| Cart.Dict2CartItem | gcp-microservices-demo/src/cartservice/cartservice/rest/rest.py:12-18 | a dict gives its product_id and quantity, None when absent; a string or list holding neither key reads as CartItem(None, None); anything else raises TypeError |
| Cart.Dict2AddItemRequest | gcp-microservices-demo/src/cartservice/cartservice/rest/rest.py:28-34 | the user id and the item read through dict2CartItem when present; a missing item is None; the item's TypeError propagates |
| Cart.Dict2Cart | gcp-microservices-demo/src/cartservice/cartservice/rest/rest.py:47-55 | the user id when present; no items key gives []; a list of items decodes iff every element does, one line per element |
| Cart.Dict2GetCartRequest | gcp-microservices-demo/src/cartservice/cartservice/rest/rest.py:64-68 | succeeds iff the value reads as a dict (FieldsOf); the user id is its user_id, None when absent |
| Cart.Dict2EmptyCartRequest | gcp-microservices-demo/src/cartservice/cartservice/rest/rest.py:77-81 | succeeds iff the value reads as a dict (FieldsOf); the user id is its user_id, None when absent |
| Cart.PlusEq | gcp-microservices-demo/src/cartservice/cartservice/rest/rest.py:103 | Python's `+=`: succeeds iff both are ints, both strings, or a list extended by a list or a string; the result keeps the left kind; ints add; a list grows by the right operand's length and keeps its prefix |
| Cart.Merge | gcp-microservices-demo/src/cartservice/cartservice/rest/rest.py:95-103 | fails only with TypeError and only when the product is already there; keeps the user id; grows by one line iff the product is new; the product is present afterwards |
| Cart.AddedCart | gcp-microservices-demo/src/cartservice/cartservice/rest/rest.py:92-105 | a missing item raises AttributeError; no stored cart gives the fresh single-line cart Cart(user_id, [item]); a stored cart's merge failure is TypeError; success keeps the stored cart's user id and holds the item's product |
| Cart.ItemsToDicts | gcp-microservices-demo/src/cartservice/cartservice/rest/rest.py:41-45 | one dict per item, position by position |
| Cart.Dict2CartItems | gcp-microservices-demo/src/cartservice/cartservice/rest/rest.py:51-54 | success gives one item per element, each its conversion; failure iff some element cannot be converted |
| Cart.IndexOfProduct | gcp-microservices-demo/src/cartservice/cartservice/rest/rest.py:95-99 | the index found holds the product and no earlier one does; none iff no item holds it |
| Cart.CartService.AddItem | gcp-microservices-demo/src/cartservice/cartservice/rest/rest.py:89-108 | a non-string user id raises TypeError; an unreachable store stays unchanged; otherwise the user's entry becomes the merged or fresh cart, or the Python error is raised with the store unchanged |
| Cart.CartService.GetCart | gcp-microservices-demo/src/cartservice/cartservice/rest/rest.py:110-122 | a non-string id raises TypeError; a missing entry or unreachable store gives Cart(None, []); otherwise the decoded stored cart |
| Cart.CartService.EmptyCart | gcp-microservices-demo/src/cartservice/cartservice/rest/rest.py:124-129 | removes the user's entry when the store is reachable, else changes nothing |
| Cart.ItemsRoundTrip | gcp-microservices-demo/src/cartservice/cartservice/rest/rest.py:41-55 | converting items to dicts and back gives the items |
| Cart.CartRoundTrip | gcp-microservices-demo/src/cartservice/cartservice/rest/rest.py:36-55 | dict2Cart(c.toDict()) == c |
| Cart.Dict2CartDefaults | gcp-microservices-demo/src/cartservice/cartservice/rest/rest.py:12-55 | a dict without user_id and items reads as Cart(None, []); a missing user_id gives None; a dict without product_id (quantity) gives an item whose product (quantity) is None |
| Cart.StringItemReadsAsEmpty | gcp-microservices-demo/src/cartservice/cartservice/rest/rest.py:28-34 | an item given as the string "abc" reads as CartItem(None, None), with no error |
| Cart.StringHoldingKeyRaises | gcp-microservices-demo/src/cartservice/cartservice/rest/rest.py:12-15 | the string "product_id" as an item passes the `in` test and raises TypeError at the lookup |
| Cart.StringItemsReadAsEmptyLines | gcp-microservices-demo/src/cartservice/cartservice/rest/rest.py:47-55 | items given as a string yield one CartItem(None, None) per character |
| Cart.MergeAppendsNewProduct | gcp-microservices-demo/src/cartservice/cartservice/rest/rest.py:100-101 | a new product is appended after the existing items, which are kept in order |
| Cart.MergeAddsToFirstMatch | gcp-microservices-demo/src/cartservice/cartservice/rest/rest.py:95-103 | an existing product's first line gets the sum of the quantities; length and other lines unchanged |
| Cart.MergeRejectsMismatchedQuantity | gcp-microservices-demo/src/cartservice/cartservice/rest/rest.py:103 | adding to a stored quantity of None raises TypeError |
| Cart.MergeKeepsProductsDistinct | gcp-microservices-demo/src/cartservice/cartservice/rest/rest.py:95-103 | merging keeps each product on at most one line and adds exactly the new product to the set of products |
| Cart.NewUserGetsSingleItemCart | gcp-microservices-demo/src/cartservice/cartservice/rest/rest.py:104-105 | a user with no cart gets Cart(user_id, [item]) |
| Cart.MissingItemRaises | gcp-microservices-demo/src/cartservice/cartservice/rest/rest.py:96-105 | a request without an item raises AttributeError |
| Cart.AddTwiceScenario | gcp-microservices-demo/src/cartservice/cartservice/test.py:30-37 | adding 2 shoes then 3 shoes reads back one line of 5 shoes |
| Cart.EmptyThenGetScenario | gcp-microservices-demo/src/cartservice/cartservice/test.py:13-18 | after emptyCart, getCart returns Cart(None, []) |
| Catalog.Catalog.constructor | gcp-microservices-demo/src/productcatalogservice/server.go:109-112 | the catalog starts as the parse of the data, or empty when it does not parse |
| Catalog.Catalog.ParseCatalog | gcp-microservices-demo/src/productcatalogservice/server.go:245-253 | an empty cache is refilled from the data, else kept; the cache is returned |
| Catalog.Catalog.ListProducts | gcp-microservices-demo/src/productcatalogservice/server.go:255-257 | returns the parsed catalog unchanged |
| Catalog.Catalog.GetProduct | gcp-microservices-demo/src/productcatalogservice/server.go:259-270 | returns the last product with the id, or the error "no product with ID" + id when none has it |
| Catalog.Catalog.SearchProducts | gcp-microservices-demo/src/productcatalogservice/server.go:272-282 | returns Search: the products whose lower-cased name or description contains the lower-cased query |
| Catalog.Catalog.Handle | gcp-microservices-demo/src/productcatalogservice/server.go:118-234 | a rejected route answers 400 without parsing; otherwise the listing, the lookup (400 when missing) or the search |
| Catalog.LastWithId | gcp-microservices-demo/src/productcatalogservice/server.go:259-265 | none iff no product has the id; otherwise a product with the id that no later product shares |
| Catalog.ScanForId | gcp-microservices-demo/src/productcatalogservice/server.go:260-265 | the loop visits every product and keeps the last one whose id matches: exactly LastWithId of the catalog |
| Catalog.Search | gcp-microservices-demo/src/productcatalogservice/server.go:272-282 | exactly the catalog products that match, never more than the catalog |
| Catalog.Dispatch | gcp-microservices-demo/src/productcatalogservice/server.go:136-232 | non-GET is rejected; a lookup has a lone id and uses its first value; a search has a lone query and uses its first value |
| Catalog.DispatchCases | gcp-microservices-demo/src/productcatalogservice/server.go:136-232 | non-GET is rejected; no parameters lists; a lone single-valued id looks up; a lone single-valued query searches; both or neither key is rejected |
| Catalog.UnrelatedParametersIgnored | gcp-microservices-demo/src/productcatalogservice/server.go:167-197 | with id or query present, other parameters do not change the route |
| Catalog.RefilledIdempotent | gcp-microservices-demo/src/productcatalogservice/server.go:245-253 | refilling twice is refilling once; an empty cache with unparsable data stays empty; a filled cache is kept |
| Catalog.LaterDuplicateWins | gcp-microservices-demo/src/productcatalogservice/server.go:261-265 | an earlier product is returned only if it reappears at or after a later product with the same id |
| Catalog.ContainsEmpty | gcp-microservices-demo/src/productcatalogservice/server.go:276-277 | every string contains the empty string |
| Catalog.EmptyQueryMatchesAll | gcp-microservices-demo/src/productcatalogservice/server.go:276-277 | an empty query returns the whole catalog in order |
| Catalog.SearchConcat | gcp-microservices-demo/src/productcatalogservice/server.go:275-280 | search keeps catalog order: searching a + b is searching a then b |
| Ads.Gathered | gcp-microservices-demo/src/adservice/server.go:174-178 | an ad is in the concatenation iff some key's category holds it |
| Ads.Adservice.constructor | gcp-microservices-demo/src/adservice/server.go:100-102 | the service starts with two ads to serve and the default map |
| Ads.Adservice.CreateAdsMap | gcp-microservices-demo/src/adservice/server.go:191-206 | installs the six default categories, keeping the ad count |
| Ads.Adservice.SetMaxAdsToServe | gcp-microservices-demo/src/adservice/server.go:208-210 | sets the count and keeps the map |
| Ads.Adservice.GetMaxAdsToServe | gcp-microservices-demo/src/adservice/server.go:212-214 | returns the count of random ads currently set |
| Ads.Adservice.GetAdsByCategory | gcp-microservices-demo/src/adservice/server.go:216-218 | a known category's ads, else none |
| Ads.Adservice.GetRandomAds | gcp-microservices-demo/src/adservice/server.go:220-230 | the loops compute RandomAds over all ads of the map in its iteration order |
| Ads.Adservice.GetAds | gcp-microservices-demo/src/adservice/server.go:171-189 | the loops compute AdsFor: the concatenation for the keys, or random ads when there are no keys or it is empty |
| Ads.Adservice.Handle | gcp-microservices-demo/src/adservice/server.go:126-161 | 400 iff not GET or no context_keys; otherwise the ads for the comma-split keys |
| Ads.SplitComma | gcp-microservices-demo/src/adservice/server.go:135 | at least one piece, none containing a comma |
| Ads.SplitJoin | gcp-microservices-demo/src/adservice/server.go:135 | joining the pieces with commas gives back the string |
| Ads.SplitWithoutComma | gcp-microservices-demo/src/adservice/server.go:135 | a string without commas is a single key |
| Ads.SplitAfterComma | gcp-microservices-demo/src/adservice/server.go:135 | a comma-free piece then a comma splits off that piece first |
| Ads.SplitTwoKeys | gcp-microservices-demo/src/adservice/server.go:135 | "a,b" with comma-free a and b splits into [a, b] |
| Ads.GatheredConcat | gcp-microservices-demo/src/adservice/server.go:174-178 | the ads for a + b are the ads for a, then those for b |
| Ads.UnknownCategoryContributesNothing | gcp-microservices-demo/src/adservice/server.go:216-218 | an unknown key adds no ads |
| Ads.RandomAds | gcp-microservices-demo/src/adservice/server.go:220-230 | panics iff the count is negative or ads are wanted from an empty pool; otherwise exactly count ads, each from the pool |
| Ads.AdsFor | gcp-microservices-demo/src/adservice/server.go:171-189 | keys matching some ads serve exactly their concatenation; no keys or no match serve RandomAds; every ad served is in the map |
| Ads.RandomAdsFromMap | gcp-microservices-demo/src/adservice/server.go:220-230 | random ads number exactly the count and each comes from some category |
| Ads.RandomAdsSucceed | gcp-microservices-demo/src/adservice/server.go:220-230 | with a non-empty pool and a non-negative count, drawing succeeds with that many ads |
| Ads.AdsNeverEmpty | gcp-microservices-demo/src/adservice/server.go:183-188 | with a populated map and a positive count, GetAds returns a non-empty list |
| Ads.MatchingKeysServeTheirAds | gcp-microservices-demo/src/adservice/server.go:174-188 | when the keys match some ads, exactly their concatenation is served |
| Ads.DefaultCategories | gcp-microservices-demo/src/adservice/server.go:191-206 | six categories; kitchen holds the bamboo glass jar then the mug; the others one ad each |
| Ads.FootwearThenDecor | gcp-microservices-demo/src/adservice/server.go:174-178 | keys footwear, decor serve loafers then the candle holder |
| Ads.EmptyKeyServesRandomAds | gcp-microservices-demo/src/adservice/server.go:179-187 | an empty context_keys is the single key "" and serves two random ads |
| Recommendation.ClientFor | gcp-microservices-demo/src/recommendationservice/recommendationservice/rest/rest.py:163-168 | the fake catalog is used exactly when the host is None or "" |
| Recommendation.MoneyToDict | gcp-microservices-demo/src/recommendationservice/recommendationservice/rest/rest.py:43-44 | the dict has exactly the three money keys |
| Recommendation.ProductToDict | gcp-microservices-demo/src/recommendationservice/recommendationservice/rest/rest.py:56-84 | encoding fails exactly when the price is None |
| Recommendation.Dict2Product | gcp-microservices-demo/src/recommendationservice/recommendationservice/rest/rest.py:70-84 | succeeds iff price_usd is absent or readable as a money dict; the fields present are read, the others are None |
| Recommendation.Dict2ListProductsResponse | gcp-microservices-demo/src/recommendationservice/recommendationservice/rest/rest.py:96-102 | the append loop computes ProductsFromDict |
| Recommendation.ListProductsResponseToDict | gcp-microservices-demo/src/recommendationservice/recommendationservice/rest/rest.py:90-94 | the append loop encodes every product in order, or fails with the error of the first product without a price |
| Recommendation.AsSet | gcp-microservices-demo/src/recommendationservice/recommendationservice/rest/rest.py:176 | Python's set(): succeeds iff the value is a string, a dict, or a list of hashable values; a list gives exactly its elements, a string exactly its one-character strings, a dict exactly its keys as strings |
| Recommendation.Eligible | gcp-microservices-demo/src/recommendationservice/recommendationservice/rest/rest.py:175-176 | the catalog ids not requested: an id is eligible iff it is not in the requested set; TypeError iff some id or requested value is unhashable |
| Recommendation.ListRecommendations | gcp-microservices-demo/src/recommendationservice/recommendationservice/rest/rest.py:170-185 | fails with TypeError iff the user id is not a string or the sets cannot be built; otherwise one eligible id per sampled index |
| Recommendation.Picked | gcp-microservices-demo/src/recommendationservice/recommendationservice/rest/rest.py:182 | one id per sampled index; every id comes from the eligible list; distinct indices into a list without duplicates give distinct ids |
| Recommendation.RecommendationFacts | gcp-microservices-demo/src/recommendationservice/recommendationservice/rest/rest.py:170-185 | the result has no requested id, only catalog ids, no duplicates, and min(5, eligible ids) of them |
| Recommendation.FullSampleCoversAll | gcp-microservices-demo/src/recommendationservice/recommendationservice/rest/rest.py:180 | sampling n of n indices takes every index |
| Recommendation.FewEligibleAllReturned | gcp-microservices-demo/src/recommendationservice/recommendationservice/rest/rest.py:175-182 | with at most 5 eligible ids, the result as a set is the eligible set |
| Recommendation.UnreachableCatalogRecommendsNothing | gcp-microservices-demo/src/recommendationservice/recommendationservice/rest/rest.py:109-120 | a failed catalog call yields an empty recommendation list |
| Recommendation.FakeEligibleAfterSunglasses | gcp-microservices-demo/src/recommendationservice/recommendationservice/rest/rest.py:123-161 | excluding the sunglasses leaves the other three fake products eligible |
| Recommendation.FakeCatalogAfterSunglasses | gcp-microservices-demo/src/recommendationservice/recommendationservice/rest/rest.py:123-185 | with the fake catalog, excluding the sunglasses recommends exactly the other three |
| Recommendation.UserIdMustBeString | gcp-microservices-demo/src/recommendationservice/recommendationservice/rest/rest.py:171-176 | the call fails iff the user id is not a string or the ids cannot be put in sets |
| Recommendation.DecodeFailureSticks | gcp-microservices-demo/src/recommendationservice/recommendationservice/rest/rest.py:100-101 | once a prefix fails to decode, the whole list fails the same way |
| Recommendation.EncodeFailureSticks | gcp-microservices-demo/src/recommendationservice/recommendationservice/rest/rest.py:92-93 | once a prefix fails to encode, the whole list fails the same way |
| Recommendation.EncodeAllSucceeds | gcp-microservices-demo/src/recommendationservice/recommendationservice/rest/rest.py:90-94 | encoding succeeds iff every product has a price, giving one dict per product |
| Recommendation.ProductRoundTrip | gcp-microservices-demo/src/recommendationservice/recommendationservice/rest/rest.py:56-84 | a priced product encodes and decodes back to itself |
| Recommendation.ProductsRoundTrip | gcp-microservices-demo/src/recommendationservice/recommendationservice/rest/rest.py:86-102 | an encodable product list decodes back to itself, in order |
| Recommendation.MessagesRoundTrip | gcp-microservices-demo/src/recommendationservice/recommendationservice/rest/rest.py:8-35 | request and response decode back from their dicts |
| Recommendation.MissingKeysDefault | gcp-microservices-demo/src/recommendationservice/recommendationservice/rest/rest.py:16-102 | missing keys decode to None, and a missing products list to [] |
| Payment.RemoveFirst | gcp-microservices-demo/src/paymentservice/paymentservice/rest/rest.js:91 | a string without the character is unchanged |
| Payment.LastFour | gcp-microservices-demo/src/paymentservice/paymentservice/rest/rest.js:63 | the last four characters, or the whole of a shorter string, as a suffix |
| Payment.Charge | gcp-microservices-demo/src/paymentservice/paymentservice/rest/rest.js:71-97 | success carries the transaction id and needs a valid, accepted, unexpired card; an unaccepted-card error names the validator's type; an expiry error carries the card's number without its first dash, month and year; the invalid-card error is returned exactly when the validator says invalid |
| Payment.Message | gcp-microservices-demo/src/paymentservice/paymentservice/rest/rest.js:49-65 | an invalid card reads "Credit card info is invalid"; an unaccepted card's text names its type between the fixed head and tail; an expired card's text shows the card's last four characters, then ends with month/year |
| Payment.ChargeSucceedsExactly | gcp-microservices-demo/src/paymentservice/paymentservice/rest/rest.js:71-97 | a charge succeeds iff the card is valid, visa or mastercard, and not expired; it carries the fresh transaction id |
| Payment.InvalidCheckedFirst | gcp-microservices-demo/src/paymentservice/paymentservice/rest/rest.js:75-81 | an invalid card throws InvalidCreditCard whatever its type or expiry |
| Payment.ExpiredCardRefused | gcp-microservices-demo/src/paymentservice/paymentservice/rest/rest.js:87-91 | a valid visa or mastercard past its expiry month is refused with ExpiredCreditCard carrying the number without its first dash and the card's month and year |
| Payment.UnacceptedBeforeExpiry | gcp-microservices-demo/src/paymentservice/paymentservice/rest/rest.js:85 | a valid card of another type throws UnacceptedCreditCard naming the type, before the expiry check |
| Payment.ExpiryBoundary | gcp-microservices-demo/src/paymentservice/paymentservice/rest/rest.js:88-91 | a card is accepted in its expiry month and expired from the next month on |
| Payment.AmountIrrelevant | gcp-microservices-demo/src/paymentservice/paymentservice/rest/rest.js:93-94 | the amount never changes the outcome |
| Payment.RefusalsAreInvalidArgument | gcp-microservices-demo/src/paymentservice/paymentservice/rest/rest.js:42-65 | every refusal carries code 400 |
| Payment.RemoveFirstAt | gcp-microservices-demo/src/paymentservice/paymentservice/rest/rest.js:91 | only the first dash is removed; the rest keeps its order |
| Payment.DashRemovalKeepsEnding | gcp-microservices-demo/src/paymentservice/paymentservice/rest/rest.js:91 | removing a dash before the last five characters leaves the shown last four unchanged |
| Email.FlatRoundTrips | gcp-microservices-demo/src/emailservice/emailservice/rest/rest.py:3-78 | cart item, money and address decode back from their dicts |
| Email.OrderItemToDict | gcp-microservices-demo/src/emailservice/emailservice/rest/rest.py:43-44 | encoding fails exactly when the item or the cost is None |
| Email.OrderResultToDict | gcp-microservices-demo/src/emailservice/emailservice/rest/rest.py:88-98 | the append loop computes OrderResultDict |
| Email.Dict2OrderResult | gcp-microservices-demo/src/emailservice/emailservice/rest/rest.py:100-114 | the append loop computes OrderResultFromDict |
| Email.SendOrderConfirmationRequestToDict | gcp-microservices-demo/src/emailservice/emailservice/rest/rest.py:121-122 | computes RequestDict |
| Email.Dict2SendOrderConfirmationRequest | gcp-microservices-demo/src/emailservice/emailservice/rest/rest.py:124-130 | computes RequestFromDict |
| Email.DummyEmailService.SendOrderConfirmation | gcp-microservices-demo/src/emailservice/emailservice/rest/rest.py:136-138 | returns None and changes nothing |
| Email.DecodeFailureSticks | gcp-microservices-demo/src/emailservice/emailservice/rest/rest.py:110-113 | once a prefix of the items fails to decode, the whole list fails the same way |
| Email.EncodeFailureSticks | gcp-microservices-demo/src/emailservice/emailservice/rest/rest.py:89-91 | once a prefix of the items fails to encode, the whole list fails the same way |
| Email.EncodeItemsSucceeds | gcp-microservices-demo/src/emailservice/emailservice/rest/rest.py:89-91 | item encoding succeeds iff every item has a cart item and cost, giving one dict per item |
| Email.ToDictNeedsNestedObjects | gcp-microservices-demo/src/emailservice/emailservice/rest/rest.py:88-98 | OrderResult.toDict succeeds iff shipping cost, address and every item's nested objects are present |
| Email.OrderItemRoundTrip | gcp-microservices-demo/src/emailservice/emailservice/rest/rest.py:38-52 | a complete order item decodes back from its dict |
| Email.ItemsRoundTrip | gcp-microservices-demo/src/emailservice/emailservice/rest/rest.py:88-114 | encodable items decode back, in order |
| Email.DecodeEncodedFields | gcp-microservices-demo/src/emailservice/emailservice/rest/rest.py:100-114 | the order result's encoded fields decode back to it |
| Email.OrderResultRoundTrip | gcp-microservices-demo/src/emailservice/emailservice/rest/rest.py:80-114 | a fully populated order result survives toDict then dict2OrderResult |
| Email.RequestRoundTrip | gcp-microservices-demo/src/emailservice/emailservice/rest/rest.py:116-130 | a request with a fully populated order survives the round trip |
| Email.MissingKeysDefault | gcp-microservices-demo/src/emailservice/emailservice/rest/rest.py:11-130 | every missing key decodes to None, and missing items to [] |
| Json.Contains | gcp-microservices-demo/src/cartservice/cartservice/rest/rest.py:14 | Python's `in` raises TypeError exactly on None and integers |
| Json.FieldsOf | gcp-microservices-demo/src/cartservice/cartservice/rest/rest.py:12-18 | a dict gives its entries; a string or list gives no entries iff it contains none of the keys; every other case is TypeError |
| Json.Elements | gcp-microservices-demo/src/cartservice/cartservice/rest/rest.py:53-54 | iteration yields a list's elements or a string's one-character strings, and raises TypeError exactly on the other values |
| Text.ShorterNotContained | gcp-microservices-demo/src/cartservice/cartservice/rest/rest.py:14 | a string shorter than the key never contains it, so `in` on it is false |
| Json.ShortStringHasNoFields | gcp-microservices-demo/src/cartservice/cartservice/rest/rest.py:12-18 | a string shorter than every key reads as a dict without entries |
| Text.NatToStringRoundTrip | gcp-microservices-demo/src/frontend/handlers.go:654-657 | the printed digits of n read back as n |
| Text.IntToStringInjective | gcp-microservices-demo/src/frontend/handlers.go:654-657 | different integers print differently |
| Frontend.CartSize | gcp-microservices-demo/src/frontend/handlers.go:645-652 | the loop returns the quantities' total wrapped to int64, which is the total itself when it fits |
| Frontend.WrapAdd | gcp-microservices-demo/src/frontend/handlers.go:645-652 | wrapping after each addition equals wrapping the exact total once |
| Frontend.CartIDs | gcp-microservices-demo/src/frontend/handlers.go:637-643 | one id per cart line, out[i] == c[i].ProductId |
| Frontend.Pad2 | gcp-microservices-demo/src/frontend/handlers.go:656 | `%02d` output has at least two characters; a non-negative value prints as digits reading back as the value, exactly two for values below 100, with a leading zero below 10 |
| Frontend.StringInSlice | gcp-microservices-demo/src/frontend/handlers.go:676-683 | true iff the value occurs in the slice |
| Frontend.PlatformDetails.SetPlatformDetails | gcp-microservices-demo/src/frontend/handlers.go:147-167 | provider and css become the pair PlatformFor gives for the environment |
| Frontend.TotalPaid | gcp-microservices-demo/src/frontend/handlers.go:490-494 | the loop computes AddItemCosts from the shipping cost: each cost × uint32 quantity added in order through Must |
| Frontend.RenderCurrencyLogo | gcp-microservices-demo/src/frontend/handlers.go:659-674 | one symbol; "$" iff the code is none of JPY, EUR, TRY, GBP |
| Frontend.RenderMoney | gcp-microservices-demo/src/frontend/handlers.go:654-657 | starts with the currency logo; with nanos in [0, 10^9) it ends in a dot and two digits denoting nanos / 10^7 |
| Frontend.PlatformFor | gcp-microservices-demo/src/frontend/handlers.go:147-167 | ("local", "local") iff the environment is none of the five known platforms; otherwise the css class is "<env>-platform" |
| Frontend.CurrencyLogos | gcp-microservices-demo/src/frontend/handlers.go:659-674 | USD and CAD give "$", JPY "¥", EUR "€", TRY "₺", GBP "£", any other code "$" |
| Frontend.RenderMoneyShape | gcp-microservices-demo/src/frontend/handlers.go:654-657 | a non-negative amount renders as logo, units, "." and two digits denoting nanos / 10^7 |
| Frontend.NegativeNanosPrintSecondSign | gcp-microservices-demo/src/frontend/handlers.go:654-657 | a negative amount of at least a cent in nanos prints a second minus sign after the dot |
| Frontend.PlatformClasses | gcp-microservices-demo/src/frontend/handlers.go:147-167 | the five known platforms get css "<env>-platform"; anything else is ("local", "local") |
| Frontend.TotalPaidMatchesCharge | gcp-microservices-demo/src/frontend/handlers.go:490-494 | for valid shipping in the user's currency, not sub-unit, the shown total equals the charged total |
| Frontend.TotalPaidDiffersOnSubUnitShipping | gcp-microservices-demo/src/frontend/handlers.go:490-494 | with sub-unit shipping and no items, checkout's total is {1, nanos − 10^9} while the shown total is the shipping cost |

## Left out

- Remote calls: the HTTP clients and their JSON plumbing are not modelled. Each
  collaborator of the checkout is an oracle that answers or fails. Marshalling, write
  errors and the nil-versus-empty distinction in JSON output are not modelled either.
- Each oracle is a function of its request, so within one run two identical requests get
  the same answer. Two HTTP calls for the same product or the same conversion
  (main.go:375-392) could be answered differently.
- The currency service is not modelled, because its conversion uses floating point and a
  rate table that is not available. The checkout's conversion is an oracle.
- The shipping service is not modelled, because its quote and tracking-id helpers are not
  available. The quote and ShipOrder are oracles.
- The Java ad service duplicates the Go ad selection and is not part of this model.
- Randomness, uuids, map and set iteration order, and the clock are inputs of the
  operations that use them.
- `strings.ToLower` (Unicode) and the card validator library are uninterpreted function
  parameters.
- The product catalog's embedded JSON data is not available. Its parse is an input
  (`Option<seq<Product>>`). A failed `json.Unmarshal` may leave a partly filled catalog;
  the model treats a failed parse as leaving the cache as it was.
- The frontend's own money package is not part of this model. The frontend helpers reuse
  the checkout `Money` module, whose `MultiplySlow`, `Sum` and `Must` the frontend calls.
- The frontend's generated getters, which return zero values for nil pointers, are not
  modelled. `TotalPaid` takes the order's fields as given.
- Python values are null, integers, strings, lists and objects. JSON booleans and floats
  are not modelled.
- Iterating a dict yields its keys in document order, which a decoded `Object` does not
  keep, so `for x in dic` over a dict is a `TypeError` in the model (`Json.Elements`). For
  the same reason `list += dict` is a `TypeError` (`Cart.PlusEq`). Strings and lists are
  iterated and tested with `in` as Python does (`Json.FieldsOf`, `Json.Elements`).
- JavaScript type coercions in the payment service (non-numeric expiry fields,
  non-string card numbers) are not modelled. The expiry fields are integers and the card
  number is a string.
- Logging, `print` output and tracing spans are not modelled, except where building a
  log line raises: the cart and recommendation services concatenate the user id into a
  string, which fails when it is not a string.
- Redis is a map from user id to the stored cart document, plus a `reachable` flag
  standing for a connection error. Other Redis failures are not modelled.
- Money.MultipliedValue: assumes that MultiplySlow returns, because a sub-unit amount
  (units 0) can make it panic (`Money.MultipliedPanicsOnSmallFraction`). For whole-unit
  amounts of either sign, `Money.MultipliedReturns` proves that it returns n times the
  amount. Negative sub-unit amounts are left out, because the borrow can wrap their nanos
  (`Money.MultipliedNegativeFractionWraps`).
- Checkout.AddItemCostsValue: proves the exact total only for whole-unit costs of one
  sign, because a sub-unit cost can make MultiplySlow panic or wrap (see
  Money.MultipliedValue above); mixed signs are left out, because every step then
  needs Money.SumExact's range condition on the running total.
- Money.SumExact: requires `SumInRange`, because outside it Go's int64 and int32
  wrap-around changes the value.
- Money.NegatePreservesValid: excludes units equal to the int64 minimum, whose negation
  wraps to an invalid value (`Money.NegateMinUnitsInvalid`).
- Money.NegateValue: excludes the minimum of either width, for the same reason.
