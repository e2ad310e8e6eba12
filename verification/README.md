# Online Boutique (aRPC) — a verified model of its core

This project models the business logic of the Online Boutique microservices
(the aRPC port, written in Go) and proves properties of it:

- **Money library** (`money.dfy`, `money_laws.dfy`, `goints.dfy`): an amount is
  `units` (int64) plus `nanos` (int32) billionths, in one currency. The model
  covers validity, the sign predicates, `Negate`, `Must`, `Sum` and
  `MultiplySlow`. It uses Go's fixed-width integers and wrap-around, and
  Go's truncating `/` and `%`.
- **Checkout saga** (`checkout.dfy`, `checkout_laws.dfy`): `PlaceOrder` reads the
  cart, prices each item, quotes shipping and converts the quote. It then
  totals the order, charges the card and ships. Emptying the cart and
  sending the email are best-effort steps. Every remote service is an oracle
  (a function from request to reply or RPC error). Each operation also
  returns the trace of calls it made.
- **Payment** (`payment.dfy`, `payment_laws.dfy`): the card check in
  `validateAndCharge` and the `Charge` handler. The clock and the
  transaction id are inputs.
- **Frontend helpers** (`frontend.dfy`, `frontend_laws.dfy`):
  - cart size, money rendering and the currency logo;
  - the default currency and the currency whitelist;
  - the same-currency short-cut of conversion;
  - the truncation of recommendations;
  - the total shown after an order.
- **Recommendations** (`recommendation.dfy`): products the request did not
  name, shuffled by an arbitrary permutation, cut to five.
- **Ads** (`ad.dfy`): the ads of the categories a page names, or two random
  ads from the fixed six-entry table.
- **Cart store** (`cart.dfy`): a class whose `carts` map stands for the
  key-value store.

Each Go loop is a Dafny loop with invariants. Where the result is
determined, the method is proved equal to a specification function, and the
properties are proved about that function. The random choices (the shuffle,
the random ads) are stated as relations the result satisfies.
The sum fixed under "Findings" is used everywhere in place of the one the
source writes.

## Model

| member | source | states |
|---|---|---|
| GoInts.Wrap32 | services/checkout.go:385-402 | an int32 result equals the exact result when that is in range, and is congruent to it modulo 2^32 otherwise |
| GoInts.Wrap64 | services/checkout.go:384-391 | an int64 result equals the exact result when that is in range, and is congruent to it modulo 2^64 otherwise |
| GoInts.ToUint32 | services/checkout.go:154 | `uint32(q)` keeps non-negative quantities and adds 2^32 to negative ones |
| GoInts.TruncDiv | services/checkout.go:389 | Go's `/`: the quotient's magnitude is the floor of the magnitudes' quotient, and it has the dividend's sign |
| GoInts.TruncRem | services/checkout.go:390 | Go's `%`: `a == q*b + r`, with `r` strictly within `(-b, b)` and of the dividend's sign |
| Money.SignMatches | services/checkout.go:324-326 | units and nanos agree in sign exactly when their product is not negative |
| Money.ValidNanos | services/checkout.go:328 | the nanos are valid exactly when their magnitude is under one unit |
| Money.IsValid | services/checkout.go:320-322 | on a valid amount the fields never cancel: the magnitude of the total is the units' magnitude times 10^9 plus the nanos' magnitude |
| Money.IsZero | services/checkout.go:331 | both fields zero means a zero total, and a valid amount with a zero total has both fields zero |
| Money.IsPositive | services/checkout.go:335-337 | on a valid amount, positive exactly when the total is above zero |
| Money.IsNegative | services/checkout.go:341-343 | on a valid amount, negative exactly when the total is below zero |
| Money.AreSameCurrency | services/checkout.go:347-349 | amounts with the same non-empty code never fail Sum's currency test, in either order |
| Money.AreEquals | services/checkout.go:353-356 | AreEquals holds exactly when the two amounts are identical |
| Money.Negate | services/checkout.go:359-364 | the code is kept, and a valid amount whose units are not the int64 minimum negates to a valid amount of the opposite total |
| MoneyLaws.ValidIsCanonical | services/checkout.go:320-328 | a value is valid iff its units and nanos are the truncated quotient and remainder of its total in nanos |
| MoneyLaws.ValidUnique | services/checkout.go:320-328 | two valid values with the same total in nanos have the same units and nanos |
| MoneyLaws.UnitsBound | services/checkout.go:320-328 | a valid value's units, times 10^9, never exceed its total in magnitude |
| MoneyLaws.SignsOfValid | services/checkout.go:331-343 | for valid values, IsZero, IsPositive and IsNegative hold iff the total is zero, positive or negative |
| MoneyLaws.SignsSkipValidity | services/checkout.go:335-343 | with units 0, positive (negative) nanos make IsPositive (IsNegative) hold whatever the nanos' range |
| MoneyLaws.PositiveOutOfRange | services/checkout.go:335-337 | units 0 with 1.5·10^9 nanos is IsPositive and not valid |
| MoneyLaws.AreEqualsIsEquality | services/checkout.go:353-357 | AreEquals holds iff the two triples are identical |
| MoneyLaws.NegateValid | services/checkout.go:359-364 | negating a valid value whose units are not the int64 minimum gives a valid value of the opposite total in the same currency |
| MoneyLaws.NegateWrapsAtMinimum | services/checkout.go:359-364 | the valid value with minimum int64 units and nanos -1 negates to an invalid value |
| MoneyLaws.NegateInvolutive | services/checkout.go:359-364 | negating twice gives back the value, wrap-around included |
| Money.Must | services/checkout.go:368-373 | returns the value of a success and panics with the error of a failure |
| Money.Sum | services/checkout.go:378-406 | the corrected sum succeeds iff both operands are valid and their codes are equal, and then carries l's currency |
| MoneyLaws.SumErrors | services/checkout.go:378-383 | an invalid operand gives ErrInvalidValue before currencies are compared; valid operands give ErrMismatchingCurrency iff the codes differ (two empty codes are accepted) |
| MoneyLaws.SumCommutative | services/checkout.go:378-406 | Sum(l, r) == Sum(r, l) on every input, errors included |
| MoneyLaws.SumValue | services/checkout.go:384-405 | for valid same-currency operands whose magnitudes add up to at most 2^62·10^9 nanos, the sum is valid, in l's currency, and its total is the operands' totals added |
| MoneyLaws.SumZeroLeft | services/checkout.go:378-406 | zero in m's currency plus a valid m is m itself |
| MoneyLaws.SumAssociative | services/checkout.go:378-406 | for valid same-currency operands within the bound, (a+b)+c == a+(b+c) |
| MoneyLaws.RepeatSumValue | services/checkout.go:410-421 | k further additions of a valid m within the bound give a valid value of (k+1) times m's total, in m's currency |
| MoneyLaws.RepeatSumInvalid | services/checkout.go:410-421 | one or more additions of an invalid m fail with ErrInvalidValue |
| MoneyLaws.MultipliedLaws | services/checkout.go:410-421 | n of 0 or 1 returns a copy of m (not zero); an invalid m with n >= 2 panics with ErrInvalidValue; a valid m within the bound gives n times its total |
| Money.MultiplySlow | services/checkout.go:410-421 | the loop returns exactly Multiplied(m, n), the n-1 repeated Sums through Must whose laws are above |
| Money.SumAsWritten | services/checkout.go:378-406 | succeeds exactly for valid operands with one code, in that code; a zero units sum with positive nanos takes the borrow branch, giving units 1 and nanos wrapped from the sum minus 10^9 |
| MoneyLaws.SumAsWrittenDiffersOnlyAtZeroUnits | services/checkout.go:384-402 | the sum as written and the corrected sum differ only on valid same-currency operands whose units add to 0 while their nanos do not |
| MoneyLaws.SumAsWrittenBreaksValidity | services/checkout.go:387-398 | as written, 0.30 + 0.30 USD gives units 1 and nanos -400000000, which is invalid; the corrected sum gives 0.60 |
| MoneyLaws.SumAsWrittenWrapsNanos | services/checkout.go:387-402 | as written, -0.60 + -0.60 USD wraps the int32 nanos and changes the total; the corrected sum gives -1.20 |
| MoneyLaws.SumAsWrittenBreaksMultiply | services/checkout.go:387-421 | as written, MultiplySlow of 0.30 USD by 3 fails at the third addition with ErrInvalidValue, a panic under Must; the corrected sum gives 0.90 |
| MoneyLaws.SumAsWrittenFromZeroTotal | services/checkout.go:149-152 | as written, a 0.30 USD shipping cost added to the zero total gives units 1, nanos -700000000, which is invalid, so adding any item line to it fails with ErrInvalidValue; the corrected sum gives 0.30 |
| MoneyLaws.AreSameCurrencyStricterThanSum | services/checkout.go:347-350 | two amounts with the same non-empty code never fail Sum's currency test, and valid ones add; two valid amounts with an empty code add under Sum although AreSameCurrency rejects them |
| Checkout.PrepOrderItems | services/checkout.go:262-280 | the loop that fills one order item per cart item returns exactly PrepOrderItemsSpec's outcome and call trace |
| CheckoutLaws.PrepOrderItemsLaws | services/checkout.go:262-280 | succeeds iff every product lookup and price conversion succeeds; then gives one order item per cart item, in order, whose item is the cart item and whose cost is the converted catalog price; makes only lookup and conversion calls |
| CheckoutLaws.PrepOrderItemsFirstFailure | services/checkout.go:266-274 | the first item whose lookup or conversion fails is the one the error names |
| Checkout.PrepareOrderItemsAndShippingQuoteFromCart | services/checkout.go:194-235 | returns exactly PrepareSpec's outcome and call trace |
| CheckoutLaws.PrepareLaws | services/checkout.go:194-235 | the cart is read first, and only the cart, catalog, currency and shipping-quote services are called; a prepared order holds the cart, its priced items and the converted quote; a cart failure stops at once; no preparation error is a payment, shipment or order-id failure |
| Checkout.ComputeTotal | services/checkout.go:149-156 | the total loop returns exactly OrderTotal: zero in the user's currency, plus shipping, plus MultiplySlow of each line, through Must |
| CheckoutLaws.Copies | services/checkout.go:154 | the number of copies MultiplySlow adds for a quantity is at least 1, and equal to the quantity when that is positive |
| CheckoutLaws.AddItemCostsValue | services/checkout.go:153-156 | with a valid total, valid lines in its currency and magnitudes within the bound, adding the lines returns a valid total of the sum of each line's copies times its cost |
| CheckoutLaws.OrderTotalValue | services/checkout.go:149-156 | the charged total is shipping plus every line's copies times its cost, valid and in the user's currency, when all terms are valid, in that currency and within the bound |
| CheckoutLaws.OrderTotalShippingPanics | services/checkout.go:149-152 | an invalid shipping cost panics with ErrInvalidValue, and one in another currency panics with ErrMismatchingCurrency |
| CheckoutLaws.AddItemCostsMismatchPanics | services/checkout.go:153-156 | an item line in another currency than the running total panics with ErrMismatchingCurrency |
| CheckoutLaws.TwentyEightNinetyNine | services/checkout.go:149-156 | two of a 10.00 USD product with 8.99 USD shipping total exactly 28.99 USD |
| Checkout.Settle | services/checkout.go:158-185 | returns exactly SettleSpec's outcome and calls: charge, ship, then empty the cart and send the email |
| Checkout.PlaceOrder | services/checkout.go:136-186 | returns exactly PlaceOrderSpec's outcome and the calls it made, in order |
| CheckoutLaws.ChargeOnlyAfterPreparation | services/checkout.go:144-160 | the card is charged at most once, only after a complete preparation, right after the preparation calls, with the request's card and the computed total |
| CheckoutLaws.ShipOnlyAfterSuccessfulCharge | services/checkout.go:158-167 | ShipOrder is called only immediately after a charge that succeeded, with the request's address and the cart's items |
| CheckoutLaws.DeclinedChargeOrShipmentIsLast | services/checkout.go:158-167 | a charge whose reply is an error is the last call and the outcome is Internal with a payment failure; a ShipOrder whose reply is an error is the last call and the outcome is Unavailable with a shipment failure |
| CheckoutLaws.FailuresStopTheSaga | services/checkout.go:158-167 | a failed order neither empties the cart nor sends the email; a declined charge always ends the order as Internal with the charge as the last call, so nothing is shipped; a failed ShipOrder always ends it as Unavailable with the shipment as the last call; Unavailable is returned exactly for a shipment failure |
| CheckoutLaws.PlacedOrderContents | services/checkout.go:169-185 | a placed order carries the generated id, the tracking id, the localized shipping cost, the request's address and the priced items; its calls are the preparation calls, then a charge of the order total to the request's card that succeeded, then ShipOrder with the cart's items, then EmptyCart and SendOrderConfirmation |
| CheckoutLaws.BestEffortStepsIgnored | services/checkout.go:169-185 | the replies of EmptyCart and SendOrderConfirmation change neither the outcome nor the calls |
| CheckoutLaws.NoOrderIdNoCalls | services/checkout.go:139-142 | a failed order-id generation returns Internal before any remote call |
| Payment.ErrorText | services/payment.go:19-35 | each of the three card errors has a non-empty message |
| Payment.ErrorTextsDistinct | services/payment.go:19-35 | the three messages are pairwise different |
| Payment.StripHyphens | services/payment.go:39 | removes every '-' and keeps every other character with its count, so a number without '-' is unchanged |
| Payment.StripHyphensConcat | services/payment.go:39 | stripping distributes over concatenation, so the order of the kept characters is preserved |
| Payment.StripHyphensIdempotent | services/payment.go:39 | stripping twice is stripping once |
| PaymentLaws.OnlyHyphensAreStripped | services/payment.go:39 | "41-1 1" strips to "411 1": the space stays |
| PaymentLaws.LeadingSpaceIsUnaccepted | services/payment.go:39-49 | a number with a leading space is refused as not accepted, whatever the CVV and expiry |
| Payment.Utf8Width | services/payment.go:42 | one character takes 1 to 4 bytes, and 1 exactly when it is ASCII |
| Payment.Utf8Len | services/payment.go:42 | Go's `len` of a string lies between its character count and four times that |
| PaymentLaws.Utf8LenAscii | services/payment.go:42 | the byte length equals the character count iff every character is ASCII |
| PaymentLaws.WideCharacterCountsTwice | services/payment.go:42 | the three-character number "4ü1" is 4 bytes long, so it passes the length test and, with a good CVV and expiry, is charged |
| Payment.Issuer | services/payment.go:44-47 | a leading '4' is Visa and a leading '5' is MasterCard, and nothing else is either |
| Payment.DaysIn | services/payment.go:56 | a Gregorian month has between 28 and 31 days |
| Payment.DayZero | services/payment.go:56 | day 0 of a month, after Go normalises the month into the year, is midnight on the last day of the month before |
| Payment.DigitCount | services/payment.go:52 | a number has at least 3 digits iff it is at least 100, and at most 4 iff it is under 10000 |
| Payment.CvvInRange | services/payment.go:52 | a CVV is accepted exactly when it is written with three or four digits |
| Payment.Expired | services/payment.go:56 | a card is never expired before the month ahead of its expiry month, and always expired from the expiry month on |
| Payment.ValidateAndCharge | services/payment.go:37-72 | a success returns the supplied transaction id, which is non-empty |
| PaymentLaws.ValidationOrder | services/payment.go:39-58 | a stripped number under 4 bytes of UTF-8 is invalid before anything else; then any leading character but '4' or '5' is not accepted; then a CVV outside 100..9999 is invalid; then the card is expired iff Expired; a success iff all four checks pass |
| PaymentLaws.AmountIgnored | services/payment.go:37-72 | the outcome does not depend on the amount |
| PaymentLaws.ExpiredIff | services/payment.go:56-58 | with M the expiry month and N the current month, the card is expired iff M <= N, or M is next month and it is past midnight on the last day of this month |
| PaymentLaws.ExpiringThisMonthIsRefused | services/payment.go:56-58 | a card whose expiry month is the current month is never accepted |
| PaymentLaws.RefusedOnNewYearsEve | services/payment.go:56-58 | a card dated January 2025 is still valid at midnight on 31 December 2024 and expired one nanosecond later |
| Payment.Charge | services/payment.go:102-120 | it panics exactly when the raw number has fewer than 4 bytes of UTF-8 |
| PaymentLaws.ChargeForwardsValidation | services/payment.go:109-119 | otherwise it returns validation's error unchanged, or the transaction id on success |
| PaymentLaws.ShortAfterStripping | services/payment.go:105-109 | "4-1-1" reaches the length check and is declined as invalid, while "411" panics before it |
| Frontend.CartSize | services/frontend.go:599-605 | the accumulator loop returns the sum of the quantities |
| FrontendLaws.SumQuantitiesConcat | services/frontend.go:599-605 | the size of two carts joined is the sum of their sizes |
| FrontendLaws.CartSizeOfAppend | services/frontend.go:599-605 | appending an item adds its quantity to the size |
| Frontend.RenderCurrencyLogo | services/frontend.go:561-576 | a code in the logo table maps to its symbol, any other code to "$" |
| FrontendLaws.LogoTable | services/frontend.go:51-58 | the logo table covers exactly the whitelisted codes; "$" is shown iff the code is USD, CAD or not whitelisted; each of ¥ € ₺ £ belongs to exactly one code |
| Frontend.Pad2 | services/frontend.go:558 | `%02d` yields two digits for 0..99 and a leading '-' for negatives |
| Frontend.Cents | services/frontend.go:558 | the shown cents times 10^7 is within 10^7 of the nanos, has their sign, and lies in -99..99 for valid nanos |
| Frontend.RenderMoney | services/frontend.go:556-559 | the rendering has at least five characters |
| FrontendLaws.DecimalRoundTrip | services/frontend.go:558 | reading back the digits `%d` prints for a natural number gives that number |
| FrontendLaws.Pad2RoundTrip | services/frontend.go:558 | the two cent digits read back as the cents |
| FrontendLaws.RenderMoneyShape | services/frontend.go:556-559 | a non-negative valid amount renders as logo, units, ".", and exactly two digits of nanos / 10^7 |
| FrontendLaws.RenderMoneyDistinguishes | services/frontend.go:556-559 | two non-negative valid amounts in one currency render the same iff they have the same units and the same truncated cents |
| FrontendLaws.NegativeRendering | services/frontend.go:556-559 | -1.50 USD renders as "$-1.-50" |
| Frontend.CurrentCurrency | services/frontend.go:522-528 | the cookie's value when present, otherwise "CNY", which is not whitelisted |
| Frontend.Whitelisted | services/frontend.go:402-408 | never longer than the input, and holds a code exactly when the input has it and it is whitelisted |
| Frontend.GetCurrencies | services/frontend.go:392-411 | passes an RPC error through; otherwise the filter loop returns exactly Whitelisted(codes) |
| FrontendLaws.WhitelistedCounts | services/frontend.go:402-408 | each whitelisted code is kept as often as it occurs and every other code is dropped |
| FrontendLaws.WhitelistedConcat | services/frontend.go:402-408 | the filter distributes over concatenation, so the original order is kept |
| FrontendLaws.DefaultCurrencyNotOffered | services/frontend.go:51-58 | the default currency never appears in the currency list |
| Frontend.ConvertCurrency | services/frontend.go:460-479 | the service is called iff the codes differ; without a call the input is returned unchanged, with one its reply is returned |
| Frontend.GetRecommendations | services/frontend.go:481-500 | the lookup loop and truncation return exactly Recommendations(ids, getProduct) |
| FrontendLaws.LookUpAllLaws | services/frontend.go:488-495 | the lookups succeed iff every id's lookup succeeds, giving one product per id, in order |
| FrontendLaws.LookUpAllFirstFailure | services/frontend.go:488-493 | the first failing id is the one reported, even past the fourth |
| FrontendLaws.RecommendationsLaws | services/frontend.go:481-500 | a result exists iff the service answered and every lookup succeeded; it then holds min(4, n) products, those of the first ids, in order |
| Frontend.DisplayedTotal | services/frontend.go:318-322 | the loop returns exactly shipping plus the MultiplySlow lines through Must, the same fold as checkout |
| FrontendLaws.DisplayedTotalIsCharged | services/frontend.go:318-322 | for a placed order, the shown total equals the amount the card was charged |
| Recommendation.CollectIds | services/recommendation.go:65-69 | the loop builds the set of the requested ids |
| Recommendation.Filter | services/recommendation.go:71-76 | the loop returns exactly the catalog ids not in the set, in catalog order |
| Recommendation.Shuffle | services/recommendation.go:79 | the array afterwards is a permutation of the array before |
| Recommendation.ListRecommendations | services/recommendation.go:53-90 | a catalog failure is returned as the error; otherwise min(5, n) of the n surviving ids, all of them (as a multiset) when n <= 5; no returned id was in the request and each is a catalog product's id |
| Recommendation.UnrequestedMembers | services/recommendation.go:65-76 | an id survives the filter iff the catalog has it and the request does not name it |
| Recommendation.RecommendedIds | services/recommendation.go:65-85 | ids drawn from the filtered list are not requested ones and are catalog ids |
| Recommendation.UnrequestedLength | services/recommendation.go:71-76 | the filter yields at most as many ids as the catalog has products, all of them when nothing is excluded |
| Ads.CreateAdsMap | services/ad.go:93-120 | the table has exactly the six categories hair, clothing, accessories, footwear, decor and kitchen |
| Ads.AdsByCategory | services/ad.go:74-79 | a known category gives its single ad, an unknown one nothing |
| Ads.AdService.constructor | services/ad.go:22-27 | the service starts with the fixed table |
| Ads.AdService.GetRandomAds | services/ad.go:81-91 | exactly two ads, each an ad of the table, repeats allowed |
| Ads.AdService.GetAds | services/ad.go:51-72 | the matched ads, in keyword order, when there are any; otherwise exactly two ads of the table; the table is never changed |
| Ads.MatchedEmpty | services/ad.go:57-66 | nothing matches iff no keyword is a category |
| Ads.MatchedConcat | services/ad.go:57-60 | matching distributes over concatenation of the keywords |
| Ads.MatchedFromTable | services/ad.go:57-60 | every matched ad is in the table, and at most one ad is matched per keyword |
| Ads.RepeatedKeywordRepeatsAd | services/ad.go:57-60 | a repeated keyword repeats its ad |
| Ads.UnknownKeywordIsSkipped | services/ad.go:57-60 | "hair", "toys" give the hair-dryer ad alone |
| Cart.WithItem | services/cart.go:63-91 | after AddItem the user has an entry whose items are the earlier items followed by the new one; every other user's items are unchanged |
| Cart.Without | services/cart.go:127-137 | after EmptyCart the user has no entry and reads as an empty cart; every other user's items are unchanged |
| Cart.CartService.constructor | services/cart.go:19-23 | the service starts over whatever carts the store already holds |
| Cart.CartService.AddItem | services/cart.go:56-95 | a fetch failure, a decode failure of an existing entry, or a write failure returns the error and writes nothing; otherwise the user's list with the item appended is stored |
| Cart.CartService.GetCart | services/cart.go:98-124 | a fetch or decode failure is returned; otherwise the stored list tagged with the requested id, empty for a user without an entry |
| Cart.CartService.EmptyCart | services/cart.go:127-137 | a delete failure is returned; otherwise the user's entry is removed and nothing else changes |
| Cart.AddAppends | services/cart.go:63-79 | an absent cart becomes exactly [item], a repeated item gets a second entry, and the cart size grows by its quantity |
| Cart.EmptiedReadsEmpty | services/cart.go:102-107 | after EmptyCart the user's cart reads as empty |
| Cart.OtherUsersUntouched | services/cart.go:63-130 | AddItem and EmptyCart leave every other user's entry as it was |

## Left out

- The currency service's conversion (floating point), the shipping service's quote and tracking ids (floating point, `math/rand`), and the email templates: the model treats them as oracles or does not model them. services/currency.go, services/shipping.go and services/email.go are not part of this model.
- Tracing, logging, `cmd/main.go`, `services/util.go`, server start-up and the HTTP handlers' request and response plumbing.
- Redis and JSON: the cart store is a map. The outcome of each store round trip is an input (`fault`). `json.Marshal` of a cart cannot fail, so that branch is not modelled.
- Randomness: `uuid` and `rand` become parameters (the order id, the transaction id) or nondeterministic choices (`:|`) in Shuffle and GetRandomAds. `time.Now` is a parameter.
- Payment.Expired: compares wall-clock civil dates in one zone. Daylight-saving gaps and overlaps of `time.Local` are not modelled.
- Checkout oracles are functions, so two lookups of the same product in one order get the same reply. Context deadlines and cancellation are not modelled.
- MoneyLaws.SumValue, MoneyLaws.SumAssociative, MoneyLaws.RepeatSumValue, MoneyLaws.MultipliedLaws, CheckoutLaws.AddItemCostsValue, CheckoutLaws.OrderTotalValue: stated only for totals whose magnitudes add up to at most 2^62·10^9 nanos, so that no int64 units sum can wrap; the sum itself does model the wrap.
- MoneyLaws.NegateValid: stated for units other than the int64 minimum, where Go's negation wraps (NegateWrapsAtMinimum shows the case).
- Frontend.CartSize: the Go `int` accumulator is taken as unbounded; it could only wrap with more than 2^32 items of maximal quantity.
- Frontend.RenderMoney: its contract states only a length; its meaning is stated by RenderMoneyShape and RenderMoneyDistinguishes for non-negative valid amounts, and by NegativeRendering for one negative amount.
- Payment.ValidateAndCharge: the card company's name and the last four digits only go to the log; the model keeps the issuer test and drops the log line.
- Money.MultiplySlow, MoneyLaws.MultipliedLaws, Checkout.ComputeTotal, Checkout.PlaceOrder, CheckoutLaws.ChargeOnlyAfterPreparation, CheckoutLaws.PlacedOrderContents, CheckoutLaws.AddItemCostsValue, CheckoutLaws.OrderTotalValue, Frontend.DisplayedTotal, FrontendLaws.DisplayedTotalIsCharged: these build on the corrected Money.Sum, so they do not hold for the sum as written. As written, MultiplySlow of a 0.30 line by 3 or more panics (SumAsWrittenBreaksMultiply), and a positive shipping cost under one unit makes the total invalid (SumAsWrittenFromZeroTotal).
- Cart.CartService.AddItem: each call runs alone. The source reads the list, appends and writes it back as three separate store round trips (services/cart.go:63-88), so two concurrent adds for one user can lose an item; the model does not capture that interleaving.
- Frontend.GetRecommendations: the error text with the product id is kept as `ProductInfoFailure(id)`; the wrapped RPC error itself is dropped.

## Findings

| source | as written | input that shows it | evidently intended | confidence | as-written member | corrected member |
|---|---|---|---|---|---|---|
| services/checkout.go:387 | the same-sign test sends a units sum of 0 with non-zero nanos to the borrow branch | 0.30 USD + 0.30 USD gives units 1, nanos -400000000: an invalid value | a zero units sum takes the carry branch, giving 0.60 USD | high (not executed) | MoneyLaws.SumAsWrittenBreaksValidity | Money.Sum |
| services/checkout.go:387-402 | the same borrow adds -10^9 to an int32 nanos sum of -1.2·10^9 | -0.60 USD + -0.60 USD gives units 1, nanos 2094967296 after int32 wrap-around | -1.20 USD: units -1, nanos -200000000 | high (not executed) | MoneyLaws.SumAsWrittenWrapsNanos | Money.Sum |
| services/checkout.go:149-152 | the zero total plus a shipping cost with units 0 and positive nanos goes through the borrow branch of the sum | 0 USD + 0.30 USD gives units 1, nanos -700000000, and the next item line panics with ErrInvalidValue | the total 0.30 USD, to which the item lines are added | high (not executed) | MoneyLaws.SumAsWrittenFromZeroTotal | Money.Sum |
