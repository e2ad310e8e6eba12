/** The guarantees of the checkout saga, proved about the specification functions of Checkout. */
module CheckoutLaws {
  import opened GoInts
  import opened Wrappers
  import opened Money
  import opened MoneyLaws
  import opened Messages
  import opened Checkout

  // ------------------------------------------------------------ item pricing

  /** The catalog lookup and the conversion of this item's price both succeed. */
  predicate Priced(clients: Clients, item: CartItem, userCurrency: string)
  {
    && clients.getProduct(item.productId).Ok?
    && clients.convert(clients.getProduct(item.productId).value.priceUsd, userCurrency).Ok?
  }

  function PriceOf(clients: Clients, item: CartItem, userCurrency: string): Money
    requires Priced(clients, item, userCurrency)
  {
    clients.convert(clients.getProduct(item.productId).value.priceUsd, userCurrency).value
  }

  function FailureOf(clients: Clients, item: CartItem): Failure
  {
    if clients.getProduct(item.productId).Err? then ProductFailure(item.productId)
    else PriceConversionFailure(item.productId)
  }

  predicate IsPreparationCall(c: Call)
  {
    c.GetCart? || c.GetProduct? || c.Convert? || c.GetQuote?
  }

  /** One order item per cart item, in cart order, costed at the converted catalog price. */
  lemma {:induction false} PrepOrderItemsLaws(clients: Clients, items: seq<CartItem>, userCurrency: string)
    ensures var (res, calls) := PrepOrderItemsSpec(clients, items, userCurrency);
      && (res.Ok? <==> forall i :: 0 <= i < |items| ==> Priced(clients, items[i], userCurrency))
      && (res.Ok? ==> |res.value| == |items| && |calls| == 2 * |items|)
      && (res.Ok? ==> forall i :: 0 <= i < |items| ==>
            res.value[i] == OrderItem(items[i], PriceOf(clients, items[i], userCurrency)))
      && (res.Err? ==> res.error.ProductFailure? || res.error.PriceConversionFailure?)
      && (forall k :: 0 <= k < |calls| ==> calls[k].GetProduct? || calls[k].Convert?)
    decreases |items|
  {
    if items != [] {
      var (res, calls) := PrepOrderItemsSpec(clients, items, userCurrency);
      PrepOrderItemsLaws(clients, items[1..], userCurrency);
      var (rest, restCalls) := PrepOrderItemsSpec(clients, items[1..], userCurrency);
      if Priced(clients, items[0], userCurrency) {
        var head := [GetProduct(items[0].productId),
                     Convert(clients.getProduct(items[0].productId).value.priceUsd, userCurrency)];
        assert calls == head + restCalls;
        assert forall i :: 1 <= i < |items| ==> items[i] == items[1..][i - 1];
        if res.Ok? {
          assert res.value == [OrderItem(items[0], PriceOf(clients, items[0], userCurrency))] + rest.value;
        }
        if !res.Ok? {
          var i :| 0 <= i < |items[1..]| && !Priced(clients, items[1..][i], userCurrency);
          assert items[1..][i] == items[i + 1];
        }
      }
    }
  }

  /** Pricing stops at the first item that fails, and reports that item. */
  lemma {:induction false} PrepOrderItemsFirstFailure(
    clients: Clients, items: seq<CartItem>, userCurrency: string, j: nat)
    requires j < |items| && !Priced(clients, items[j], userCurrency)
    requires forall i :: 0 <= i < j ==> Priced(clients, items[i], userCurrency)
    ensures PrepOrderItemsSpec(clients, items, userCurrency).0 == Err(FailureOf(clients, items[j]))
    decreases j
  {
    if j > 0 {
      assert Priced(clients, items[0], userCurrency);
      assert items[1..][j - 1] == items[j];
      PrepOrderItemsFirstFailure(clients, items[1..], userCurrency, j - 1);
    }
  }

  // ------------------------------------------------------------- preparation

  /** Preparation reads the cart first, calls nothing but the cart, catalog, currency and quote services, and yields the cart, its priced items and the converted quote. */
  lemma PrepareLaws(clients: Clients, userId: string, userCurrency: string, address: Address)
    ensures var (res, calls) := PrepareSpec(clients, userId, userCurrency, address);
      && |calls| >= 1 && calls[0] == GetCart(userId)
      && (forall k :: 0 <= k < |calls| ==> IsPreparationCall(calls[k]))
      && (res.Ok? ==>
            && clients.getCart(userId) == Ok(res.value.cartItems)
            && (forall i :: 0 <= i < |res.value.cartItems| ==> Priced(clients, res.value.cartItems[i], userCurrency))
            && |res.value.orderItems| == |res.value.cartItems|
            && (forall i :: 0 <= i < |res.value.cartItems| ==>
                  res.value.orderItems[i] == OrderItem(res.value.cartItems[i],
                                                       PriceOf(clients, res.value.cartItems[i], userCurrency)))
            && clients.getQuote(address, res.value.cartItems).Ok?
            && clients.convert(clients.getQuote(address, res.value.cartItems).value, userCurrency)
                 == Ok(res.value.shippingCostLocalized))
      && (res.Err? ==> !res.error.OrderIdFailure? && !res.error.PaymentFailure? && !res.error.ShipmentFailure?)
      && (clients.getCart(userId).Err? ==> res == Err(CartFailure) && calls == [GetCart(userId)])
  {
    var (res, calls) := PrepareSpec(clients, userId, userCurrency, address);
    if clients.getCart(userId).Ok? {
      var cart := clients.getCart(userId).value;
      PrepOrderItemsLaws(clients, cart, userCurrency);
      var (priced, pricing) := PrepOrderItemsSpec(clients, cart, userCurrency);
      assert calls[..1 + |pricing|] == [GetCart(userId)] + pricing;
      forall k | 0 <= k < |calls| ensures IsPreparationCall(calls[k]) {
        if 1 <= k < 1 + |pricing| {
          assert calls[k] == pricing[k - 1];
        }
      }
    }
  }

  // ------------------------------------------------------------------- total

  /** How many copies of a price MultiplySlow adds for a cart quantity (a quantity of 0 still counts once). */
  function Copies(quantity: Int32): (n: nat)
    ensures n >= 1
    ensures quantity >= 1 ==> n == quantity
  {
    var n := ToUint32(quantity);
    if n == 0 then 1 else n
  }

  function LinesAmount(items: seq<OrderItem>): int
  {
    if items == [] then 0
    else Copies(items[0].item.quantity) * Value(items[0].cost) + LinesAmount(items[1..])
  }

  function LinesMagnitude(items: seq<OrderItem>): int
  {
    if items == [] then 0
    else Copies(items[0].item.quantity) * Abs(Value(items[0].cost)) + LinesMagnitude(items[1..])
  }

  predicate CostsIn(items: seq<OrderItem>, currencyCode: string)
  {
    forall i :: 0 <= i < |items| ==> IsValid(items[i].cost) && items[i].cost.currencyCode == currencyCode
  }

  lemma {:induction false} LinesMagnitudeBound(items: seq<OrderItem>)
    ensures LinesMagnitude(items) >= Abs(LinesAmount(items))
  {
    if items != [] {
      LinesMagnitudeBound(items[1..]);
      ScaleFacts(Copies(items[0].item.quantity), Value(items[0].cost));
    }
  }

  /** Adding the item lines to a valid total adds each line's copies of its cost, exactly. */
  lemma {:induction false} AddItemCostsValue(total: Money, items: seq<OrderItem>)
    requires IsValid(total) && CostsIn(items, total.currencyCode)
    requires Abs(Value(total)) + LinesMagnitude(items) <= ValueLimit
    ensures AddItemCosts(total, items).Returned?
    ensures IsValid(AddItemCosts(total, items).value)
    ensures Value(AddItemCosts(total, items).value) == Value(total) + LinesAmount(items)
    ensures AddItemCosts(total, items).value.currencyCode == total.currencyCode
    decreases |items|
  {
    if items != [] {
      var it := items[0];
      var n := ToUint32(it.item.quantity);
      var v := Value(it.cost);
      LinesMagnitudeBound(items[1..]);
      ScaleFacts(Copies(it.item.quantity), v);
      assert IsValid(it.cost) && it.cost.currencyCode == total.currencyCode;
      MultipliedLaws(it.cost, n);
      var line := Multiplied(it.cost, n).value;
      assert Value(line) == Copies(it.item.quantity) * v;
      SumValue(total, line);
      var next := Sum(total, line).value;
      assert CostsIn(items[1..], total.currencyCode) by {
        forall i | 0 <= i < |items[1..]|
          ensures IsValid(items[1..][i].cost) && items[1..][i].cost.currencyCode == total.currencyCode
        {
          assert items[1..][i] == items[i + 1];
        }
      }
      AddItemCostsValue(next, items[1..]);
    }
  }

  /** The charged total: shipping plus every line, in the user's currency, when all terms are valid and in that currency. */
  lemma OrderTotalValue(userCurrency: string, shipping: Money, items: seq<OrderItem>)
    requires IsValid(shipping) && shipping.currencyCode == userCurrency
    requires CostsIn(items, userCurrency)
    requires Abs(Value(shipping)) + LinesMagnitude(items) <= ValueLimit
    ensures OrderTotal(userCurrency, shipping, items) == AddItemCosts(shipping, items)
    ensures OrderTotal(userCurrency, shipping, items).Returned?
    ensures IsValid(OrderTotal(userCurrency, shipping, items).value)
    ensures Value(OrderTotal(userCurrency, shipping, items).value) == Value(shipping) + LinesAmount(items)
    ensures OrderTotal(userCurrency, shipping, items).value.currencyCode == userCurrency
  {
    SumZeroLeft(shipping);
    AddItemCostsValue(shipping, items);
  }

  /** A shipping cost that is invalid or in another currency makes the total panic. */
  lemma OrderTotalShippingPanics(userCurrency: string, shipping: Money, items: seq<OrderItem>)
    ensures !IsValid(shipping) ==> OrderTotal(userCurrency, shipping, items) == Panicked(InvalidValue)
    ensures IsValid(shipping) && shipping.currencyCode != userCurrency ==>
      OrderTotal(userCurrency, shipping, items) == Panicked(MismatchingCurrency)
  {
  }

  /** An item line in another currency than the running total makes the total panic. */
  lemma AddItemCostsMismatchPanics(total: Money, items: seq<OrderItem>)
    requires IsValid(total) && items != []
    requires IsValid(items[0].cost) && items[0].cost.currencyCode != total.currencyCode
    requires Copies(items[0].item.quantity) * Abs(Value(items[0].cost)) <= ValueLimit
    ensures AddItemCosts(total, items) == Panicked(MismatchingCurrency)
  {
    MultipliedLaws(items[0].cost, ToUint32(items[0].item.quantity));
  }

  /** Two of a 10.00 USD product and an 8.99 USD shipping quote make exactly 28.99 USD. */
  lemma TwentyEightNinetyNine()
    ensures OrderTotal("USD", Money(8, 990_000_000, "USD"),
                       [OrderItem(CartItem("A", 2), Money(10, 0, "USD"))])
            == Returned(Money(28, 990_000_000, "USD"))
  {
    var items := [OrderItem(CartItem("A", 2), Money(10, 0, "USD"))];
    var shipping := Money(8, 990_000_000, "USD");
    assert items[1..] == [];
    OrderTotalValue("USD", shipping, items);
    ValidUnique(OrderTotal("USD", shipping, items).value, Money(28, 990_000_000, "USD"));
  }

  // -------------------------------------------------------------------- saga

  /** The card is charged once at most, right after a complete preparation, with the computed total. */
  lemma ChargeOnlyAfterPreparation(clients: Clients, req: PlaceOrderRequest, orderId: Option<string>)
    ensures var (outcome, calls) := PlaceOrderSpec(clients, req, orderId);
            var (prep, preparing) := PrepareSpec(clients, req.userId, req.userCurrency, req.address);
      forall k :: 0 <= k < |calls| && calls[k].Charge? ==>
        && orderId.Some? && prep.Ok?
        && k == |preparing| && calls[..k] == preparing
        && calls[k].card == req.creditCard
        && OrderTotal(req.userCurrency, prep.value.shippingCostLocalized, prep.value.orderItems)
             == Returned(calls[k].amount)
  {
    var (outcome, calls) := PlaceOrderSpec(clients, req, orderId);
    var (prep, preparing) := PrepareSpec(clients, req.userId, req.userCurrency, req.address);
    PrepareLaws(clients, req.userId, req.userCurrency, req.address);
    forall k | 0 <= k < |calls| && calls[k].Charge?
      ensures orderId.Some? && prep.Ok? && k == |preparing| && calls[..k] == preparing
      ensures calls[k].card == req.creditCard
      ensures OrderTotal(req.userCurrency, prep.value.shippingCostLocalized, prep.value.orderItems)
                == Returned(calls[k].amount)
    {
      assert orderId.Some?;
    }
  }

  /** An order is shipped only right after a charge that succeeded, and only with the cart's items. */
  lemma ShipOnlyAfterSuccessfulCharge(clients: Clients, req: PlaceOrderRequest, orderId: Option<string>)
    ensures var (outcome, calls) := PlaceOrderSpec(clients, req, orderId);
            var (prep, preparing) := PrepareSpec(clients, req.userId, req.userCurrency, req.address);
      forall k :: 0 <= k < |calls| && calls[k].ShipOrder? ==>
        && k >= 1 && calls[k - 1].Charge?
        && clients.charge(calls[k - 1].amount, calls[k - 1].card).Ok?
        && prep.Ok? && calls[k] == ShipOrder(req.address, prep.value.cartItems)
  {
    var (outcome, calls) := PlaceOrderSpec(clients, req, orderId);
    var (prep, preparing) := PrepareSpec(clients, req.userId, req.userCurrency, req.address);
    PrepareLaws(clients, req.userId, req.userCurrency, req.address);
    forall k | 0 <= k < |calls| && calls[k].ShipOrder?
      ensures k >= 1 && calls[k - 1].Charge?
      ensures clients.charge(calls[k - 1].amount, calls[k - 1].card).Ok?
      ensures prep.Ok? && calls[k] == ShipOrder(req.address, prep.value.cartItems)
    {
      assert orderId.Some?;
    }
  }

  /** A declined charge is the last call and gives Internal; a failed shipment is the last call and gives Unavailable. */
  ghost predicate FailedStepIsLast(clients: Clients, outcome: PlaceOrderOutcome, calls: seq<Call>)
  {
    && (forall k :: (0 <= k < |calls| && calls[k].Charge? &&
                     clients.charge(calls[k].amount, calls[k].card).Err?) ==>
          outcome == Failed(Internal, PaymentFailure) && k == |calls| - 1)
    && (forall k :: (0 <= k < |calls| && calls[k].ShipOrder? &&
                     clients.shipOrder(calls[k].address, calls[k].items).Err?) ==>
          outcome == Failed(Unavailable, ShipmentFailure) && k == |calls| - 1)
  }

  lemma DeclinedChargeOrShipmentIsLast(clients: Clients, req: PlaceOrderRequest, orderId: Option<string>)
    ensures var (outcome, calls) := PlaceOrderSpec(clients, req, orderId);
      FailedStepIsLast(clients, outcome, calls)
  {
    var (outcome, calls) := PlaceOrderSpec(clients, req, orderId);
    ChargeOnlyAfterPreparation(clients, req, orderId);
    ShipOnlyAfterSuccessfulCharge(clients, req, orderId);
    if orderId.Some? {
      PrepareLaws(clients, req.userId, req.userCurrency, req.address);
    }
  }

  /**
   * Failures: which status code each failure carries, that a failed order neither empties the cart
   * nor sends an email, that a declined charge ends the order with Internal, and that a failed
   * shipment ends it with Unavailable.
   */
  lemma FailuresStopTheSaga(clients: Clients, req: PlaceOrderRequest, orderId: Option<string>)
    ensures var (outcome, calls) := PlaceOrderSpec(clients, req, orderId);
      && (outcome.Failed? ==> (outcome.code == Unavailable <==> outcome.failure == ShipmentFailure))
      && (!outcome.Placed? ==>
            forall k :: 0 <= k < |calls| ==> !calls[k].EmptyCart? && !calls[k].SendOrderConfirmation?)
      && (outcome == Failed(Internal, PaymentFailure) ==>
            |calls| >= 1 && calls[|calls| - 1].Charge? &&
            clients.charge(calls[|calls| - 1].amount, calls[|calls| - 1].card).Err? &&
            forall k :: 0 <= k < |calls| ==> !calls[k].ShipOrder?)
      && (outcome == Failed(Unavailable, ShipmentFailure) ==>
            |calls| >= 2 && calls[|calls| - 1].ShipOrder? && calls[|calls| - 2].Charge?)
      && FailedStepIsLast(clients, outcome, calls)
  {
    var (outcome, calls) := PlaceOrderSpec(clients, req, orderId);
    DeclinedChargeOrShipmentIsLast(clients, req, orderId);
    if orderId.Some? {
      PrepareLaws(clients, req.userId, req.userCurrency, req.address);
      var (prep, preparing) := PrepareSpec(clients, req.userId, req.userCurrency, req.address);
      if !outcome.Placed? {
        forall k | 0 <= k < |calls| ensures !calls[k].EmptyCart? && !calls[k].SendOrderConfirmation? {
          if k < |preparing| {
            assert calls[k] == preparing[k];
          }
        }
      }
      if outcome == Failed(Internal, PaymentFailure) {
        forall k | 0 <= k < |calls| ensures !calls[k].ShipOrder? {
          if k < |preparing| {
            assert calls[k] == preparing[k];
          }
        }
      }
    }
  }

  /**
   * A placed order carries the pre-generated id, the tracking id, the localized shipping cost, the
   * request's address and the priced items; after the preparation calls it was charged the total
   * with the request's card, the charge succeeded, the cart's items were shipped, and the two
   * best-effort calls close the trace.
   */
  lemma PlacedOrderContents(clients: Clients, req: PlaceOrderRequest, orderId: Option<string>)
    ensures var (outcome, calls) := PlaceOrderSpec(clients, req, orderId);
            var (prep, preparing) := PrepareSpec(clients, req.userId, req.userCurrency, req.address);
      outcome.Placed? ==>
        && orderId.Some? && prep.Ok?
        && outcome.order.orderId == orderId.value
        && clients.shipOrder(req.address, prep.value.cartItems) == Ok(outcome.order.shippingTrackingId)
        && outcome.order.shippingCost == prep.value.shippingCostLocalized
        && outcome.order.shippingAddress == req.address
        && outcome.order.items == prep.value.orderItems
        && |calls| == |preparing| + 4
        && calls[..|preparing|] == preparing
        && OrderTotal(req.userCurrency, prep.value.shippingCostLocalized, prep.value.orderItems).Returned?
        && calls[|preparing|] == Charge(
             OrderTotal(req.userCurrency, prep.value.shippingCostLocalized, prep.value.orderItems).value,
             req.creditCard)
        && clients.charge(calls[|preparing|].amount, calls[|preparing|].card).Ok?
        && calls[|preparing| + 1] == ShipOrder(req.address, prep.value.cartItems)
        && calls[|calls| - 2..] == [EmptyCart(req.userId), SendOrderConfirmation(req.email, outcome.order)]
  {
  }

  /** The replies of EmptyCart and SendOrderConfirmation change neither the outcome nor the calls. */
  lemma BestEffortStepsIgnored(
    clients: Clients, req: PlaceOrderRequest, orderId: Option<string>,
    emptyCart: string -> Result<(), RpcError>,
    sendOrderConfirmation: (string, OrderResult) -> Result<(), RpcError>)
    ensures PlaceOrderSpec(clients.(emptyCart := emptyCart, sendOrderConfirmation := sendOrderConfirmation),
                           req, orderId)
            == PlaceOrderSpec(clients, req, orderId)
  {
    var other := clients.(emptyCart := emptyCart, sendOrderConfirmation := sendOrderConfirmation);
    assert PrepareSpec(other, req.userId, req.userCurrency, req.address)
        == PrepareSpec(clients, req.userId, req.userCurrency, req.address) by {
      PrepareUnaffected(clients, other, req.userId, req.userCurrency, req.address);
    }
  }

  lemma PrepareUnaffected(a: Clients, b: Clients, userId: string, userCurrency: string, address: Address)
    requires a.getCart == b.getCart && a.getProduct == b.getProduct
    requires a.convert == b.convert && a.getQuote == b.getQuote
    ensures PrepareSpec(a, userId, userCurrency, address) == PrepareSpec(b, userId, userCurrency, address)
  {
    if a.getCart(userId).Ok? {
      ItemsUnaffected(a, b, a.getCart(userId).value, userCurrency);
    }
  }

  lemma {:induction false} ItemsUnaffected(a: Clients, b: Clients, items: seq<CartItem>, userCurrency: string)
    requires a.getProduct == b.getProduct && a.convert == b.convert
    ensures PrepOrderItemsSpec(a, items, userCurrency) == PrepOrderItemsSpec(b, items, userCurrency)
    decreases |items|
  {
    if items != [] {
      ItemsUnaffected(a, b, items[1..], userCurrency);
    }
  }

  /** A failed UUID generation returns Internal before any remote call. */
  lemma NoOrderIdNoCalls(clients: Clients, req: PlaceOrderRequest)
    ensures PlaceOrderSpec(clients, req, None) == (Failed(Internal, OrderIdFailure), [])
  {
  }
}
