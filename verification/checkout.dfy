/**
 * The checkout saga: PlaceOrder reads the cart, prices every item in the
 * user's currency, quotes and converts shipping, adds up the total with the
 * money library, charges the card, ships, then empties the cart and sends
 * the confirmation on a best-effort basis.
 *
 * Every remote collaborator is an oracle: a function from its request to a
 * reply or an RPC error. Each operation returns, besides its result, the
 * calls it made in order, so that the order of calls is observable.
 */
module Checkout {
  import opened GoInts
  import opened Wrappers
  import opened Money
  import opened Messages

  datatype Clients = Clients(
    getCart: string -> Result<seq<CartItem>, RpcError>,
    getProduct: string -> Result<Product, RpcError>,
    convert: (Money, string) -> Result<Money, RpcError>,
    getQuote: (Address, seq<CartItem>) -> Result<Money, RpcError>,
    charge: (Money, CreditCardInfo) -> Result<string, RpcError>,
    shipOrder: (Address, seq<CartItem>) -> Result<string, RpcError>,
    emptyCart: string -> Result<(), RpcError>,
    sendOrderConfirmation: (string, OrderResult) -> Result<(), RpcError>)

  datatype Call =
    | GetCart(userId: string)
    | GetProduct(productId: string)
    | Convert(from: Money, toCode: string)
    | GetQuote(address: Address, items: seq<CartItem>)
    | Charge(amount: Money, card: CreditCardInfo)
    | ShipOrder(address: Address, items: seq<CartItem>)
    | EmptyCart(userId: string)
    | SendOrderConfirmation(email: string, order: OrderResult)

  /** The step of the saga at which an order failed. */
  datatype Failure =
    | OrderIdFailure
    | CartFailure
    | ProductFailure(productId: string)
    | PriceConversionFailure(productId: string)
    | ShippingQuoteFailure
    | ShippingConversionFailure
    | PaymentFailure
    | ShipmentFailure

  /** The gRPC status codes PlaceOrder returns. */
  datatype Code = Internal | Unavailable

  /** A response, an error status, or a panic raised by Must while totalling. */
  datatype PlaceOrderOutcome =
    | Placed(order: OrderResult)
    | Failed(code: Code, failure: Failure)
    | Crashed(cause: MoneyError)

  datatype OrderPrep = OrderPrep(
    orderItems: seq<OrderItem>, cartItems: seq<CartItem>, shippingCostLocalized: Money)

  // ------------------------------------------------------------ item pricing

  /** Prepends work already done to the outcome and calls of the rest. */
  function Prefixed(done: seq<OrderItem>, doneCalls: seq<Call>,
                    rest: (Result<seq<OrderItem>, Failure>, seq<Call>))
    : (Result<seq<OrderItem>, Failure>, seq<Call>)
  {
    (if rest.0.Ok? then Ok(done + rest.0.value) else rest.0, doneCalls + rest.1)
  }

  lemma PrefixedNothing(rest: (Result<seq<OrderItem>, Failure>, seq<Call>))
    ensures Prefixed([], [], rest) == rest
  {
    if rest.0.Ok? {
      assert [] + rest.0.value == rest.0.value;
    }
    assert [] + rest.1 == rest.1;
  }

  lemma PrefixedTwice(a: seq<OrderItem>, ac: seq<Call>, b: seq<OrderItem>, bc: seq<Call>,
                      rest: (Result<seq<OrderItem>, Failure>, seq<Call>))
    ensures Prefixed(a, ac, Prefixed(b, bc, rest)) == Prefixed(a + b, ac + bc, rest)
  {
    if rest.0.Ok? {
      assert a + (b + rest.0.value) == (a + b) + rest.0.value;
    }
    assert ac + (bc + rest.1) == (ac + bc) + rest.1;
  }

  /** Prices the cart items in order; the first lookup or conversion failure aborts. */
  function PrepOrderItemsSpec(clients: Clients, items: seq<CartItem>, userCurrency: string)
    : (Result<seq<OrderItem>, Failure>, seq<Call>)
    decreases |items|
  {
    if items == [] then (Ok([]), [])
    else
      var id := items[0].productId;
      match clients.getProduct(id)
      case Err(_) => (Err(ProductFailure(id)), [GetProduct(id)])
      case Ok(product) =>
        var conversion := Convert(product.priceUsd, userCurrency);
        match clients.convert(product.priceUsd, userCurrency)
        case Err(_) => (Err(PriceConversionFailure(id)), [GetProduct(id), conversion])
        case Ok(price) =>
          Prefixed([OrderItem(items[0], price)], [GetProduct(id), conversion],
                   PrepOrderItemsSpec(clients, items[1..], userCurrency))
  }

  method PrepOrderItems(clients: Clients, items: seq<CartItem>, userCurrency: string)
    returns (res: Result<seq<OrderItem>, Failure>, calls: seq<Call>)
    ensures (res, calls) == PrepOrderItemsSpec(clients, items, userCurrency)
  {
    var out := new OrderItem[|items|];
    calls := [];
    PrefixedNothing(PrepOrderItemsSpec(clients, items, userCurrency));
    assert items[0..] == items;
    for i := 0 to |items|
      invariant PrepOrderItemsSpec(clients, items, userCurrency)
        == Prefixed(out[..i], calls, PrepOrderItemsSpec(clients, items[i..], userCurrency))
    {
      var item := items[i];
      assert items[i..][0] == item && items[i..][1..] == items[i + 1..];
      var before := calls;
      var product := clients.getProduct(item.productId);
      calls := calls + [GetProduct(item.productId)];
      if product.Err? {
        return Err(ProductFailure(item.productId)), calls;
      }
      var conversion := Convert(product.value.priceUsd, userCurrency);
      var price := clients.convert(product.value.priceUsd, userCurrency);
      calls := calls + [conversion];
      assert calls == before + [GetProduct(item.productId), conversion];
      if price.Err? {
        return Err(PriceConversionFailure(item.productId)), calls;
      }
      out[i] := OrderItem(item, price.value);
      assert out[..i + 1] == out[..i] + [out[i]];
      PrefixedTwice(out[..i], before, [out[i]], [GetProduct(item.productId), conversion],
                    PrepOrderItemsSpec(clients, items[i + 1..], userCurrency));
    }
    assert items[|items|..] == [];
    assert out[..|items|] == out[..];
    assert out[..] + [] == out[..] && calls + [] == calls;
    res := Ok(out[..]);
  }

  // ------------------------------------------------------ cart, items, quote

  function PrepareSpec(clients: Clients, userId: string, userCurrency: string, address: Address)
    : (Result<OrderPrep, Failure>, seq<Call>)
  {
    var fetch := [GetCart(userId)];
    match clients.getCart(userId)
    case Err(_) => (Err(CartFailure), fetch)
    case Ok(cartItems) =>
      var (priced, pricing) := PrepOrderItemsSpec(clients, cartItems, userCurrency);
      if priced.Err? then (Err(priced.error), fetch + pricing)
      else
        var quoting := fetch + pricing + [GetQuote(address, cartItems)];
        match clients.getQuote(address, cartItems)
        case Err(_) => (Err(ShippingQuoteFailure), quoting)
        case Ok(shippingUsd) =>
          var converting := quoting + [Convert(shippingUsd, userCurrency)];
          match clients.convert(shippingUsd, userCurrency)
          case Err(_) => (Err(ShippingConversionFailure), converting)
          case Ok(shipping) => (Ok(OrderPrep(priced.value, cartItems, shipping)), converting)
  }

  method PrepareOrderItemsAndShippingQuoteFromCart(
    clients: Clients, userId: string, userCurrency: string, address: Address)
    returns (res: Result<OrderPrep, Failure>, calls: seq<Call>)
    ensures (res, calls) == PrepareSpec(clients, userId, userCurrency, address)
  {
    calls := [GetCart(userId)];
    var cartItems := clients.getCart(userId);
    if cartItems.Err? {
      return Err(CartFailure), calls;
    }
    var orderItems, pricing := PrepOrderItems(clients, cartItems.value, userCurrency);
    calls := calls + pricing;
    if orderItems.Err? {
      return Err(orderItems.error), calls;
    }
    calls := calls + [GetQuote(address, cartItems.value)];
    var shippingUsd := clients.getQuote(address, cartItems.value);
    if shippingUsd.Err? {
      return Err(ShippingQuoteFailure), calls;
    }
    calls := calls + [Convert(shippingUsd.value, userCurrency)];
    var shipping := clients.convert(shippingUsd.value, userCurrency);
    if shipping.Err? {
      return Err(ShippingConversionFailure), calls;
    }
    res := Ok(OrderPrep(orderItems.value, cartItems.value, shipping.value));
  }

  // ------------------------------------------------------------------- total

  /** Adds MultiplySlow(cost, uint32(quantity)) of each item to `total`, through Must. */
  function AddItemCosts(total: Money, items: seq<OrderItem>): Checked<Money>
    decreases |items|
  {
    if items == [] then Returned(total)
    else
      match Multiplied(items[0].cost, ToUint32(items[0].item.quantity))
      case Panicked(e) => Panicked(e)
      case Returned(line) =>
        match Must(Sum(total, line))
        case Panicked(e) => Panicked(e)
        case Returned(t) => AddItemCosts(t, items[1..])
  }

  /** Zero in the user's currency, plus shipping, plus every item line. */
  function OrderTotal(userCurrency: string, shipping: Money, items: seq<OrderItem>): Checked<Money>
  {
    match Must(Sum(Money(0, 0, userCurrency), shipping))
    case Panicked(e) => Panicked(e)
    case Returned(t) => AddItemCosts(t, items)
  }

  /** The total loop of PlaceOrder. */
  method ComputeTotal(userCurrency: string, shipping: Money, items: seq<OrderItem>)
    returns (total: Checked<Money>)
    ensures total == OrderTotal(userCurrency, shipping, items)
  {
    total := Must(Sum(Money(0, 0, userCurrency), shipping));
    if total.Panicked? {
      return;
    }
    var acc := total.value;
    for i := 0 to |items|
      invariant OrderTotal(userCurrency, shipping, items) == AddItemCosts(acc, items[i..])
    {
      assert items[i..][0] == items[i] && items[i..][1..] == items[i + 1..];
      var line := MultiplySlow(items[i].cost, ToUint32(items[i].item.quantity));
      if line.Panicked? {
        return Panicked(line.cause);
      }
      var next := Must(Sum(acc, line.value));
      if next.Panicked? {
        return next;
      }
      acc := next.value;
    }
    assert items[|items|..] == [];
    total := Returned(acc);
  }

  // ------------------------------------------------------------------- saga

  /** Charge, ship and the two best-effort steps, once the total is known. */
  function SettleSpec(clients: Clients, req: PlaceOrderRequest, orderId: string,
                      prep: OrderPrep, total: Money): (PlaceOrderOutcome, seq<Call>)
  {
    var charging := [Charge(total, req.creditCard)];
    if clients.charge(total, req.creditCard).Err? then (Failed(Internal, PaymentFailure), charging)
    else
      var shipping := charging + [ShipOrder(req.address, prep.cartItems)];
      match clients.shipOrder(req.address, prep.cartItems)
      case Err(_) => (Failed(Unavailable, ShipmentFailure), shipping)
      case Ok(trackingId) =>
        var order := OrderResult(orderId, trackingId, prep.shippingCostLocalized,
                                 req.address, prep.orderItems);
        (Placed(order), shipping + [EmptyCart(req.userId), SendOrderConfirmation(req.email, order)])
  }

  function PlaceOrderSpec(clients: Clients, req: PlaceOrderRequest, orderId: Option<string>)
    : (PlaceOrderOutcome, seq<Call>)
  {
    if orderId.None? then (Failed(Internal, OrderIdFailure), [])
    else
      var (prep, preparing) := PrepareSpec(clients, req.userId, req.userCurrency, req.address);
      if prep.Err? then (Failed(Internal, prep.error), preparing)
      else
        match OrderTotal(req.userCurrency, prep.value.shippingCostLocalized, prep.value.orderItems)
        case Panicked(e) => (Crashed(e), preparing)
        case Returned(total) =>
          var (outcome, settling) := SettleSpec(clients, req, orderId.value, prep.value, total);
          (outcome, preparing + settling)
  }

  method Settle(clients: Clients, req: PlaceOrderRequest, orderId: string,
                prep: OrderPrep, total: Money)
    returns (outcome: PlaceOrderOutcome, calls: seq<Call>)
    ensures (outcome, calls) == SettleSpec(clients, req, orderId, prep, total)
  {
    calls := [Charge(total, req.creditCard)];
    var txId := clients.charge(total, req.creditCard);
    if txId.Err? {
      return Failed(Internal, PaymentFailure), calls;
    }

    calls := calls + [ShipOrder(req.address, prep.cartItems)];
    var trackingId := clients.shipOrder(req.address, prep.cartItems);
    if trackingId.Err? {
      return Failed(Unavailable, ShipmentFailure), calls;
    }

    // Best effort: the reply of EmptyCart is discarded.
    calls := calls + [EmptyCart(req.userId)];
    var _ := clients.emptyCart(req.userId);

    var order := OrderResult(orderId, trackingId.value, prep.shippingCostLocalized,
                             req.address, prep.orderItems);
    // Best effort: a failed confirmation is only logged.
    calls := calls + [SendOrderConfirmation(req.email, order)];
    var _ := clients.sendOrderConfirmation(req.email, order);
    outcome := Placed(order);
    assert calls == [Charge(total, req.creditCard), ShipOrder(req.address, prep.cartItems)]
                    + [EmptyCart(req.userId), SendOrderConfirmation(req.email, order)];
    assert SettleSpec(clients, req, orderId, prep, total).0 == Placed(order);
    assert SettleSpec(clients, req, orderId, prep, total).1 == calls;
  }

  /**
   * One order placement. `orderId` is what the UUID generator produced
   * (None when it failed).
   */
  method PlaceOrder(clients: Clients, req: PlaceOrderRequest, orderId: Option<string>)
    returns (outcome: PlaceOrderOutcome, calls: seq<Call>)
    ensures (outcome, calls) == PlaceOrderSpec(clients, req, orderId)
  {
    if orderId.None? {
      return Failed(Internal, OrderIdFailure), [];
    }
    var prep;
    prep, calls := PrepareOrderItemsAndShippingQuoteFromCart(
      clients, req.userId, req.userCurrency, req.address);
    if prep.Err? {
      return Failed(Internal, prep.error), calls;
    }
    var total := ComputeTotal(req.userCurrency, prep.value.shippingCostLocalized, prep.value.orderItems);
    if total.Panicked? {
      return Crashed(total.cause), calls;
    }
    var settling;
    outcome, settling := Settle(clients, req, orderId.value, prep.value, total.value);
    calls := calls + settling;
  }
}
