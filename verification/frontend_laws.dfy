/** Properties of the frontend helpers, and how the shown total relates to what checkout charged. */
module FrontendLaws {
  import opened GoInts
  import opened Wrappers
  import opened Money
  import opened MoneyLaws
  import opened Messages
  import opened Checkout
  import opened CheckoutLaws
  import opened Frontend

  // -------------------------------------------------------------- cart size

  lemma {:induction false} SumQuantitiesConcat(a: seq<CartItem>, b: seq<CartItem>)
    ensures SumQuantities(a + b) == SumQuantities(a) + SumQuantities(b)
    decreases |b|
  {
    if b == [] {
      assert a + b == a;
    } else {
      assert (a + b)[..|a + b| - 1] == a + b[..|b| - 1];
      SumQuantitiesConcat(a, b[..|b| - 1]);
    }
  }

  /** Appending an item to a cart adds its quantity to the cart size. */
  lemma CartSizeOfAppend(items: seq<CartItem>, item: CartItem)
    ensures SumQuantities(items + [item]) == SumQuantities(items) + item.quantity
  {
    assert (items + [item])[..|items|] == items;
  }

  // ------------------------------------------------------------------ logos

  /** Every whitelisted currency has its own logo and no other code has one; "$" is shared by USD, CAD and the rest. */
  lemma LogoTable(code: string)
    ensures Logos.Keys == WhitelistedCurrencies
    ensures RenderCurrencyLogo(code) == "$" <==> code == "USD" || code == "CAD" || code !in WhitelistedCurrencies
    ensures code == "JPY" <==> RenderCurrencyLogo(code) == "¥"
    ensures code == "EUR" <==> RenderCurrencyLogo(code) == "€"
    ensures code == "TRY" <==> RenderCurrencyLogo(code) == "₺"
    ensures code == "GBP" <==> RenderCurrencyLogo(code) == "£"
  {
  }

  // ------------------------------------------------------------- rendering

  lemma {:induction false} DecimalRoundTrip(n: nat)
    ensures DecimalValue(NatToDecimal(n)) == n
  {
    var s := NatToDecimal(n);
    if n >= 10 {
      DecimalRoundTrip(n / 10);
      assert s[..|s| - 1] == NatToDecimal(n / 10);
    }
  }

  lemma NatToDecimalInjective(a: nat, b: nat)
    requires NatToDecimal(a) == NatToDecimal(b)
    ensures a == b
  {
    DecimalRoundTrip(a);
    DecimalRoundTrip(b);
  }

  /** Two-digit cents read back as the cents they render. */
  lemma Pad2RoundTrip(i: int)
    requires 0 <= i < 100
    ensures DecimalValue(Pad2(i)) == i
  {
    DecimalRoundTrip(i);
    if i < 10 {
      assert Pad2(i)[..1] == "0";
    }
  }

  /** A non-negative valid amount renders as logo, the units' digits, a dot and exactly two cent digits. */
  lemma RenderMoneyShape(m: Money)
    requires IsValid(m) && m.units >= 0 && m.nanos >= 0
    ensures 0 <= Cents(m) < 100 && Cents(m) == m.nanos / 10_000_000
    ensures RenderMoney(m) == RenderCurrencyLogo(m.currencyCode) + NatToDecimal(m.units) + "." + Pad2(Cents(m))
    ensures |Pad2(Cents(m))| == 2 && DecimalValue(Pad2(Cents(m))) == Cents(m)
  {
    Pad2RoundTrip(Cents(m));
  }

  /** For non-negative amounts in one currency, the rendering tells the units and the cents apart, and nothing finer. */
  lemma RenderMoneyDistinguishes(a: Money, b: Money)
    requires IsValid(a) && a.units >= 0 && a.nanos >= 0
    requires IsValid(b) && b.units >= 0 && b.nanos >= 0
    requires a.currencyCode == b.currencyCode
    ensures RenderMoney(a) == RenderMoney(b) <==> a.units == b.units && Cents(a) == Cents(b)
  {
    RenderMoneyShape(a);
    RenderMoneyShape(b);
    if RenderMoney(a) == RenderMoney(b) {
      SplitAtDot(RenderCurrencyLogo(a.currencyCode), NatToDecimal(a.units), NatToDecimal(b.units),
                 Pad2(Cents(a)), Pad2(Cents(b)));
      NatToDecimalInjective(a.units, b.units);
      Pad2RoundTrip(Cents(a));
      Pad2RoundTrip(Cents(b));
    }
  }

  lemma SplitAtDot(logo: string, x: string, y: string, u: string, v: string)
    requires |u| == |v| && logo + x + "." + u == logo + y + "." + v
    ensures x == y && u == v
  {
    var l, r := logo + x + "." + u, logo + y + "." + v;
    assert x == l[|logo|..|logo| + |x|] && y == r[|logo|..|logo| + |y|];
    assert u == l[|l| - |u|..] && v == r[|r| - |v|..];
  }

  /** Negative amounts print a sign on both sides of the dot. */
  lemma NegativeRendering()
    ensures RenderMoney(Money(-1, -500_000_000, "USD")) == "$-1.-50"
  {
    assert Cents(Money(-1, -500_000_000, "USD")) == -50;
    assert NatToDecimal(50) == "50";
  }

  // ---------------------------------------------------------------- currency

  /** The whitelist filter keeps each whitelisted code as often as it occurs and drops every other code. */
  lemma {:induction false} WhitelistedCounts(codes: seq<string>, c: string)
    ensures multiset(Whitelisted(codes))[c] == if c in WhitelistedCurrencies then multiset(codes)[c] else 0
    ensures c in Whitelisted(codes) <==> c in codes && c in WhitelistedCurrencies
  {
    if codes != [] {
      var init := codes[..|codes| - 1];
      WhitelistedCounts(init, c);
      assert codes == init + [codes[|codes| - 1]];
    }
  }

  /** Filtering preserves order: it distributes over concatenation. */
  lemma {:induction false} WhitelistedConcat(a: seq<string>, b: seq<string>)
    ensures Whitelisted(a + b) == Whitelisted(a) + Whitelisted(b)
    decreases |b|
  {
    if b == [] {
      assert a + b == a;
    } else {
      assert (a + b)[..|a + b| - 1] == a + b[..|b| - 1];
      WhitelistedConcat(a, b[..|b| - 1]);
    }
  }

  /** The default currency is not among those the currency list offers. */
  lemma DefaultCurrencyNotOffered(codes: seq<string>)
    ensures CurrentCurrency(None) !in Whitelisted(codes)
  {
    WhitelistedCounts(codes, CurrentCurrency(None));
  }

  // --------------------------------------------------------- recommendations

  /** One product per id, in order, exactly when every lookup succeeds. */
  lemma {:induction false} LookUpAllLaws(ids: seq<string>, getProduct: string -> Result<Product, RpcError>)
    ensures LookUpAll(ids, getProduct).Ok? <==> forall i :: 0 <= i < |ids| ==> getProduct(ids[i]).Ok?
    ensures LookUpAll(ids, getProduct).Ok? ==>
      |LookUpAll(ids, getProduct).value| == |ids| &&
      forall i :: 0 <= i < |ids| ==> getProduct(ids[i]) == Ok(LookUpAll(ids, getProduct).value[i])
  {
    if ids != [] {
      var init := ids[..|ids| - 1];
      LookUpAllLaws(init, getProduct);
      assert forall i :: 0 <= i < |init| ==> init[i] == ids[i];
    }
  }

  /** The first failing lookup is the one reported, however far past the fourth id it is. */
  lemma {:induction false} LookUpAllFirstFailure(
    ids: seq<string>, j: nat, getProduct: string -> Result<Product, RpcError>)
    requires j < |ids| && getProduct(ids[j]).Err?
    requires forall i :: 0 <= i < j ==> getProduct(ids[i]).Ok?
    ensures LookUpAll(ids, getProduct) == Err(ProductInfoFailure(ids[j]))
  {
    var prefix := ids[..j];
    LookUpAllLaws(prefix, getProduct);
    assert ids[..j + 1][..j] == prefix;
    assert LookUpAll(ids[..j + 1], getProduct) == Err(ProductInfoFailure(ids[j]));
    LookUpAllErrSticks(ids, j + 1, getProduct);
  }

  /** At most four products are shown: the products of the first ids, in order. */
  lemma RecommendationsLaws(ids: Result<seq<string>, RpcError>, getProduct: string -> Result<Product, RpcError>)
    ensures var r := Recommendations(ids, getProduct);
      && (r.Ok? <==> ids.Ok? && forall i :: 0 <= i < |ids.value| ==> getProduct(ids.value[i]).Ok?)
      && (r.Ok? ==>
            && |r.value| == (if |ids.value| > 4 then 4 else |ids.value|)
            && forall i :: 0 <= i < |r.value| ==> getProduct(ids.value[i]) == Ok(r.value[i]))
  {
    if ids.Ok? {
      LookUpAllLaws(ids.value, getProduct);
    }
  }

  // ------------------------------------------------------------- order total

  /**
   * The total the frontend shows for a placed order is the amount checkout
   * charged: shipping plus the lines, which equals checkout's zero + shipping
   * + lines once the shipping cost passed checkout's own Sum.
   */
  lemma DisplayedTotalIsCharged(clients: Clients, req: PlaceOrderRequest, orderId: Option<string>)
    ensures var (outcome, calls) := PlaceOrderSpec(clients, req, orderId);
      outcome.Placed? ==>
        forall k :: 0 <= k < |calls| && calls[k].Charge? ==>
          AddItemCosts(outcome.order.shippingCost, outcome.order.items) == Returned(calls[k].amount)
  {
    var (outcome, calls) := PlaceOrderSpec(clients, req, orderId);
    ChargeOnlyAfterPreparation(clients, req, orderId);
    PlacedOrderContents(clients, req, orderId);
    if outcome.Placed? {
      var prep := PrepareSpec(clients, req.userId, req.userCurrency, req.address).0.value;
      var shipping := prep.shippingCostLocalized;
      assert Sum(Money(0, 0, req.userCurrency), shipping).Ok?;
      SumErrors(Money(0, 0, req.userCurrency), shipping);
      SumZeroLeft(shipping);
    }
  }
}
