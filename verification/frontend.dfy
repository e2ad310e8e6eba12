/**
 * The deterministic helpers of the web frontend: cart size, money
 * rendering, currency choice and filtering, the recommendation and
 * conversion wrappers, and the total shown after an order.
 */
module Frontend {
  import opened GoInts
  import opened Wrappers
  import opened Money
  import opened Messages
  import opened Checkout

  // -------------------------------------------------------------- cart size

  function SumQuantities(items: seq<CartItem>): int
  {
    if items == [] then 0 else SumQuantities(items[..|items| - 1]) + items[|items| - 1].quantity
  }

  /** `cartSize`: the number of units in the cart, the sum of the quantities. */
  method CartSize(items: seq<CartItem>) returns (size: int)
    ensures size == SumQuantities(items)
  {
    size := 0;
    for i := 0 to |items|
      invariant size == SumQuantities(items[..i])
    {
      assert items[..i + 1][..i] == items[..i];
      size := size + items[i].quantity;
    }
    assert items[..|items|] == items;
  }

  // ---------------------------------------------------------- rendering money

  const Logos: map<string, string> :=
    map["USD" := "$", "CAD" := "$", "JPY" := "¥", "EUR" := "€", "TRY" := "₺", "GBP" := "£"]

  /** `renderCurrencyLogo`: the symbol of a known code, "$" for any other. */
  function RenderCurrencyLogo(currencyCode: string): (logo: string)
    ensures |logo| == 1
    ensures currencyCode in Logos ==> logo == Logos[currencyCode]
    ensures currencyCode !in Logos ==> logo == "$"
  {
    if currencyCode in Logos then Logos[currencyCode] else "$"
  }

  function DigitChar(d: int): (c: char)
    requires 0 <= d < 10
    ensures '0' <= c <= '9'
  {
    "0123456789"[d]
  }

  predicate IsDigits(s: string)
  {
    forall i :: 0 <= i < |s| ==> '0' <= s[i] <= '9'
  }

  /** The decimal digits of `n`, with no leading zero (`%d` of a non-negative integer). */
  function NatToDecimal(n: nat): (s: string)
    ensures |s| >= 1 && IsDigits(s)
    ensures |s| > 1 ==> s[0] != '0'
    ensures n < 10 ==> |s| == 1
    ensures 10 <= n < 100 ==> |s| == 2
  {
    if n < 10 then [DigitChar(n)] else NatToDecimal(n / 10) + [DigitChar(n % 10)]
  }

  /** The number a string of decimal digits denotes. */
  function DecimalValue(s: string): nat
    requires IsDigits(s)
  {
    if s == [] then 0
    else DecimalValue(s[..|s| - 1]) * 10 + ((s[|s| - 1] as int) - ('0' as int))
  }

  /** `%d` of a signed integer. */
  function IntToDecimal(i: int): (s: string)
    ensures i >= 0 ==> s == NatToDecimal(i)
    ensures i < 0 ==> s == "-" + NatToDecimal(-i)
  {
    if i < 0 then "-" + NatToDecimal(-i) else NatToDecimal(i)
  }

  /** `%02d`: zero-padded to two characters; a sign counts towards the width. */
  function Pad2(i: int): (s: string)
    ensures |s| >= 2
    ensures 0 <= i < 100 ==> |s| == 2 && IsDigits(s)
    ensures i < 0 ==> s[0] == '-'
  {
    if 0 <= i < 10 then "0" + NatToDecimal(i) else IntToDecimal(i)
  }

  /** The cents `renderMoney` shows: nanos divided by 10^7, truncated toward zero. */
  function Cents(m: Money): (c: int)
    ensures Abs(m.nanos - c * 10_000_000) < 10_000_000
    ensures c != 0 ==> (c > 0 <==> m.nanos > 0)
    ensures ValidNanos(m.nanos) ==> -99 <= c <= 99
  {
    TruncDiv(m.nanos, 10_000_000)
  }

  /** `renderMoney`: logo, units, a dot, and the zero-padded truncated cents. */
  function RenderMoney(m: Money): (s: string)
    ensures |s| >= 5
  {
    RenderCurrencyLogo(m.currencyCode) + IntToDecimal(m.units) + "." + Pad2(Cents(m))
  }

  // ---------------------------------------------------------------- currency

  const DefaultCurrency: string := "CNY"

  const WhitelistedCurrencies: set<string> := {"USD", "EUR", "CAD", "JPY", "GBP", "TRY"}

  /** `currentCurrency`: the currency cookie's value when the cookie is present, the default otherwise. */
  function CurrentCurrency(cookie: Option<string>): (code: string)
    ensures cookie.Some? ==> code == cookie.value
    ensures cookie.None? ==> code == DefaultCurrency && code !in WhitelistedCurrencies
  {
    if cookie.Some? then cookie.value else DefaultCurrency
  }

  /** The codes on the whitelist, in their order, repeats kept. */
  function Whitelisted(codes: seq<string>): (w: seq<string>)
    ensures |w| <= |codes|
    ensures forall c :: c in w <==> c in codes && c in WhitelistedCurrencies
  {
    if codes == [] then []
    else
      var init := Whitelisted(codes[..|codes| - 1]);
      if codes[|codes| - 1] in WhitelistedCurrencies then init + [codes[|codes| - 1]] else init
  }

  /** `getCurrencies`: the supported codes that are whitelisted, in the order the currency service gave them. */
  method GetCurrencies(supported: Result<seq<string>, RpcError>) returns (r: Result<seq<string>, RpcError>)
    ensures supported.Err? ==> r == Err(supported.error)
    ensures supported.Ok? ==> r == Ok(Whitelisted(supported.value))
  {
    if supported.Err? {
      return Err(supported.error);
    }
    var codes := supported.value;
    var out: seq<string> := [];
    for i := 0 to |codes|
      invariant out == Whitelisted(codes[..i])
    {
      assert codes[..i + 1][..i] == codes[..i];
      if codes[i] in WhitelistedCurrencies {
        out := out + [codes[i]];
      }
    }
    assert codes[..|codes|] == codes;
    return Ok(out);
  }

  // -------------------------------------------------------------- conversion

  /** `convertCurrency`: the money itself, and no RPC, when it is already in the target currency; the service's reply otherwise. The flag says whether the service was called. */
  function ConvertCurrency(m: Money, toCode: string, convert: (Money, string) -> Result<Money, RpcError>)
    : (r: (Result<Money, RpcError>, bool))
    ensures m.currencyCode == toCode <==> !r.1
    ensures !r.1 ==> r.0 == Ok(m)
    ensures r.1 ==> r.0 == convert(m, toCode)
  {
    if m.currencyCode == toCode then (Ok(m), false) else (convert(m, toCode), true)
  }

  // --------------------------------------------------------- recommendations

  const MaxShownRecommendations: nat := 4

  datatype RecommendationError = RecommendationRpcFailure(e: RpcError) | ProductInfoFailure(productId: string)

  /** Looks every id up in turn; the first failure aborts. */
  function LookUpAll(ids: seq<string>, getProduct: string -> Result<Product, RpcError>)
    : Result<seq<Product>, RecommendationError>
  {
    if ids == [] then Ok([])
    else match LookUpAll(ids[..|ids| - 1], getProduct)
      case Err(e) => Err(e)
      case Ok(init) =>
        match getProduct(ids[|ids| - 1])
        case Err(_) => Err(ProductInfoFailure(ids[|ids| - 1]))
        case Ok(p) => Ok(init + [p])
  }

  function Recommendations(
    ids: Result<seq<string>, RpcError>, getProduct: string -> Result<Product, RpcError>)
    : Result<seq<Product>, RecommendationError>
  {
    match ids
    case Err(e) => Err(RecommendationRpcFailure(e))
    case Ok(ids) =>
      match LookUpAll(ids, getProduct)
      case Err(e) => Err(e)
      case Ok(products) =>
        Ok(if |products| > MaxShownRecommendations then products[..MaxShownRecommendations] else products)
  }

  /** `getRecommendations`: fills one product per recommended id, then keeps the first four. */
  method GetRecommendations(
    ids: Result<seq<string>, RpcError>, getProduct: string -> Result<Product, RpcError>)
    returns (r: Result<seq<Product>, RecommendationError>)
    ensures r == Recommendations(ids, getProduct)
  {
    if ids.Err? {
      return Err(RecommendationRpcFailure(ids.error));
    }
    var want := ids.value;
    var out := new Product[|want|];
    for i := 0 to |want|
      invariant LookUpAll(want[..i], getProduct) == Ok(out[..i])
    {
      assert want[..i + 1][..i] == want[..i];
      var p := getProduct(want[i]);
      if p.Err? {
        assert LookUpAll(want[..i + 1], getProduct) == Err(ProductInfoFailure(want[i]));
        LookUpAllErrSticks(want, i + 1, getProduct);
        return Err(ProductInfoFailure(want[i]));
      }
      out[i] := p.value;
      assert out[..i + 1] == out[..i] + [p.value];
    }
    assert want[..|want|] == want;
    assert out[..|want|] == out[..];
    var products := out[..];
    if |products| > MaxShownRecommendations {
      products := products[..MaxShownRecommendations];
    }
    return Ok(products);
  }

  /** Once a prefix fails to look up, so does every longer prefix, with the same error. */
  lemma {:induction false} LookUpAllErrSticks(ids: seq<string>, j: nat, getProduct: string -> Result<Product, RpcError>)
    requires j <= |ids| && LookUpAll(ids[..j], getProduct).Err?
    ensures LookUpAll(ids, getProduct) == LookUpAll(ids[..j], getProduct)
    decreases |ids| - j
  {
    if j < |ids| {
      assert ids[..j + 1][..j] == ids[..j];
      LookUpAllErrSticks(ids, j + 1, getProduct);
    } else {
      assert ids[..j] == ids;
    }
  }

  // ------------------------------------------------------------- order total

  /** The total shown after an order: shipping plus every MultiplySlow line, through Must. */
  method DisplayedTotal(order: OrderResult) returns (total: Checked<Money>)
    ensures total == AddItemCosts(order.shippingCost, order.items)
  {
    var acc := order.shippingCost;
    var items := order.items;
    for i := 0 to |items|
      invariant AddItemCosts(order.shippingCost, items) == AddItemCosts(acc, items[i..])
    {
      assert items[i..][0] == items[i] && items[i..][1..] == items[i + 1..];
      var line := MultiplySlow(items[i].cost, ToUint32(items[i].item.quantity));
      if line.Panicked? {
        return Panicked(line.cause);
      }
      var next := Must(Sum(acc, line.value));
      if next.Panicked? {
        return next;
      }
      acc := next.value;
    }
    assert items[|items|..] == [];
    total := Returned(acc);
  }
}
