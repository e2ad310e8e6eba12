/**
 * The exact-decimal money library of the checkout service: a value is
 * `units` whole currency units plus `nanos` billionths of a unit, both
 * signed, in one currency.
 */
module Money {
  import opened GoInts
  import opened Wrappers

  const NanosMin: int := -999_999_999
  const NanosMax: int := 999_999_999
  const NanosMod: int := 1_000_000_000

  /** Largest total magnitude, in nanos, for which no int64 unit sum can wrap. */
  const ValueLimit: int := 0x4000_0000_0000_0000 * NanosMod

  datatype Money = Money(units: Int64, nanos: Int32, currencyCode: string)

  datatype MoneyError = InvalidValue | MismatchingCurrency

  /** What `Must` produces: the value, or a Go panic carrying the error. */
  datatype Checked<+T> = Returned(value: T) | Panicked(cause: MoneyError)

  /** The amount a money value denotes, counted in nanos. */
  function Value(m: Money): int
  {
    m.units * NanosMod + m.nanos
  }

  /** Units and nanos never pull in opposite directions: their product is not negative. */
  predicate SignMatches(m: Money)
    ensures SignMatches(m) <==> (m.units as int) * (m.nanos as int) >= 0
  {
    m.nanos == 0 || m.units == 0 || (m.nanos < 0) == (m.units < 0)
  }

  /** The nanos are less than one whole unit in magnitude. */
  predicate ValidNanos(nanos: int)
    ensures ValidNanos(nanos) <==> Abs(nanos) < NanosMod
  {
    NanosMin <= nanos <= NanosMax
  }

  /** On a valid amount the two fields never cancel: the magnitude of the total is that of the units plus that of the nanos. */
  predicate IsValid(m: Money)
    ensures IsValid(m) ==> Abs(Value(m)) == Abs(m.units) * NanosMod + Abs(m.nanos)
  {
    SignMatches(m) && ValidNanos(m.nanos)
  }

  /** Both fields zero: a zero total, and on valid amounts the only zero total. */
  predicate IsZero(m: Money)
    ensures IsZero(m) ==> Value(m) == 0
    ensures IsValid(m) && Value(m) == 0 ==> IsZero(m)
  {
    m.units == 0 && m.nanos == 0
  }

  /** As written, `&&` binds tighter than `||`: the second disjunct skips validity. On valid amounts it is a positive total. */
  predicate IsPositive(m: Money)
    ensures IsValid(m) ==> (IsPositive(m) <==> Value(m) > 0)
  {
    (IsValid(m) && m.units > 0) || (m.units == 0 && m.nanos > 0)
  }

  /** The mirror of IsPositive: on valid amounts a negative total. */
  predicate IsNegative(m: Money)
    ensures IsValid(m) ==> (IsNegative(m) <==> Value(m) < 0)
  {
    (IsValid(m) && m.units < 0) || (m.units == 0 && m.nanos < 0)
  }

  /** The same non-empty currency code; such amounts never fail Sum's currency test. */
  predicate AreSameCurrency(l: Money, r: Money)
    ensures AreSameCurrency(l, r) ==> Sum(l, r) != Err(MismatchingCurrency) && Sum(r, l) != Err(MismatchingCurrency)
  {
    l.currencyCode == r.currencyCode && l.currencyCode != ""
  }

  /** Field-by-field comparison, which is equality of the amounts. */
  predicate AreEquals(l: Money, r: Money)
    ensures AreEquals(l, r) <==> l == r
  {
    l.currencyCode == r.currencyCode && l.units == r.units && l.nanos == r.nanos
  }

  /** Unary minus on both fields, with Go's wrap-around at the two minimums. */
  function Negate(m: Money): (n: Money)
    ensures n.currencyCode == m.currencyCode
    ensures IsValid(m) && m.units != MinInt64 ==> IsValid(n) && Value(n) == -Value(m)
  {
    Money(Wrap64(-(m.units as int)), Wrap32(-(m.nanos as int)), m.currencyCode)
  }

  function Must(r: Result<Money, MoneyError>): (c: Checked<Money>)
    ensures c.Returned? <==> r.Ok?
    ensures r.Ok? ==> c.value == r.value
    ensures r.Err? ==> c.cause == r.error
  {
    match r
    case Ok(v) => Returned(v)
    case Err(e) => Panicked(e)
  }

  /**
   * Sum as the source writes it: a raw units sum of zero with non-zero
   * nanos falls into the borrow branch.
   */
  function SumAsWritten(l: Money, r: Money): (s: Result<Money, MoneyError>)
    ensures s.Ok? <==> IsValid(l) && IsValid(r) && l.currencyCode == r.currencyCode
    ensures s.Ok? ==> s.value.currencyCode == l.currencyCode
    ensures s.Ok? && l.units + r.units == 0 && l.nanos + r.nanos > 0 ==>
              s.value == Money(1, Wrap32(l.nanos + r.nanos - NanosMod), l.currencyCode)
  {
    if !IsValid(l) || !IsValid(r) then Err(InvalidValue)
    else if l.currencyCode != r.currencyCode then Err(MismatchingCurrency)
    else
      var units := Wrap64(l.units + r.units);
      var nanos: Int32 := l.nanos + r.nanos;
      if (units == 0 && nanos == 0) || (units > 0 && nanos >= 0) || (units < 0 && nanos <= 0) then
        Ok(Money(Wrap64(units + TruncDiv(nanos, NanosMod)), TruncRem(nanos, NanosMod), l.currencyCode))
      else if units > 0 then
        Ok(Money(units - 1, Wrap32(nanos + NanosMod), l.currencyCode))
      else
        Ok(Money(units + 1, Wrap32(nanos - NanosMod), l.currencyCode))
  }

  /**
   * Sum with the same-sign test widened to a zero units sum, so that the
   * carry branch handles it; used by the rest of the model.
   */
  function Sum(l: Money, r: Money): (s: Result<Money, MoneyError>)
    ensures s.Ok? <==> IsValid(l) && IsValid(r) && l.currencyCode == r.currencyCode
    ensures s.Ok? ==> s.value.currencyCode == l.currencyCode
  {
    if !IsValid(l) || !IsValid(r) then Err(InvalidValue)
    else if l.currencyCode != r.currencyCode then Err(MismatchingCurrency)
    else
      var units := Wrap64(l.units + r.units);
      var nanos: Int32 := l.nanos + r.nanos;
      if (units >= 0 && nanos >= 0) || (units <= 0 && nanos <= 0) then
        Ok(Money(Wrap64(units + TruncDiv(nanos, NanosMod)), TruncRem(nanos, NanosMod), l.currencyCode))
      else if units > 0 then
        Ok(Money(units - 1, nanos + NanosMod, l.currencyCode))
      else
        Ok(Money(units + 1, nanos - NanosMod, l.currencyCode))
  }

  /** `m` followed by `k` further `Sum(_, m)` steps; the first error sticks. */
  function RepeatSum(m: Money, k: nat): Result<Money, MoneyError>
  {
    if k == 0 then Ok(m)
    else
      match RepeatSum(m, k - 1)
      case Ok(x) => Sum(x, m)
      case Err(e) => Err(e)
  }

  /** What MultiplySlow computes: `n` copies of `m` for n >= 1, `m` itself for n == 0. */
  function Multiplied(m: Money, n: Uint32): Checked<Money>
  {
    Must(RepeatSum(m, if n == 0 then 0 else n - 1))
  }

  lemma {:induction false} RepeatSumErrorSticks(m: Money, j: nat, k: nat)
    requires j <= k && RepeatSum(m, j).Err?
    ensures RepeatSum(m, k) == RepeatSum(m, j)
    decreases k - j
  {
    if j < k {
      RepeatSumErrorSticks(m, j, k - 1);
    }
  }

  /** Adds `m` to a copy of itself `n - 1` times, panicking through Must. */
  method MultiplySlow(m: Money, n: Uint32) returns (out: Checked<Money>)
    ensures out == Multiplied(m, n)
  {
    var acc := Money(m.units, m.nanos, m.currencyCode);
    var k := n;
    while k > 1
      invariant 0 <= k <= n
      invariant n >= 1 ==> k >= 1
      invariant RepeatSum(m, if n == 0 then 0 else n - k) == Ok(acc)
    {
      var s := Must(Sum(acc, m));
      if s.Panicked? {
        RepeatSumErrorSticks(m, n - k + 1, n - 1);
        return s;
      }
      acc := s.value;
      k := k - 1;
    }
    out := Returned(acc);
  }
}
