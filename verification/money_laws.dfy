/** What the money library promises, proved about the model in module Money. */
module MoneyLaws {
  import opened GoInts
  import opened Wrappers
  import opened Money

  // ---------------------------------------------------------------- validity

  /** A valid value is the canonical (truncating) split of its amount into units and nanos. */
  lemma ValidIsCanonical(m: Money)
    ensures IsValid(m) <==>
      (m.units == TruncDiv(Value(m), NanosMod) && m.nanos == TruncRem(Value(m), NanosMod))
  {
    var v := Value(m);
    var q, r := TruncDiv(v, NanosMod), TruncRem(v, NanosMod);
    if IsValid(m) {
      if v >= 0 {
        assert m.units >= 0 && m.nanos >= 0;
      } else {
        assert m.units <= 0 && m.nanos <= 0;
      }
    }
  }

  /** Two valid values with the same amount have the same fields. */
  lemma ValidUnique(a: Money, b: Money)
    requires IsValid(a) && IsValid(b) && Value(a) == Value(b)
    ensures a.units == b.units && a.nanos == b.nanos
  {
    ValidIsCanonical(a);
    ValidIsCanonical(b);
  }

  /** The whole units of a valid value never exceed its amount. */
  lemma UnitsBound(m: Money)
    requires IsValid(m)
    ensures Abs(m.units) * NanosMod <= Abs(Value(m))
  {
  }

  // ------------------------------------------------------------------- signs

  /** On valid values the three sign predicates agree with the amount. */
  lemma SignsOfValid(m: Money)
    requires IsValid(m)
    ensures IsZero(m) <==> Value(m) == 0
    ensures IsPositive(m) <==> Value(m) > 0
    ensures IsNegative(m) <==> Value(m) < 0
  {
  }

  /** IsPositive and IsNegative skip the validity test when units is zero. */
  lemma SignsSkipValidity(m: Money)
    requires m.units == 0
    ensures m.nanos > 0 ==> IsPositive(m)
    ensures m.nanos < 0 ==> IsNegative(m)
  {
  }

  /** An out-of-range value that IsPositive nevertheless accepts. */
  lemma PositiveOutOfRange()
    ensures var m := Money(0, 1_500_000_000, "USD"); IsPositive(m) && !IsValid(m)
  {
  }

  // ---------------------------------------------------------------- equality

  lemma AreEqualsIsEquality(l: Money, r: Money)
    ensures AreEquals(l, r) <==> l == r
  {
  }

  // ------------------------------------------------------------------ negate

  /** Negate keeps the currency, flips the amount and keeps validity, unless units is the int64 minimum. */
  lemma NegateValid(m: Money)
    requires IsValid(m) && m.units != MinInt64
    ensures IsValid(Negate(m))
    ensures Value(Negate(m)) == -Value(m)
    ensures Negate(m).currencyCode == m.currencyCode
  {
  }

  /** At the int64 minimum, Go's negation wraps and the result is no longer valid. */
  lemma NegateWrapsAtMinimum()
    ensures var m := Money(MinInt64, -1, "EUR"); IsValid(m) && !IsValid(Negate(m))
  {
    assert Wrap64(-MinInt64) == MinInt64;
  }

  /** Negating twice gives back the value, wrap-around included. */
  lemma NegateInvolutive(m: Money)
    ensures Negate(Negate(m)) == m
  {
    var u: int := m.units;
    if u == MinInt64 {
      assert Wrap64(-u) == MinInt64;
    } else {
      assert Wrap64(-u) == -u;
    }
    var n: int := m.nanos;
    if n == MinInt32 {
      assert Wrap32(-n) == MinInt32;
    } else {
      assert Wrap32(-n) == -n;
    }
  }

  // --------------------------------------------------------------------- sum

  /** Validity is checked before the currency; two empty codes are accepted. */
  lemma SumErrors(l: Money, r: Money)
    ensures !IsValid(l) || !IsValid(r) ==> Sum(l, r) == Err(InvalidValue)
    ensures IsValid(l) && IsValid(r) ==>
      (Sum(l, r) == Err(MismatchingCurrency) <==> l.currencyCode != r.currencyCode)
    ensures IsValid(l) && IsValid(r) && l.currencyCode == r.currencyCode ==> Sum(l, r).Ok?
  {
  }

  /** Sum is commutative on all inputs, errors included. */
  lemma SumCommutative(l: Money, r: Money)
    ensures Sum(l, r) == Sum(r, l)
  {
  }

  /** Raw sums of two valid nanos fields need at most one carry. */
  lemma CarryOfNanos(n: int)
    requires -2 * NanosMod < n < 2 * NanosMod
    ensures TruncDiv(n, NanosMod) == (if n >= NanosMod then 1 else if n <= -NanosMod then -1 else 0)
  {
  }

  /** Sum of valid same-currency values is valid and adds the amounts. */
  lemma SumValue(l: Money, r: Money)
    requires IsValid(l) && IsValid(r) && l.currencyCode == r.currencyCode
    requires Abs(Value(l)) + Abs(Value(r)) <= ValueLimit
    ensures Sum(l, r).Ok?
    ensures IsValid(Sum(l, r).value)
    ensures Value(Sum(l, r).value) == Value(l) + Value(r)
    ensures Sum(l, r).value.currencyCode == l.currencyCode
  {
    UnitsBound(l);
    UnitsBound(r);
    var raw := l.units + r.units;
    assert Wrap64(raw) == raw;
    var nanos := l.nanos + r.nanos;
    CarryOfNanos(nanos);
    var s := Sum(l, r).value;
    if (raw >= 0 && nanos >= 0) || (raw <= 0 && nanos <= 0) {
      assert s.units == raw + TruncDiv(nanos, NanosMod) && s.nanos == TruncRem(nanos, NanosMod);
    } else if raw > 0 {
      assert s == Money(raw - 1, nanos + NanosMod, l.currencyCode);
    } else {
      assert s == Money(raw + 1, nanos - NanosMod, l.currencyCode);
    }
  }

  /** Zero in the same currency is a left identity of Sum on valid values. */
  lemma SumZeroLeft(m: Money)
    requires IsValid(m)
    ensures Sum(Money(0, 0, m.currencyCode), m) == Ok(m)
  {
    CarryOfNanos(m.nanos);
  }

  /** Sum is associative on valid same-currency values whose amounts stay in range. */
  lemma SumAssociative(a: Money, b: Money, c: Money)
    requires IsValid(a) && IsValid(b) && IsValid(c)
    requires a.currencyCode == b.currencyCode == c.currencyCode
    requires Abs(Value(a)) + Abs(Value(b)) + Abs(Value(c)) <= ValueLimit
    ensures Sum(a, b).Ok? && Sum(b, c).Ok?
    ensures Sum(a, Sum(b, c).value) == Sum(Sum(a, b).value, c)
  {
    SumValue(a, b);
    SumValue(b, c);
    var ab, bc := Sum(a, b).value, Sum(b, c).value;
    SumValue(a, bc);
    SumValue(ab, c);
    ValidUnique(Sum(a, bc).value, Sum(ab, c).value);
  }

  // ---------------------------------------------------------- multiplication

  /** Distributing a count over an amount and its magnitude. */
  lemma ScaleFacts(k: nat, v: int)
    ensures Abs(k * v) == k * Abs(v)
    ensures (k + 1) * v == k * v + v
    ensures (k + 1) * Abs(v) == k * Abs(v) + Abs(v)
  {
    if v < 0 {
      assert k * v == -(k * -v);
    }
  }

  /** k further sums of a valid value give a valid value worth k + 1 copies of it. */
  lemma {:induction false} RepeatSumValue(m: Money, k: nat)
    requires IsValid(m)
    requires (k + 1) * Abs(Value(m)) <= ValueLimit
    ensures RepeatSum(m, k).Ok?
    ensures IsValid(RepeatSum(m, k).value)
    ensures Value(RepeatSum(m, k).value) == (k + 1) * Value(m)
    ensures RepeatSum(m, k).value.currencyCode == m.currencyCode
  {
    if k > 0 {
      var v := Value(m);
      ScaleFacts(k, v);
      ScaleFacts(k - 1, v);
      RepeatSumValue(m, k - 1);
      var x := RepeatSum(m, k - 1).value;
      assert Value(x) == k * v;
      SumValue(x, m);
    }
  }

  /** Any further sum of an invalid value fails with InvalidValue. */
  lemma {:induction false} RepeatSumInvalid(m: Money, k: nat)
    requires !IsValid(m) && k >= 1
    ensures RepeatSum(m, k) == Err(InvalidValue)
  {
    if k > 1 {
      RepeatSumInvalid(m, k - 1);
    }
  }

  /** MultiplySlow: a copy for 0 and 1, n copies for valid m in range, a panic for invalid m and n >= 2. */
  lemma MultipliedLaws(m: Money, n: Uint32)
    ensures n <= 1 ==> Multiplied(m, n) == Returned(m)
    ensures !IsValid(m) && n >= 2 ==> Multiplied(m, n) == Panicked(InvalidValue)
    ensures IsValid(m) && n >= 1 && n * Abs(Value(m)) <= ValueLimit ==>
      Multiplied(m, n).Returned? &&
      IsValid(Multiplied(m, n).value) &&
      Value(Multiplied(m, n).value) == n * Value(m) &&
      Multiplied(m, n).value.currencyCode == m.currencyCode
  {
    if !IsValid(m) && n >= 2 {
      RepeatSumInvalid(m, n - 1);
    }
    if IsValid(m) && n >= 1 && n * Abs(Value(m)) <= ValueLimit {
      RepeatSumValue(m, n - 1);
    }
  }

  // ------------------------------------------------- the source's Sum as written

  /** The two versions of Sum differ only when the raw units sum is zero and the raw nanos sum is not. */
  lemma SumAsWrittenDiffersOnlyAtZeroUnits(l: Money, r: Money)
    ensures SumAsWritten(l, r) != Sum(l, r) ==>
      IsValid(l) && IsValid(r) && l.currencyCode == r.currencyCode &&
      Wrap64(l.units + r.units) == 0 && l.nanos + r.nanos != 0
  {
    if IsValid(l) && IsValid(r) && l.currencyCode == r.currencyCode {
      var units, nanos := Wrap64(l.units + r.units), l.nanos + r.nanos;
      if units > 0 && nanos < 0 {
        assert Wrap32(nanos + NanosMod) == nanos + NanosMod;
      }
      if units < 0 && nanos > 0 {
        assert Wrap32(nanos - NanosMod) == nanos - NanosMod;
      }
    }
  }

  /** As written, 0.30 + 0.30 yields units 1 and nanos -0.40: an invalid value. */
  lemma SumAsWrittenBreaksValidity()
    ensures var l := Money(0, 300_000_000, "USD");
      SumAsWritten(l, l) == Ok(Money(1, -400_000_000, "USD")) &&
      !IsValid(SumAsWritten(l, l).value) &&
      Sum(l, l) == Ok(Money(0, 600_000_000, "USD"))
  {
    var l := Money(0, 300_000_000, "USD");
    assert Wrap32(600_000_000 - NanosMod) == -400_000_000;
    CarryOfNanos(600_000_000);
  }

  /** As written, -0.60 + -0.60 overflows int32 in the borrow and changes the amount. */
  lemma SumAsWrittenWrapsNanos()
    ensures var l := Money(0, -600_000_000, "USD");
      SumAsWritten(l, l) == Ok(Money(1, 2_094_967_296, "USD")) &&
      Value(SumAsWritten(l, l).value) != Value(l) + Value(l) &&
      Sum(l, l) == Ok(Money(-1, -200_000_000, "USD"))
  {
    var l := Money(0, -600_000_000, "USD");
    assert Wrap32(-1_200_000_000 - NanosMod) == 2_094_967_296;
    CarryOfNanos(-1_200_000_000);
  }

  /**
   * As written, repeated addition of 0.30 breaks at the third copy: the second
   * sum is not valid, so the next one reports an invalid value (a panic under Must).
   */
  lemma SumAsWrittenBreaksMultiply()
    ensures var l := Money(0, 300_000_000, "USD");
      SumAsWritten(l, l) == Ok(Money(1, -400_000_000, "USD")) &&
      SumAsWritten(SumAsWritten(l, l).value, l) == Err(InvalidValue) &&
      RepeatSum(l, 2) == Ok(Money(0, 900_000_000, "USD"))
  {
    var l := Money(0, 300_000_000, "USD");
    SumAsWrittenBreaksValidity();
    CarryOfNanos(900_000_000);
  }

  /**
   * As written, a shipping cost under one unit added to the zero total gives an
   * invalid total, and every later sum with it reports an invalid value.
   */
  lemma SumAsWrittenFromZeroTotal(m: Money)
    ensures var total := SumAsWritten(Money(0, 0, "USD"), Money(0, 300_000_000, "USD"));
      total == Ok(Money(1, -700_000_000, "USD")) &&
      !IsValid(total.value) &&
      SumAsWritten(total.value, m) == Err(InvalidValue) &&
      Sum(Money(0, 0, "USD"), Money(0, 300_000_000, "USD")) == Ok(Money(0, 300_000_000, "USD"))
  {
    assert Wrap32(300_000_000 - NanosMod) == -700_000_000;
    CarryOfNanos(300_000_000);
  }

  /**
   * AreSameCurrency demands a non-empty code, so it is stricter than the currency
   * test inside Sum: two valid amounts with an empty code add, yet are not "the same currency".
   */
  lemma AreSameCurrencyStricterThanSum(l: Money, r: Money)
    ensures AreSameCurrency(l, r) ==> Sum(l, r) != Err(MismatchingCurrency)
    ensures AreSameCurrency(l, r) && IsValid(l) && IsValid(r) ==> Sum(l, r).Ok?
    ensures var e := Money(1, 0, "");
      Sum(e, e) == Ok(Money(2, 0, "")) && !AreSameCurrency(e, e)
  {
    var e := Money(1, 0, "");
    CarryOfNanos(0);
  }
}
