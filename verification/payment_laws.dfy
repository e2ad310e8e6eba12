/** What the card check decides, stated without its order of tests. */
module PaymentLaws {
  import opened GoInts
  import opened Wrappers
  import opened Money
  import opened Messages
  import opened Payment

  /** Only '-' is removed: spaces and other separators stay where they are. */
  lemma OnlyHyphensAreStripped()
    ensures StripHyphens("41-1 1") == "411 1"
  {
  }

  /** A leading space is not stripped, so the number does not start with an accepted digit. */
  lemma LeadingSpaceIsUnaccepted(amount: Money, cvv: Int32, year: Int32, month: Int32, now: CivilTime)
    ensures ValidateAndCharge(amount, CreditCardInfo(" 4111", cvv, year, month), now, "t")
            == Err(UnacceptedCreditCard)
  {
    var spaced := " 4111";
    assert '-' !in spaced;
    assert StripHyphens(spaced) == spaced;
    assert Utf8Len(spaced) >= |spaced|;
  }

  /** The tests take effect in order: a short number, then the issuer, then the CVV, then the expiry. */
  lemma ValidationOrder(amount: Money, card: CreditCardInfo, now: CivilTime, transactionId: string)
    requires transactionId != ""
    ensures var number := StripHyphens(card.number);
            var r := ValidateAndCharge(amount, card, now, transactionId);
      && (Utf8Len(number) < 4 ==> r == Err(InvalidCreditCard))
      && (Utf8Len(number) >= 4 && number[0] != '4' && number[0] != '5' ==> r == Err(UnacceptedCreditCard))
      && ((Utf8Len(number) >= 4 && (number[0] == '4' || number[0] == '5') && !CvvInRange(card.cvv as int))
            ==> r == Err(InvalidCreditCard))
      && (r == Err(ExpiredCreditCard) <==>
            Utf8Len(number) >= 4 && (number[0] == '4' || number[0] == '5') && CvvInRange(card.cvv as int)
            && Expired(card, now))
      && (r.Ok? <==>
            Utf8Len(number) >= 4 && (number[0] == '4' || number[0] == '5') && CvvInRange(card.cvv as int)
            && !Expired(card, now))
  {
  }

  /** The amount is never looked at. */
  lemma AmountIgnored(a: Money, b: Money, card: CreditCardInfo, now: CivilTime, transactionId: string)
    requires transactionId != ""
    ensures ValidateAndCharge(a, card, now, transactionId) == ValidateAndCharge(b, card, now, transactionId)
  {
  }

  lemma MonthOrder(y1: int, m1: int, y2: int, m2: int)
    requires 1 <= m1 <= 12 && 1 <= m2 <= 12
    ensures MonthIndex(y1, m1) < MonthIndex(y2, m2) <==> y1 < y2 || (y1 == y2 && m1 < m2)
    ensures MonthIndex(y1, m1) == MonthIndex(y2, m2) <==> y1 == y2 && m1 == m2
  {
    if y1 < y2 {
      assert y1 * 12 + 12 <= y2 * 12;
    } else if y2 < y1 {
      assert y2 * 12 + 12 <= y1 * 12;
    }
  }

  /**
   * With M the expiry month and N the current month (counted by MonthIndex),
   * a card is expired exactly when M <= N, or when M is next month and it is
   * already past midnight on the last day of this month.
   */
  lemma ExpiredIff(card: CreditCardInfo, now: CivilTime)
    requires ValidTime(now)
    ensures var expiry := MonthIndex(card.expirationYear as int, card.expirationMonth as int);
            var current := MonthIndex(now.year, now.month);
      Expired(card, now) <==>
        || expiry <= current
        || (expiry == current + 1 && now.day == DaysIn(now.year, now.month) && now.nanosOfDay > 0)
  {
    var z := DayZero(card.expirationYear as int, card.expirationMonth as int);
    MonthOrder(z.year, z.month, now.year, now.month);
  }

  /** A card whose expiry month is the current month is already refused. */
  lemma ExpiringThisMonthIsRefused(amount: Money, card: CreditCardInfo, now: CivilTime, transactionId: string)
    requires ValidTime(now) && transactionId != ""
    requires card.expirationYear as int == now.year && card.expirationMonth as int == now.month
    ensures ValidateAndCharge(amount, card, now, transactionId) != Ok(transactionId)
  {
    ExpiredIff(card, now);
  }

  /** A card dated January 2025 is refused from 00:00:00.000000001 on 31 December 2024. */
  lemma RefusedOnNewYearsEve()
    ensures Expired(CreditCardInfo("4111111111111111", 123, 2025, 1), CivilTime(2024, 12, 31, 1))
    ensures !Expired(CreditCardInfo("4111111111111111", 123, 2025, 1), CivilTime(2024, 12, 31, 0))
  {
  }

  /** `Charge` passes validation's verdict through unchanged once the raw number has 4 bytes. */
  lemma ChargeForwardsValidation(req: ChargeRequest, now: CivilTime, transactionId: string)
    requires transactionId != ""
    ensures var v := ValidateAndCharge(req.amount, req.creditCard, now, transactionId);
            var r := Charge(req, now, transactionId);
      && (Utf8Len(req.creditCard.number) >= 4 && v.Ok? ==> r == Charged(v.value))
      && (Utf8Len(req.creditCard.number) >= 4 && v.Err? ==> r == Declined(v.error))
      && (r.Charged? ==> r.transactionId == transactionId)
  {
  }

  /** A raw number of 4 or more bytes that is short once stripped reaches the length test. */
  lemma ShortAfterStripping()
    ensures Charge(ChargeRequest(Money(1, 0, "USD"), CreditCardInfo("4-1-1", 123, 2100, 1)),
                   CivilTime(2024, 6, 1, 0), "t") == Declined(InvalidCreditCard)
    ensures Charge(ChargeRequest(Money(1, 0, "USD"), CreditCardInfo("411", 123, 2100, 1)),
                   CivilTime(2024, 6, 1, 0), "t") == SlicePanic
  {
    assert StripHyphens("4-1-1") == "4" + StripHyphens("-1-1");
    assert StripHyphens("-1-1") == StripHyphens("1-1");
    assert StripHyphens("1-1") == "1" + StripHyphens("-1");
  }

  /** A number's byte length equals its character count exactly when every character is ASCII. */
  lemma {:induction false} Utf8LenAscii(s: string)
    ensures Utf8Len(s) == |s| <==> forall i :: 0 <= i < |s| ==> (s[i] as int) < 0x80
  {
    if s != [] {
      Utf8LenAscii(s[1..]);
      if Utf8Len(s) == |s| {
        forall i | 0 <= i < |s|
          ensures (s[i] as int) < 0x80
        {
          if i > 0 {
            assert s[i] == s[1..][i - 1];
          }
        }
      } else {
        assert forall i :: 0 <= i < |s[1..]| ==> s[1..][i] == s[i + 1];
      }
    }
  }

  /** The length test counts bytes: three characters, one of them two bytes wide, pass it. */
  lemma WideCharacterCountsTwice()
    ensures Utf8Len("4\U{FC}1") == 4
    ensures ValidateAndCharge(Money(1, 0, "USD"), CreditCardInfo("4\U{FC}1", 123, 2100, 1),
                              CivilTime(2024, 6, 1, 0), "t") == Ok("t")
    ensures Charge(ChargeRequest(Money(1, 0, "USD"), CreditCardInfo("4\U{FC}1", 123, 2100, 1)),
                   CivilTime(2024, 6, 1, 0), "t") == Charged("t")
  {
    var n := "4\U{FC}1";
    assert Utf8Len(n) == 1 + Utf8Len(n[1..]);
    assert Utf8Len(n[1..]) == 2 + Utf8Len(n[2..]);
    assert Utf8Len(n[2..]) == 1 + Utf8Len(n[3..]);
    assert '-' !in n;
  }
}
