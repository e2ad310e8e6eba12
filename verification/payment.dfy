/**
 * The payment service: a rudimentary credit-card check followed by a
 * pretend charge. The clock and the transaction-id generator are inputs.
 */
module Payment {
  import opened GoInts
  import opened Wrappers
  import opened Money
  import opened Messages

  datatype CardError = InvalidCreditCard | UnacceptedCreditCard | ExpiredCreditCard

  /** The text each error type reports. */
  function ErrorText(e: CardError): (text: string)
    ensures |text| > 0
  {
    match e
    case InvalidCreditCard => "invalid credit card"
    case UnacceptedCreditCard => "credit card not accepted; only VISA or MasterCard are accepted"
    case ExpiredCreditCard => "credit card expired"
  }

  lemma ErrorTextsDistinct(a: CardError, b: CardError)
    requires a != b
    ensures ErrorText(a) != ErrorText(b)
  {
  }

  // ------------------------------------------------------------ card number

  /** The card number with every '-' removed and every other character kept, in order. */
  function StripHyphens(s: string): (r: string)
    ensures '-' !in r
    ensures |r| <= |s|
    ensures '-' !in s ==> r == s
    ensures forall c :: c != '-' ==> multiset(r)[c] == multiset(s)[c]
  {
    if s == [] then []
    else
      assert s == [s[0]] + s[1..];
      if s[0] == '-' then StripHyphens(s[1..]) else [s[0]] + StripHyphens(s[1..])
  }

  lemma {:induction false} StripHyphensConcat(a: string, b: string)
    ensures StripHyphens(a + b) == StripHyphens(a) + StripHyphens(b)
  {
    if a == [] {
      assert a + b == b;
    } else {
      assert (a + b)[0] == a[0] && (a + b)[1..] == a[1..] + b;
      StripHyphensConcat(a[1..], b);
      if a[0] != '-' {
        calc {
          StripHyphens(a + b);
          [a[0]] + StripHyphens(a[1..] + b);
          [a[0]] + (StripHyphens(a[1..]) + StripHyphens(b));
          ([a[0]] + StripHyphens(a[1..])) + StripHyphens(b);
        }
      }
    }
  }

  lemma StripHyphensIdempotent(s: string)
    ensures StripHyphens(StripHyphens(s)) == StripHyphens(s)
  {
  }

  /** How many bytes the UTF-8 encoding of one character takes. */
  function Utf8Width(c: char): (n: nat)
    ensures 1 <= n <= 4
    ensures n == 1 <==> (c as int) < 0x80
  {
    if (c as int) < 0x80 then 1
    else if (c as int) < 0x800 then 2
    else if (c as int) < 0x1_0000 then 3
    else 4
  }

  /** Go's `len` of a string: the length of its UTF-8 encoding in bytes. */
  function Utf8Len(s: string): (n: nat)
    ensures |s| <= n <= 4 * |s|
  {
    if s == [] then 0 else Utf8Width(s[0]) + Utf8Len(s[1..])
  }

  datatype Company = Visa | MasterCard

  /**
   * The issuer the leading digit of a stripped number names, if it is one that is accepted.
   * The source compares the first byte; a character that is not ASCII starts with a byte of
   * 0xC0 or more, so the first byte is '4' or '5' exactly when the first character is.
   */
  function Issuer(number: string): (c: Option<Company>)
    requires |number| >= 1
    ensures c == Some(Visa) <==> number[0] == '4'
    ensures c == Some(MasterCard) <==> number[0] == '5'
  {
    if number[0] == '4' then Some(Visa)
    else if number[0] == '5' then Some(MasterCard)
    else None
  }

  /** How many decimal digits a number is written with. */
  function DigitCount(n: nat): (d: nat)
    ensures d >= 1
    ensures d >= 2 <==> n >= 10
    ensures d >= 3 <==> n >= 100
    ensures d >= 4 <==> n >= 1_000
    ensures d >= 5 <==> n >= 10_000
  {
    if n < 10 then 1 else 1 + DigitCount(n / 10)
  }

  /** A CVV is accepted when it is written with three or four digits and no leading zero. */
  predicate CvvInRange(cvv: int)
    ensures CvvInRange(cvv) <==> cvv >= 0 && 3 <= DigitCount(cvv) <= 4
  {
    100 <= cvv <= 9999
  }

  // ----------------------------------------------------------------- expiry

  const NanosPerDay: int := 86_400 * 1_000_000_000

  /** A wall-clock instant in the service's local zone, as a Gregorian civil date and the nanos since midnight. */
  datatype CivilTime = CivilTime(year: int, month: int, day: int, nanosOfDay: int)

  predicate IsLeap(year: int)
  {
    (year % 4 == 0 && year % 100 != 0) || year % 400 == 0
  }

  function DaysIn(year: int, month: int): (n: int)
    requires 1 <= month <= 12
    ensures 28 <= n <= 31
  {
    if month == 2 then (if IsLeap(year) then 29 else 28)
    else if month == 4 || month == 6 || month == 9 || month == 11 then 30
    else 31
  }

  predicate ValidTime(t: CivilTime)
  {
    && 1 <= t.month <= 12
    && 1 <= t.day <= DaysIn(t.year, t.month)
    && 0 <= t.nanosOfDay < NanosPerDay
  }

  /** Months counted from January of year 0, the scale on which Go normalises a month out of 1..12. */
  function MonthIndex(year: int, month: int): int
  {
    year * 12 + (month - 1)
  }

  /**
   * Go's `time.Date(year, month, 0, 0, 0, 0, 0, loc)`: the month is
   * normalised into the year, and day 0 is the last day of the month
   * before, at midnight.
   */
  function DayZero(year: int, month: int): (t: CivilTime)
    ensures ValidTime(t)
    ensures MonthIndex(t.year, t.month) == MonthIndex(year, month) - 1
    ensures t.day == DaysIn(t.year, t.month) && t.nanosOfDay == 0
  {
    var before := MonthIndex(year, month) - 1;
    var y := before / 12;
    var m := before % 12 + 1;
    CivilTime(y, m, DaysIn(y, m), 0)
  }

  /** `a.Before(b)`: strictly earlier, compared field by field. */
  predicate Before(a: CivilTime, b: CivilTime)
  {
    || a.year < b.year
    || (a.year == b.year && a.month < b.month)
    || (a.year == b.year && a.month == b.month && a.day < b.day)
    || (a.year == b.year && a.month == b.month && a.day == b.day && a.nanosOfDay < b.nanosOfDay)
  }

  /**
   * Expired once the last day of the month before the expiry month has begun: never before
   * that month, always from the expiry month on.
   */
  predicate Expired(card: CreditCardInfo, now: CivilTime)
    ensures ValidTime(now) && MonthIndex(now.year, now.month)
              < MonthIndex(card.expirationYear as int, card.expirationMonth as int) - 1
            ==> !Expired(card, now)
    ensures ValidTime(now) && MonthIndex(now.year, now.month)
              >= MonthIndex(card.expirationYear as int, card.expirationMonth as int)
            ==> Expired(card, now)
  {
    Before(DayZero(card.expirationYear as int, card.expirationMonth as int), now)
  }

  // ------------------------------------------------------------- validation

  /**
   * `validateAndCharge`: the checks in the order the service makes them.
   * The amount plays no part; `transactionId` stands for the fresh UUID.
   */
  function ValidateAndCharge(amount: Money, card: CreditCardInfo, now: CivilTime, transactionId: string)
    : (r: Result<string, CardError>)
    requires transactionId != ""
    ensures r.Ok? ==> r.value == transactionId && r.value != ""
  {
    var number := StripHyphens(card.number);
    if Utf8Len(number) < 4 then Err(InvalidCreditCard)
    else if Issuer(number).None? then Err(UnacceptedCreditCard)
    else if !CvvInRange(card.cvv as int) then Err(InvalidCreditCard)
    else if Expired(card, now) then Err(ExpiredCreditCard)
    else Ok(transactionId)
  }

  // ----------------------------------------------------------------- Charge

  datatype ChargeRequest = ChargeRequest(amount: Money, creditCard: CreditCardInfo)

  /** What `Charge` produces: the transaction id, the validation error, or the panic of slicing a raw number shorter than 4 bytes. */
  datatype ChargeReply = Charged(transactionId: string) | Declined(error: CardError) | SlicePanic

  function Charge(req: ChargeRequest, now: CivilTime, transactionId: string): (r: ChargeReply)
    requires transactionId != ""
    ensures Utf8Len(req.creditCard.number) < 4 <==> r == SlicePanic
  {
    if Utf8Len(req.creditCard.number) < 4 then SlicePanic
    else match ValidateAndCharge(req.amount, req.creditCard, now, transactionId)
      case Ok(id) => Charged(id)
      case Err(e) => Declined(e)
  }
}
