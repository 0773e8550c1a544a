/**
 * The payment service's acceptance rules: a card must pass the validator, be a VISA or
 * MasterCard, and not have expired. The validator, the clock and the transaction id
 * generator are inputs.
 */
module Payment {
  import opened Wrappers
  import Text

  datatype Money = Money(currencyCode: string, units: int, nanos: int)

  datatype CreditCardInfo = CreditCardInfo(
    creditCardNumber: string,
    creditCardCvv: int,
    creditCardExpirationYear: int,
    creditCardExpirationMonth: int)

  datatype ChargeRequest = ChargeRequest(amount: Money, creditCard: CreditCardInfo)
  datatype ChargeResponse = ChargeResponse(transactionId: string)

  /** What the card validator library reports about a card number. */
  datatype CardDetails = CardDetails(cardType: string, valid: bool)

  /** The CreditCardError subclasses charge can throw. */
  datatype CreditCardError =
    | InvalidCreditCard
    | UnacceptedCreditCard(cardType: string)
    | ExpiredCreditCard(number: string, month: int, year: int)

  /** Every CreditCardError carries the invalid-argument code. */
  function Code(e: CreditCardError): int
  {
    400
  }

  /** JavaScript's `s.replace(c, '')` with a one-character pattern: only the first occurrence goes. */
  function RemoveFirst(s: string, c: char): (r: string)
    ensures c !in s ==> r == s
  {
    if |s| == 0 then s
    else if s[0] == c then s[1..]
    else [s[0]] + RemoveFirst(s[1..], c)
  }

  /** Position `i` holds the first `c` of `s`. */
  predicate FirstAt(s: string, c: char, i: int)
  {
    0 <= i < |s| && s[i] == c && c !in s[..i]
  }

  /** JavaScript's `s.substr(-4)`: the last four characters, or all of a shorter string. */
  function LastFour(s: string): (r: string)
    ensures |r| == if |s| < 4 then |s| else 4
    ensures s == s[..|s| - |r|] + r
  {
    if |s| < 4 then s else s[|s| - 4..]
  }

  const UnacceptedHead := "Sorry, we cannot process "
  const UnacceptedTail := " credit cards. Only VISA or MasterCard is accepted."
  const ExpiredHead := "Your credit card (ending "
  const ExpiredMiddle := ") expired on "

  /**
   * The error text: an unaccepted card names its type, an expired one its last four
   * digits and its month/year.
   */
  function Message(e: CreditCardError): (r: string)
    ensures e.InvalidCreditCard? ==> r == "Credit card info is invalid"
    ensures e.UnacceptedCreditCard? ==>
      Between(r, UnacceptedHead, e.cardType, UnacceptedTail)
    ensures e.ExpiredCreditCard? ==>
      Between(r, ExpiredHead, LastFour(e.number),
              ExpiredMiddle + Text.IntToString(e.month) + "/" + Text.IntToString(e.year))
  {
    match e {
      case InvalidCreditCard => "Credit card info is invalid"
      case UnacceptedCreditCard(cardType) =>
        Framed(UnacceptedHead, cardType, UnacceptedTail);
        UnacceptedHead + cardType + UnacceptedTail
      case ExpiredCreditCard(number, month, year) =>
        var tail := ExpiredMiddle + Text.IntToString(month) + "/" + Text.IntToString(year);
        Framed(ExpiredHead, LastFour(number), tail);
        ExpiredHead + LastFour(number) + tail
    }
  }

  /** `r` shows `middle` right after `head`, and ends with `tail`. */
  predicate Between(r: string, head: string, middle: string, tail: string)
  {
    |r| == |head| + |middle| + |tail|
    && r[..|head|] == head
    && r[|head|..|head| + |middle|] == middle
    && r[|r| - |tail|..] == tail
  }

  lemma Framed(head: string, middle: string, tail: string)
    ensures Between(head + middle + tail, head, middle, tail)
  {
    var r := head + middle + tail;
    assert r[..|head|] == head;
    assert r[|head|..|head| + |middle|] == middle;
    assert r[|r| - |tail|..] == tail;
  }

  predicate Accepted(cardType: string)
  {
    cardType == "visa" || cardType == "mastercard"
  }

  /** The expiry month lies before the current month. */
  predicate Expired(card: CreditCardInfo, currentYear: int, currentMonth: int)
  {
    currentYear * 12 + currentMonth > card.creditCardExpirationYear * 12 + card.creditCardExpirationMonth
  }

  /**
   * charge: the validator's verdict first, then the card type, then the expiry date;
   * a card that passes all three is charged under the transaction id `txId`.
   */
  function Charge(req: ChargeRequest, validate: string -> CardDetails,
                  currentYear: int, currentMonth: int, txId: string): (r: Result<ChargeResponse, CreditCardError>)
    ensures r.Success? ==>
      r.value.transactionId == txId && validate(req.creditCard.creditCardNumber).valid
      && Accepted(validate(req.creditCard.creditCardNumber).cardType)
      && !Expired(req.creditCard, currentYear, currentMonth)
    ensures r.Failure? && r.error.UnacceptedCreditCard? ==>
      validate(req.creditCard.creditCardNumber).valid && !Accepted(r.error.cardType)
      && r.error.cardType == validate(req.creditCard.creditCardNumber).cardType
    ensures r.Failure? && r.error.ExpiredCreditCard? ==>
      Expired(req.creditCard, currentYear, currentMonth)
      && r.error.month == req.creditCard.creditCardExpirationMonth
      && r.error.year == req.creditCard.creditCardExpirationYear
      && r.error.number == RemoveFirst(req.creditCard.creditCardNumber, '-')
    ensures r == Failure(InvalidCreditCard) <==> !validate(req.creditCard.creditCardNumber).valid
  {
    var number := req.creditCard.creditCardNumber;
    var details := validate(number);
    if !details.valid then Failure(InvalidCreditCard)
    else if !Accepted(details.cardType) then Failure(UnacceptedCreditCard(details.cardType))
    else if Expired(req.creditCard, currentYear, currentMonth) then
      Failure(ExpiredCreditCard(RemoveFirst(number, '-'),
                                req.creditCard.creditCardExpirationMonth,
                                req.creditCard.creditCardExpirationYear))
    else Success(ChargeResponse(txId))
  }

  /** A charge goes through exactly when the card is valid, accepted and not expired. */
  lemma ChargeSucceedsExactly(req: ChargeRequest, validate: string -> CardDetails,
                              currentYear: int, currentMonth: int, txId: string)
    ensures Charge(req, validate, currentYear, currentMonth, txId).Success? <==>
      validate(req.creditCard.creditCardNumber).valid
      && Accepted(validate(req.creditCard.creditCardNumber).cardType)
      && !Expired(req.creditCard, currentYear, currentMonth)
    ensures Charge(req, validate, currentYear, currentMonth, txId).Success? ==>
      Charge(req, validate, currentYear, currentMonth, txId).value.transactionId == txId
  {
  }

  /** An invalid card is refused as invalid whatever its type or expiry date. */
  lemma InvalidCheckedFirst(req: ChargeRequest, validate: string -> CardDetails,
                            currentYear: int, currentMonth: int, txId: string)
    requires !validate(req.creditCard.creditCardNumber).valid
    ensures Charge(req, validate, currentYear, currentMonth, txId) == Failure(InvalidCreditCard)
  {
  }

  /** A valid card of another type is refused as unaccepted, before any expiry check. */
  lemma UnacceptedBeforeExpiry(req: ChargeRequest, validate: string -> CardDetails,
                               currentYear: int, currentMonth: int, txId: string)
    requires validate(req.creditCard.creditCardNumber).valid
    requires !Accepted(validate(req.creditCard.creditCardNumber).cardType)
    ensures Charge(req, validate, currentYear, currentMonth, txId)
      == Failure(UnacceptedCreditCard(validate(req.creditCard.creditCardNumber).cardType))
  {
  }

  /**
   * A valid card of an accepted type past its expiry month is refused as expired,
   * carrying the number without its first dash and the card's month and year.
   */
  lemma ExpiredCardRefused(req: ChargeRequest, validate: string -> CardDetails,
                           currentYear: int, currentMonth: int, txId: string)
    requires validate(req.creditCard.creditCardNumber).valid
    requires Accepted(validate(req.creditCard.creditCardNumber).cardType)
    requires Expired(req.creditCard, currentYear, currentMonth)
    ensures Charge(req, validate, currentYear, currentMonth, txId)
      == Failure(ExpiredCreditCard(RemoveFirst(req.creditCard.creditCardNumber, '-'),
                                   req.creditCard.creditCardExpirationMonth,
                                   req.creditCard.creditCardExpirationYear))
  {
  }

  /** A card is still good during its expiry month and refused from the month after. */
  lemma ExpiryBoundary(card: CreditCardInfo)
    requires 1 <= card.creditCardExpirationMonth <= 12
    ensures !Expired(card, card.creditCardExpirationYear, card.creditCardExpirationMonth)
    ensures card.creditCardExpirationMonth < 12 ==>
      Expired(card, card.creditCardExpirationYear, card.creditCardExpirationMonth + 1)
    ensures card.creditCardExpirationMonth == 12 ==>
      Expired(card, card.creditCardExpirationYear + 1, 1)
  {
  }

  /** The amount is only logged: it never changes the outcome. */
  lemma AmountIrrelevant(req: ChargeRequest, other: Money, validate: string -> CardDetails,
                         currentYear: int, currentMonth: int, txId: string)
    ensures Charge(req.(amount := other), validate, currentYear, currentMonth, txId)
      == Charge(req, validate, currentYear, currentMonth, txId)
  {
  }

  /** Every refusal is an invalid-argument error. */
  lemma RefusalsAreInvalidArgument(req: ChargeRequest, validate: string -> CardDetails,
                                   currentYear: int, currentMonth: int, txId: string)
    requires Charge(req, validate, currentYear, currentMonth, txId).Failure?
    ensures Code(Charge(req, validate, currentYear, currentMonth, txId).error) == 400
  {
  }

  /** Only the first occurrence of `c` is removed; everything else stays in place. */
  lemma {:induction false} RemoveFirstAt(s: string, c: char, i: int)
    requires FirstAt(s, c, i)
    ensures RemoveFirst(s, c) == s[..i] + s[i + 1..]
  {
    if i > 0 {
      assert s[0] in s[..i];
      assert FirstAt(s[1..], c, i - 1) by {
        assert s[1..][..i - 1] == s[..i][1..];
      }
      RemoveFirstAt(s[1..], c, i - 1);
      assert s[..i] == [s[0]] + s[1..][..i - 1];
    }
  }

  /**
   * Removing a dash that lies before the last five characters leaves the last four
   * characters, which the expiry message shows, unchanged.
   */
  lemma DashRemovalKeepsEnding(number: string, i: int)
    requires FirstAt(number, '-', i) && i + 5 <= |number|
    ensures LastFour(RemoveFirst(number, '-')) == LastFour(number)
  {
    RemoveFirstAt(number, '-', i);
    var r := number[..i] + number[i + 1..];
    assert |r| == |number| - 1;
    assert r[|r| - 4..] == number[i + 1..][|number| - i - 5..];
    assert number[i + 1..][|number| - i - 5..] == number[|number| - 4..];
  }
}
