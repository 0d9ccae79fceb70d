/**
 * The slice of JavaScript value semantics the parameter builders depend on:
 * the `typeof` tests ('string' / 'number'), strict equality with a number,
 * relational comparison against 0 (which coerces its operand to a number),
 * and the outcome of a call that may `throw new Error(message)`.
 */
module JsValues {

  datatype Option<+T> = None | Some(value: T)

  /**
   * The messages of the Errors the core raises. `NoError` is the empty message of an
   * accepting validator; `Text` gives each message's wording.
   */
  datatype Message =
    | NoError
    | PayorNotString | PayeeNotString | AmountNotNumber | InteractionTypeNotNumber
    | PaymentIdNotString | PaymentMethodNotNumber | PaymentMethodNotZeroOrOne | AmountNotPositive
    | LedgerEntryIdNotString | DevNotString
    | FedNowPaymentIdNotString | PayorBankAccountIdNotString | PayeeBankAccountIdNotString
    | PromoAmountNotNumber | PromoAmountNegative
    | PursTransactionIdNotString

  function Text(m: Message): string
  {
    match m
    case NoError => ""
    case PayorNotString => "payor parameter must be a string"
    case PayeeNotString => "payee parameter must be a string"
    case AmountNotNumber => "amount parameter must be a number"
    case InteractionTypeNotNumber => "interactionType parameter must be a number"
    case PaymentIdNotString => "paymentID parameter must be a string"
    case PaymentMethodNotNumber => "paymentMethod parameter must be a number"
    case PaymentMethodNotZeroOrOne => "paymentMethod parameter must be 0 or 1"
    case AmountNotPositive => "amount parameter must be greater than 0"
    case LedgerEntryIdNotString => "ledgerEntryID parameter must be a string"
    case DevNotString => "dev parameter must be a string"
    case FedNowPaymentIdNotString => "fedNowPaymentID parameter must be a string"
    case PayorBankAccountIdNotString => "payorBankAccountID parameter must be a string"
    case PayeeBankAccountIdNotString => "payeeBankAccountID parameter must be a string"
    case PromoAmountNotNumber => "promoAmount parameter must be a number"
    case PromoAmountNegative => "promoAmount parameter must be greater than 0"
    case PursTransactionIdNotString => "pursTransactionID must be a string"
  }

  /** A call that either returns a value or throws an Error carrying a message. */
  datatype Outcome<+T> = Ok(value: T) | Throw(message: Message)

  /**
   * A JavaScript value as far as the builders can tell them apart.
   * `Str` is a value whose `typeof` is 'string', `Num` one whose `typeof` is 'number'
   * (integers only), and `Other` any other value whose conversion to a number succeeds
   * (null, undefined, a boolean, an ordinary object), carrying the number it coerces to,
   * or None when it coerces to NaN. A value whose conversion throws a TypeError (a Symbol,
   * an object without a primitive value such as `Object.create(null)`) is not represented.
   */
  datatype JsValue = Str(s: string) | Num(n: int) | Other(coerced: Option<int>)

  predicate IsDigit(c: char) { '0' <= c <= '9' }

  predicate AllDigits(s: string) { forall i :: 0 <= i < |s| ==> IsDigit(s[i]) }

  /** The value of a string of decimal digits, most significant first. */
  function DigitsValue(s: string): (n: nat)
    requires AllDigits(s)
  {
    if s == [] then 0
    else DigitsValue(s[..|s| - 1]) * 10 + (s[|s| - 1] - '0') as int
  }

  /**
   * `Number(s)` for the strings the model distinguishes: the empty string is 0, an
   * optional sign ('+' or '-') followed by one or more decimal digits is that integer,
   * and the model treats every other string as NaN (None).
   */
  function StringToNumber(s: string): (r: Option<int>)
    ensures s == "" ==> r == Some(0)
    ensures (|s| > 0 && !IsDigit(s[0]) && s[0] != '-' && s[0] != '+') ==> r == None
    ensures (s == "+" || s == "-") ==> r == None
  {
    if s == "" then Some(0)
    else if AllDigits(s) then Some(DigitsValue(s))
    else if s[0] == '+' && |s| > 1 && AllDigits(s[1..]) then Some(DigitsValue(s[1..]))
    else if s[0] == '-' && |s| > 1 && AllDigits(s[1..]) then
      var magnitude: int := DigitsValue(s[1..]);
      Some(-magnitude)
    else None
  }

  /** A leading '+' leaves a run of digits its value. */
  lemma PlusDigits(digits: string)
    requires |digits| > 0 && AllDigits(digits)
    ensures StringToNumber("+" + digits) == Some(DigitsValue(digits))
  {
    var plus := "+" + digits;
    assert plus[1..] == digits;
    assert !IsDigit(plus[0]);
  }

  /** A leading '-' negates a run of digits. */
  lemma MinusDigits(digits: string)
    requires |digits| > 0 && AllDigits(digits)
    ensures StringToNumber("-" + digits) == Some(-(DigitsValue(digits) as int))
  {
    var minus := "-" + digits;
    assert minus[1..] == digits;
    assert !IsDigit(minus[0]);
  }

  /** A run of digits coerces to its value, with a leading '+' to the same value, with a leading '-' to its negation. */
  lemma SignedDigits(digits: string)
    requires |digits| > 0 && AllDigits(digits)
    ensures StringToNumber(digits) == Some(DigitsValue(digits))
    ensures StringToNumber("+" + digits) == StringToNumber(digits)
    ensures StringToNumber("-" + digits) == Some(-(DigitsValue(digits) as int))
  {
    PlusDigits(digits);
    MinusDigits(digits);
  }

  /** JavaScript's ToNumber, with NaN as None. */
  function ToNumber(v: JsValue): Option<int>
  {
    match v
    case Str(s) => StringToNumber(s)
    case Num(n) => Some(n)
    case Other(c) => c
  }

  /** `v <= 0`: false whenever v coerces to NaN. */
  predicate AtMostZero(v: JsValue)
  {
    match ToNumber(v)
    case Some(n) => n <= 0
    case None => false
  }

  /** `v < 0` */
  predicate BelowZero(v: JsValue)
  {
    match ToNumber(v)
    case Some(n) => n < 0
    case None => false
  }

  /** `v > 0` */
  predicate AboveZero(v: JsValue)
  {
    match ToNumber(v)
    case Some(n) => n > 0
    case None => false
  }

  /** `i < v` for an integer loop counter i. */
  predicate Below(i: int, v: JsValue)
  {
    match ToNumber(v)
    case Some(n) => i < n
    case None => false
  }

  /** For a value of `typeof` 'number' the coercing comparisons are the plain ones. */
  lemma NumberComparisons(n: int)
    ensures AtMostZero(Num(n)) <==> n <= 0
    ensures BelowZero(Num(n)) <==> n < 0
    ensures AboveZero(Num(n)) <==> n > 0
  {
  }

  /**
   * A string that is not numeric compares false against 0 in every direction, so
   * no range rule fires on it (`'amount' <= 0` is false in JavaScript).
   */
  lemma NaNComparesFalse(v: JsValue)
    requires ToNumber(v) == None
    ensures !AtMostZero(v) && !BelowZero(v) && !AboveZero(v)
    ensures forall i :: !Below(i, v)
  {
  }
}
