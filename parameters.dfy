/**
 * The parameter builders: each validates its inputs and then emits the named, typed
 * fields the data store's statement placeholders expect, or throws the validator's
 * message without producing anything.
 */
module Parameters {
  import opened JsValues
  import opened Validation

  /** `Buffer.from(hex, 'hex')`, kept uninterpreted. */
  datatype Blob = Blob(hex: string)

  /** The typed value of a field: `{blobValue}`, `{doubleValue}`, `{stringValue}` or `{stringValue, isNull}`. */
  datatype Value =
    | BlobValue(blob: Blob)
    | DoubleValue(number: int)
    | StringValue(text: string)
    | NullableStringValue(nullable: Option<string>, isNull: bool)

  /** `{ name, value }` */
  datatype Field = Field(name: string, value: Value)

  function Names(fields: seq<Field>): (names: seq<string>)
    ensures |names| == |fields|
    ensures forall i :: 0 <= i < |fields| ==> names[i] == fields[i].name
  {
    seq(|fields|, i requires 0 <= i < |fields| => fields[i].name)
  }

  const PaymentFieldNames: seq<string> :=
    ["payerId", "payeeId", "paymentAmount", "interactionTypeId", "paymentId",
     "datePaid", "ledgerId", "developerId", "paymentMethod", "paymentStatus"]

  const FedNowFieldNames: seq<string> := ["fedNowPaymentId", "payorBankAccountId", "payeeBankAccountId"]

  const LedgerEntryFieldNames: seq<string> :=
    ["payerId", "payeeId", "amount", "interactionTypeId", "ledgerId", "developerId"]

  const PursFieldNames: seq<string> := ["transactionId", "ledgerId"]

  // ----- generateParameters ------------------------------------------------

  /** A real-time (FedNow) payment of a positive amount is not settled yet. */
  predicate IsPendingFedNow(paymentMethod: JsValue, amount: JsValue)
  {
    paymentMethod == Num(0) && AboveZero(amount)
  }

  /**
   * The payment record's parameters. `now` stands for the current time already
   * formatted as `YYYY-MM-DD HH:MM:SS`.
   */
  function GenerateParameters(payor: JsValue, payee: JsValue, amount: JsValue, interactionType: JsValue,
                              paymentID: JsValue, paymentMethod: JsValue, ledgerEntryID: JsValue, dev: JsValue,
                              now: string): (r: Outcome<seq<Field>>)
    ensures var verdict := Judge(PaymentRules(payor, payee, amount, interactionType, paymentID, paymentMethod, ledgerEntryID, dev));
      (r.Throw? <==> !verdict.flag) && (r.Throw? ==> r.message == verdict.error)
    ensures r.Ok? ==> Names(r.value) == PaymentFieldNames
    ensures r.Ok? ==>
      && payor.Str? && payee.Str? && amount.Num? && interactionType.Num? && paymentID.Str?
      && paymentMethod.Num? && ledgerEntryID.Str? && dev.Str?
      && r.value[0].value == BlobValue(Blob(payor.s))
      && r.value[1].value == BlobValue(Blob(payee.s))
      && r.value[2].value == DoubleValue(amount.n)
      && r.value[3].value == DoubleValue(interactionType.n)
      && r.value[4].value == BlobValue(Blob(paymentID.s))
      && r.value[6].value == BlobValue(Blob(ledgerEntryID.s))
      && r.value[7].value == BlobValue(Blob(dev.s))
      && r.value[8].value == DoubleValue(paymentMethod.n)
    // datePaid is explicitly null exactly for a pending FedNow payment, otherwise it is the timestamp
    ensures r.Ok? ==>
      && r.value[5].value.NullableStringValue?
      && (r.value[5].value.isNull <==> IsPendingFedNow(paymentMethod, amount))
      && (r.value[5].value.nullable == None <==> IsPendingFedNow(paymentMethod, amount))
      && (!IsPendingFedNow(paymentMethod, amount) ==> r.value[5].value.nullable == Some(now))
    // paymentStatus is "completed" exactly when the method is not FedNow or the amount is 0
    ensures r.Ok? ==>
      && (r.value[9].value == StringValue("completed") || r.value[9].value == StringValue("pending"))
      && (r.value[9].value == StringValue("completed") <==> paymentMethod != Num(0) || amount == Num(0))
  {
    var rules := PaymentRules(payor, payee, amount, interactionType, paymentID, paymentMethod, ledgerEntryID, dev);
    var verdict := Judge(rules);
    if !verdict.flag then Throw(verdict.error)
    else
      ValidateInputAccepts(payor, payee, amount, interactionType, paymentID, paymentMethod, ledgerEntryID, dev);
      var pending := paymentMethod == Num(0) && AboveZero(amount);
      Ok([ Field("payerId", BlobValue(Blob(payor.s))),
           Field("payeeId", BlobValue(Blob(payee.s))),
           Field("paymentAmount", DoubleValue(amount.n)),
           Field("interactionTypeId", DoubleValue(interactionType.n)),
           Field("paymentId", BlobValue(Blob(paymentID.s))),
           Field("datePaid", NullableStringValue(if pending then None else Some(now), pending)),
           Field("ledgerId", BlobValue(Blob(ledgerEntryID.s))),
           Field("developerId", BlobValue(Blob(dev.s))),
           Field("paymentMethod", DoubleValue(paymentMethod.n)),
           Field("paymentStatus", StringValue(if paymentMethod != Num(0) || amount == Num(0) then "completed" else "pending")) ])
  }

  /**
   * Once validation has passed the amount is a positive number, so the zero-amount
   * alternatives of datePaid and paymentStatus never decide anything: the payment is
   * pending (null date) exactly when it is a FedNow payment, and completed exactly when
   * it is a card payment.
   */
  lemma ValidatedPaymentStatus(payor: JsValue, payee: JsValue, amount: JsValue, interactionType: JsValue,
                               paymentID: JsValue, paymentMethod: JsValue, ledgerEntryID: JsValue, dev: JsValue,
                               now: string)
    requires GenerateParameters(payor, payee, amount, interactionType, paymentID, paymentMethod, ledgerEntryID, dev, now).Ok?
    ensures amount.Num? && amount.n > 0
    ensures var fields := GenerateParameters(payor, payee, amount, interactionType, paymentID, paymentMethod, ledgerEntryID, dev, now).value;
      && (fields[5].value.isNull <==> paymentMethod == Num(0))
      && (fields[9].value == StringValue("completed") <==> paymentMethod == Num(1))
      && (fields[9].value == StringValue("pending") <==> paymentMethod == Num(0))
  {
    ValidateInputAccepts(payor, payee, amount, interactionType, paymentID, paymentMethod, ledgerEntryID, dev);
  }

  /**
   * A zero amount never gets past validation: generateParameters throws, and when the
   * ledger-entry id and developer id are strings the message is the amount rule's.
   */
  lemma ZeroAmountRejected(payor: JsValue, payee: JsValue, interactionType: JsValue, paymentID: JsValue,
                           paymentMethod: JsValue, ledgerEntryID: JsValue, dev: JsValue, now: string)
    ensures var r := GenerateParameters(payor, payee, Num(0), interactionType, paymentID, paymentMethod, ledgerEntryID, dev, now);
      && r.Throw?
      && (ledgerEntryID.Str? && dev.Str? ==> r.message == AmountNotPositive)
  {
    var rules := PaymentRules(payor, payee, Num(0), interactionType, paymentID, paymentMethod, ledgerEntryID, dev);
    JudgeReports(rules);
    assert rules[7].violated;
    if ledgerEntryID.Str? && dev.Str? {
      var i :| IsLastViolation(rules, i) && Judge(rules).error == rules[i].message;
      assert i == 7;
    }
  }

  // ----- generateFedNowParameters ------------------------------------------

  /** A JavaScript array of fields, which callers share and builders push onto. */
  class ParameterList {
    var fields: seq<Field>

    constructor (fields: seq<Field>)
      ensures this.fields == fields
    {
      this.fields := fields;
    }
  }

  function FedNowFields(fedNowPaymentID: string, payorBankAccountID: string, payeeBankAccountID: string): (fields: seq<Field>)
    ensures Names(fields) == FedNowFieldNames
  {
    [ Field("fedNowPaymentId", BlobValue(Blob(fedNowPaymentID))),
      Field("payorBankAccountId", BlobValue(Blob(payorBankAccountID))),
      Field("payeeBankAccountId", BlobValue(Blob(payeeBankAccountID))) ]
  }

  /** What generateFedNowParameters pushes for a string FedNow payment id: the three fields, or what it throws. */
  function FedNowBuild(fedNowPaymentID: string, payorBankAccountID: JsValue, payeeBankAccountID: JsValue)
    : (r: Outcome<seq<Field>>)
    ensures r.Ok? <==> payorBankAccountID.Str? && payeeBankAccountID.Str?
    ensures r.Throw? ==> r.message == (if !payeeBankAccountID.Str? then PayeeBankAccountIdNotString
                                       else PayorBankAccountIdNotString)
    ensures r.Ok? ==> Names(r.value) == FedNowFieldNames
  {
    var verdict := Judge(FedNowRules(Str(fedNowPaymentID), payorBankAccountID, payeeBankAccountID));
    FedNowVerdict(Str(fedNowPaymentID), payorBankAccountID, payeeBankAccountID);
    if !verdict.flag then Throw(verdict.error)
    else Ok(FedNowFields(fedNowPaymentID, payorBankAccountID.s, payeeBankAccountID.s))
  }

  /**
   * Validates, then pushes the three FedNow fields onto the caller's list and returns
   * that same list; on a validation failure it throws before touching the list.
   */
  method GenerateFedNowParameters(params: ParameterList, fedNowPaymentID: JsValue,
                                  payorBankAccountID: JsValue, payeeBankAccountID: JsValue)
    returns (r: Outcome<ParameterList>)
    modifies params
    ensures var verdict := Judge(FedNowRules(fedNowPaymentID, payorBankAccountID, payeeBankAccountID));
      (r.Throw? <==> !verdict.flag) && (r.Throw? ==> r.message == verdict.error)
    ensures r.Throw? ==> params.fields == old(params.fields)
    ensures r.Ok? ==>
      && r.value == params
      && fedNowPaymentID.Str? && payorBankAccountID.Str? && payeeBankAccountID.Str?
      && params.fields == old(params.fields) + FedNowBuild(fedNowPaymentID.s, payorBankAccountID, payeeBankAccountID).value
  {
    var verdict := ValidateFedNowInput(fedNowPaymentID, payorBankAccountID, payeeBankAccountID);
    if !verdict.flag {
      return Throw(verdict.error);
    }
    FedNowVerdict(fedNowPaymentID, payorBankAccountID, payeeBankAccountID);
    params.fields := params.fields + FedNowFields(fedNowPaymentID.s, payorBankAccountID.s, payeeBankAccountID.s);
    r := Ok(params);
  }

  /** Pushing the FedNow fields keeps every earlier field where it was. */
  lemma FedNowExtends(before: seq<Field>, fedNowPaymentID: string, payorBankAccountID: string, payeeBankAccountID: string)
    ensures var after := before + FedNowFields(fedNowPaymentID, payorBankAccountID, payeeBankAccountID);
      && |after| == |before| + 3
      && after[..|before|] == before
      && Names(after) == Names(before) + FedNowFieldNames
  {
    var after := before + FedNowFields(fedNowPaymentID, payorBankAccountID, payeeBankAccountID);
    assert Names(after) == Names(before) + Names(FedNowFields(fedNowPaymentID, payorBankAccountID, payeeBankAccountID));
  }

  // ----- generateLedgerEntryParameters -------------------------------------

  /** The ledger-entry record's parameters; the same builder serves the promotion entry. */
  function GenerateLedgerEntryParameters(payor: JsValue, payee: JsValue, promoAmount: JsValue, interactionType: JsValue,
                                         ledgerEntryID: JsValue, dev: JsValue): (r: Outcome<seq<Field>>)
    ensures var verdict := Judge(LedgerEntryRules(payor, payee, promoAmount, interactionType, ledgerEntryID, dev));
      (r.Throw? <==> !verdict.flag) && (r.Throw? ==> r.message == verdict.error)
    ensures r.Ok? ==> Names(r.value) == LedgerEntryFieldNames
    ensures r.Ok? ==>
      && payor.Str? && payee.Str? && promoAmount.Num? && promoAmount.n >= 0 && interactionType.Num?
      && ledgerEntryID.Str? && dev.Str?
      && r.value[0].value == BlobValue(Blob(payor.s))
      && r.value[1].value == BlobValue(Blob(payee.s))
      && r.value[2].value == DoubleValue(promoAmount.n)
      && r.value[3].value == DoubleValue(interactionType.n)
      && r.value[4].value == BlobValue(Blob(ledgerEntryID.s))
      && r.value[5].value == BlobValue(Blob(dev.s))
  {
    var verdict := Judge(LedgerEntryRules(payor, payee, promoAmount, interactionType, ledgerEntryID, dev));
    if !verdict.flag then Throw(verdict.error)
    else
      ValidateLedgerEntryAccepts(payor, payee, promoAmount, interactionType, ledgerEntryID, dev);
      Ok([ Field("payerId", BlobValue(Blob(payor.s))),
           Field("payeeId", BlobValue(Blob(payee.s))),
           Field("amount", DoubleValue(promoAmount.n)),
           Field("interactionTypeId", DoubleValue(interactionType.n)),
           Field("ledgerId", BlobValue(Blob(ledgerEntryID.s))),
           Field("developerId", BlobValue(Blob(dev.s))) ])
  }

  // ----- generatePursPaymentParameters -------------------------------------

  function PursRow(pursTransactionID: string, ledgerEntryID: string): (row: seq<Field>)
    ensures Names(row) == PursFieldNames
  {
    [ Field("transactionId", BlobValue(Blob(pursTransactionID))),
      Field("ledgerId", BlobValue(Blob(ledgerEntryID))) ]
  }

  /** `ledgeEntries.map(...)`: one row per ledger entry, in order. */
  function PursRows(pursTransactionID: string, ledgeEntries: seq<string>): (rows: seq<seq<Field>>)
    ensures |rows| == |ledgeEntries|
    ensures forall i :: 0 <= i < |rows| ==> rows[i] == PursRow(pursTransactionID, ledgeEntries[i])
  {
    if ledgeEntries == [] then []
    else PursRows(pursTransactionID, ledgeEntries[..|ledgeEntries| - 1])
         + [PursRow(pursTransactionID, ledgeEntries[|ledgeEntries| - 1])]
  }

  function GeneratePursPaymentParameters(ledgeEntries: seq<string>, pursTransactionID: JsValue): (r: Outcome<seq<seq<Field>>>)
    ensures r.Throw? <==> !pursTransactionID.Str?
    ensures r.Throw? ==> r.message == PursTransactionIdNotString
    ensures r.Ok? ==> |r.value| == |ledgeEntries|
    ensures r.Ok? ==> forall i :: 0 <= i < |r.value| ==>
      r.value[i] == [ Field("transactionId", BlobValue(Blob(pursTransactionID.s))),
                      Field("ledgerId", BlobValue(Blob(ledgeEntries[i]))) ]
  {
    if !pursTransactionID.Str? then Throw(PursTransactionIdNotString)
    else Ok(PursRows(pursTransactionID.s, ledgeEntries))
  }

  /** The ledger id carried by a row, when the row has the transaction-row shape. */
  function RowLedgerId(row: seq<Field>): Option<string>
  {
    if |row| == 2 && row[1].value.BlobValue? then Some(row[1].value.blob.hex) else None
  }

  function RowsLedgerIds(rows: seq<seq<Field>>): seq<Option<string>>
  {
    if rows == [] then [] else RowsLedgerIds(rows[..|rows| - 1]) + [RowLedgerId(rows[|rows| - 1])]
  }

  function Wrap(ids: seq<string>): seq<Option<string>>
  {
    if ids == [] then [] else Wrap(ids[..|ids| - 1]) + [Some(ids[|ids| - 1])]
  }

  /** Reading the ledger ids back out of the parameter sets gives the entries, in order. */
  lemma {:induction false} PursRowsRoundTrip(pursTransactionID: string, ledgeEntries: seq<string>)
    ensures RowsLedgerIds(PursRows(pursTransactionID, ledgeEntries)) == Wrap(ledgeEntries)
  {
    if ledgeEntries != [] {
      var n := |ledgeEntries| - 1;
      var rows := PursRows(pursTransactionID, ledgeEntries);
      PursRowsRoundTrip(pursTransactionID, ledgeEntries[..n]);
      assert rows[..n] == PursRows(pursTransactionID, ledgeEntries[..n]);
    }
  }
}
