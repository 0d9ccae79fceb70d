/**
 * The three input validators. Each one starts from `{flag: true, error: ''}` and
 * runs a fixed list of rules in order; every rule that fails overwrites the record
 * with `flag = false` and its own message, so the message of the LAST failing rule
 * is the one the caller sees.
 */
module Validation {
  import opened JsValues

  /** One check of a validator: whether the input violates it, and its message. */
  datatype Rule = Rule(violated: bool, message: Message)

  /** The `{flag, error}` record the validators return. */
  datatype Verdict = Verdict(flag: bool, error: Message)

  const Accepted := Verdict(true, NoError)

  predicate Passes(rules: seq<Rule>)
  {
    forall i :: 0 <= i < |rules| ==> !rules[i].violated
  }

  /** Rule i fails and no later rule does. */
  predicate IsLastViolation(rules: seq<Rule>, i: int)
  {
    0 <= i < |rules| && rules[i].violated &&
    forall j :: i < j < |rules| ==> !rules[j].violated
  }

  /**
   * What a validator reports: accepted when every rule passes, otherwise rejected with
   * the message of some rule that fails while every rule after it passes.
   */
  ghost predicate Reports(rules: seq<Rule>, v: Verdict)
  {
    (v.flag <==> Passes(rules)) &&
    (v.flag ==> v.error == NoError) &&
    (!v.flag ==> exists i :: IsLastViolation(rules, i) && v.error == rules[i].message)
  }

  /** The verdict after running `rules` in order: the last violation wins. */
  function Judge(rules: seq<Rule>): Verdict
    decreases |rules|
  {
    if rules == [] then Accepted
    else if rules[|rules| - 1].violated then Verdict(false, rules[|rules| - 1].message)
    else Judge(rules[..|rules| - 1])
  }

  lemma {:induction false} JudgeReports(rules: seq<Rule>)
    ensures Reports(rules, Judge(rules))
    decreases |rules|
  {
    if rules != [] {
      var n := |rules| - 1;
      if rules[n].violated {
        assert IsLastViolation(rules, n);
      } else {
        var prefix := rules[..n];
        JudgeReports(prefix);
        assert forall i :: 0 <= i < n ==> prefix[i] == rules[i];
        if !Judge(prefix).flag {
          var i :| IsLastViolation(prefix, i) && Judge(prefix).error == prefix[i].message;
          assert IsLastViolation(rules, i);
        }
      }
    }
  }

  /** A verdict that reports the rules correctly is the one Judge computes: only one exists. */
  lemma ReportsDetermines(rules: seq<Rule>, v: Verdict)
    requires Reports(rules, v)
    ensures v == Judge(rules)
  {
    JudgeReports(rules);
    if !v.flag {
      var i :| IsLastViolation(rules, i) && v.error == rules[i].message;
      var j :| IsLastViolation(rules, j) && Judge(rules).error == rules[j].message;
      assert i == j;
    }
  }

  // ----- validateInput -----------------------------------------------------

  function PaymentRules(payor: JsValue, payee: JsValue, amount: JsValue, interactionType: JsValue,
                        paymentID: JsValue, paymentMethod: JsValue, ledgerEntryID: JsValue,
                        dev: JsValue): seq<Rule>
  {
    [ Rule(!payor.Str?, PayorNotString),
      Rule(!payee.Str?, PayeeNotString),
      Rule(!amount.Num?, AmountNotNumber),
      Rule(!interactionType.Num?, InteractionTypeNotNumber),
      Rule(!paymentID.Str?, PaymentIdNotString),
      Rule(!paymentMethod.Num?, PaymentMethodNotNumber),
      Rule(paymentMethod != Num(0) && paymentMethod != Num(1), PaymentMethodNotZeroOrOne),
      Rule(AtMostZero(amount), AmountNotPositive),
      Rule(!ledgerEntryID.Str?, LedgerEntryIdNotString),
      Rule(!dev.Str?, DevNotString) ]
  }

  method ValidateInput(payor: JsValue, payee: JsValue, amount: JsValue, interactionType: JsValue,
                       paymentID: JsValue, paymentMethod: JsValue, ledgerEntryID: JsValue,
                       dev: JsValue) returns (v: Verdict)
    ensures Reports(PaymentRules(payor, payee, amount, interactionType, paymentID, paymentMethod, ledgerEntryID, dev), v)
    ensures v == Judge(PaymentRules(payor, payee, amount, interactionType, paymentID, paymentMethod, ledgerEntryID, dev))
  {
    ghost var rules := PaymentRules(payor, payee, amount, interactionType, paymentID, paymentMethod, ledgerEntryID, dev);
    ghost var last := -1;
    v := Accepted;
    if !payor.Str? {
      v := Verdict(false, PayorNotString);
      last := 0;
    }
    if !payee.Str? {
      v := Verdict(false, PayeeNotString);
      last := 1;
    }
    if !amount.Num? {
      v := Verdict(false, AmountNotNumber);
      last := 2;
    }
    if !interactionType.Num? {
      v := Verdict(false, InteractionTypeNotNumber);
      last := 3;
    }
    if !paymentID.Str? {
      v := Verdict(false, PaymentIdNotString);
      last := 4;
    }
    if !paymentMethod.Num? {
      v := Verdict(false, PaymentMethodNotNumber);
      last := 5;
    }
    if paymentMethod != Num(0) && paymentMethod != Num(1) {
      v := Verdict(false, PaymentMethodNotZeroOrOne);
      last := 6;
    }
    if AtMostZero(amount) {
      v := Verdict(false, AmountNotPositive);
      last := 7;
    }
    if !ledgerEntryID.Str? {
      v := Verdict(false, LedgerEntryIdNotString);
      last := 8;
    }
    if !dev.Str? {
      v := Verdict(false, DevNotString);
      last := 9;
    }
    if !v.flag {
      assert IsLastViolation(rules, last);
    }
    ReportsDetermines(rules, v);
  }

  /** validateInput accepts exactly the inputs that pass all ten checks. */
  lemma ValidateInputAccepts(payor: JsValue, payee: JsValue, amount: JsValue, interactionType: JsValue,
                             paymentID: JsValue, paymentMethod: JsValue, ledgerEntryID: JsValue, dev: JsValue)
    ensures Judge(PaymentRules(payor, payee, amount, interactionType, paymentID, paymentMethod, ledgerEntryID, dev)).flag
        <==> payor.Str? && payee.Str? && amount.Num? && amount.n > 0 && interactionType.Num? && paymentID.Str?
             && (paymentMethod == Num(0) || paymentMethod == Num(1)) && ledgerEntryID.Str? && dev.Str?
  {
    var rules := PaymentRules(payor, payee, amount, interactionType, paymentID, paymentMethod, ledgerEntryID, dev);
    JudgeReports(rules);
    if Passes(rules) {
      assert !rules[0].violated && !rules[1].violated && !rules[2].violated && !rules[3].violated;
      assert !rules[4].violated && !rules[6].violated && !rules[7].violated && !rules[8].violated;
      assert !rules[9].violated;
    }
  }

  /**
   * With every `typeof` check passing, validateInput still rejects a non-positive amount
   * and a payment method outside {0, 1}; the amount message wins when both fail, since
   * the amount rule comes after the payment-method rule.
   */
  lemma ValidateInputRangeRules(payor: string, payee: string, amount: int, interactionType: int,
                                paymentID: string, paymentMethod: int, ledgerEntryID: string, dev: string)
    ensures var v := Judge(PaymentRules(Str(payor), Str(payee), Num(amount), Num(interactionType),
                                        Str(paymentID), Num(paymentMethod), Str(ledgerEntryID), Str(dev)));
      && (v.flag <==> amount > 0 && (paymentMethod == 0 || paymentMethod == 1))
      && (amount <= 0 ==> v.error == AmountNotPositive)
      && (amount > 0 && paymentMethod != 0 && paymentMethod != 1 ==> v.error == PaymentMethodNotZeroOrOne)
  {
    var rules := PaymentRules(Str(payor), Str(payee), Num(amount), Num(interactionType),
                              Str(paymentID), Num(paymentMethod), Str(ledgerEntryID), Str(dev));
    NumberComparisons(amount);
    JudgeReports(rules);
    var v := Judge(rules);
    if !v.flag {
      var i :| IsLastViolation(rules, i) && v.error == rules[i].message;
      if amount <= 0 {
        assert rules[7].violated;
        assert i == 7;
      } else {
        assert i == 6;
      }
    } else {
      assert !rules[6].violated && !rules[7].violated;
    }
  }

  // ----- validateFedNowInput -----------------------------------------------

  function FedNowRules(fedNowPaymentID: JsValue, payorBankAccountID: JsValue, payeeBankAccountID: JsValue): seq<Rule>
  {
    [ Rule(!fedNowPaymentID.Str?, FedNowPaymentIdNotString),
      Rule(!payorBankAccountID.Str?, PayorBankAccountIdNotString),
      Rule(!payeeBankAccountID.Str?, PayeeBankAccountIdNotString) ]
  }

  method ValidateFedNowInput(fedNowPaymentID: JsValue, payorBankAccountID: JsValue, payeeBankAccountID: JsValue)
    returns (v: Verdict)
    ensures Reports(FedNowRules(fedNowPaymentID, payorBankAccountID, payeeBankAccountID), v)
    ensures v == Judge(FedNowRules(fedNowPaymentID, payorBankAccountID, payeeBankAccountID))
  {
    ghost var rules := FedNowRules(fedNowPaymentID, payorBankAccountID, payeeBankAccountID);
    ghost var last := -1;
    v := Accepted;
    if !fedNowPaymentID.Str? {
      v := Verdict(false, FedNowPaymentIdNotString);
      last := 0;
    }
    if !payorBankAccountID.Str? {
      v := Verdict(false, PayorBankAccountIdNotString);
      last := 1;
    }
    if !payeeBankAccountID.Str? {
      v := Verdict(false, PayeeBankAccountIdNotString);
      last := 2;
    }
    if !v.flag {
      assert IsLastViolation(rules, last);
    }
    ReportsDetermines(rules, v);
  }

  /**
   * validateFedNowInput fails exactly when some argument is not a string, and its
   * message names the last such argument.
   */
  lemma FedNowVerdict(fedNowPaymentID: JsValue, payorBankAccountID: JsValue, payeeBankAccountID: JsValue)
    ensures var v := Judge(FedNowRules(fedNowPaymentID, payorBankAccountID, payeeBankAccountID));
      && (v.flag <==> fedNowPaymentID.Str? && payorBankAccountID.Str? && payeeBankAccountID.Str?)
      && (!payeeBankAccountID.Str? ==> v.error == PayeeBankAccountIdNotString)
      && (payeeBankAccountID.Str? && !payorBankAccountID.Str? ==> v.error == PayorBankAccountIdNotString)
      && (payeeBankAccountID.Str? && payorBankAccountID.Str? && !fedNowPaymentID.Str? ==>
            v.error == FedNowPaymentIdNotString)
  {
    var rules := FedNowRules(fedNowPaymentID, payorBankAccountID, payeeBankAccountID);
    JudgeReports(rules);
    var v := Judge(rules);
    if !v.flag {
      var i :| IsLastViolation(rules, i) && v.error == rules[i].message;
      if !payeeBankAccountID.Str? {
        assert rules[2].violated;
      } else if !payorBankAccountID.Str? {
        assert rules[1].violated && !rules[2].violated;
      }
    } else {
      assert !rules[0].violated && !rules[1].violated && !rules[2].violated;
    }
  }

  // ----- validateLedgerEntryInput -------------------------------------------

  function LedgerEntryRules(payor: JsValue, payee: JsValue, promoAmount: JsValue, interactionType: JsValue,
                            ledgerEntryID: JsValue, dev: JsValue): seq<Rule>
  {
    [ Rule(!payor.Str?, PayorNotString),
      Rule(!payee.Str?, PayeeNotString),
      Rule(!promoAmount.Num?, PromoAmountNotNumber),
      Rule(BelowZero(promoAmount), PromoAmountNegative),
      Rule(!interactionType.Num?, InteractionTypeNotNumber),
      Rule(!ledgerEntryID.Str?, LedgerEntryIdNotString),
      Rule(!dev.Str?, DevNotString) ]
  }

  method ValidateLedgerEntryInput(payor: JsValue, payee: JsValue, promoAmount: JsValue, interactionType: JsValue,
                                  ledgerEntryID: JsValue, dev: JsValue) returns (v: Verdict)
    ensures Reports(LedgerEntryRules(payor, payee, promoAmount, interactionType, ledgerEntryID, dev), v)
    ensures v == Judge(LedgerEntryRules(payor, payee, promoAmount, interactionType, ledgerEntryID, dev))
  {
    ghost var rules := LedgerEntryRules(payor, payee, promoAmount, interactionType, ledgerEntryID, dev);
    ghost var last := -1;
    v := Accepted;
    if !payor.Str? {
      v := Verdict(false, PayorNotString);
      last := 0;
    }
    if !payee.Str? {
      v := Verdict(false, PayeeNotString);
      last := 1;
    }
    if !promoAmount.Num? {
      v := Verdict(false, PromoAmountNotNumber);
      last := 2;
    }
    if BelowZero(promoAmount) {
      v := Verdict(false, PromoAmountNegative);
      last := 3;
    }
    if !interactionType.Num? {
      v := Verdict(false, InteractionTypeNotNumber);
      last := 4;
    }
    if !ledgerEntryID.Str? {
      v := Verdict(false, LedgerEntryIdNotString);
      last := 5;
    }
    if !dev.Str? {
      v := Verdict(false, DevNotString);
      last := 6;
    }
    if !v.flag {
      assert IsLastViolation(rules, last);
    }
    ReportsDetermines(rules, v);
  }

  /** validateLedgerEntryInput accepts exactly the inputs that pass all seven checks. */
  lemma ValidateLedgerEntryAccepts(payor: JsValue, payee: JsValue, promoAmount: JsValue, interactionType: JsValue,
                                   ledgerEntryID: JsValue, dev: JsValue)
    ensures Judge(LedgerEntryRules(payor, payee, promoAmount, interactionType, ledgerEntryID, dev)).flag
        <==> payor.Str? && payee.Str? && promoAmount.Num? && promoAmount.n >= 0 && interactionType.Num?
             && ledgerEntryID.Str? && dev.Str?
  {
    var rules := LedgerEntryRules(payor, payee, promoAmount, interactionType, ledgerEntryID, dev);
    JudgeReports(rules);
    if Passes(rules) {
      assert !rules[0].violated && !rules[1].violated && !rules[2].violated && !rules[3].violated;
      assert !rules[4].violated && !rules[5].violated && !rules[6].violated;
    }
  }

  /**
   * With the other arguments well typed, a promotion amount of 0 is accepted and only a
   * negative one is rejected (with PromoAmountNegative, whose text says "greater than 0").
   */
  lemma LedgerEntryAcceptsZeroPromo(payor: string, payee: string, promoAmount: int, interactionType: int,
                                    ledgerEntryID: string, dev: string)
    ensures var v := Judge(LedgerEntryRules(Str(payor), Str(payee), Num(promoAmount), Num(interactionType),
                                            Str(ledgerEntryID), Str(dev)));
      && (v.flag <==> promoAmount >= 0)
      && (promoAmount < 0 ==> v.error == PromoAmountNegative)
  {
    var rules := LedgerEntryRules(Str(payor), Str(payee), Num(promoAmount), Num(interactionType),
                                  Str(ledgerEntryID), Str(dev));
    NumberComparisons(promoAmount);
    JudgeReports(rules);
    var v := Judge(rules);
    if !v.flag {
      var i :| IsLastViolation(rules, i) && v.error == rules[i].message;
      assert i == 3;
    } else {
      assert !rules[3].violated;
    }
  }

  /**
   * With the other arguments well typed, a positive promotion amount that is not of type
   * number (a numeric string, say) fails on the type rule alone.
   */
  lemma LedgerEntryRejectsUntypedPromo(payor: string, payee: string, promoAmount: JsValue, interactionType: int,
                                       ledgerEntryID: string, dev: string)
    requires AboveZero(promoAmount) && !promoAmount.Num?
    ensures Judge(LedgerEntryRules(Str(payor), Str(payee), promoAmount, Num(interactionType), Str(ledgerEntryID),
                                   Str(dev))) == Verdict(false, PromoAmountNotNumber)
  {
    var rules := LedgerEntryRules(Str(payor), Str(payee), promoAmount, Num(interactionType), Str(ledgerEntryID),
                                  Str(dev));
    JudgeReports(rules);
    assert rules[2].violated;
    var i :| IsLastViolation(rules, i) && Judge(rules).error == rules[i].message;
    assert i == 2;
  }
}
