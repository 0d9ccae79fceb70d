# Purs transaction bundle — a Dafny model

This project models the core of a payment back end that records a *Purs transaction
bundle* (PTB) in a relational data store through a remote data API. One call to
`executeStandardPTOperations` does the following in order:

1. draws a payment id and a customer ledger entry id;
2. builds and sends the payment insert;
3. for a real-time (FedNow) payment of a positive amount, draws a FedNow payment id, appends the FedNow fields and sends the FedNow insert;
4. re-sends the same parameters as the customer ledger entry insert;
5. for a positive promotion amount, draws a promotion ledger entry id, builds its parameters and sends the promotion insert;
6. draws a transaction id and sends one batch insert that links every ledger entry to it.

It returns an id object naming every record it created. Each builder checks its inputs before building anything and throws the check's message. The first builder that throws ends the bundle; the calls already sent stay sent.

The modules follow the two source files:

| module | file | what it holds |
|---|---|---|
| `JsValues` | `js_values.dfy` | JavaScript values as the validators see them (`typeof` string / number, coercing comparison with 0), error messages, and call outcomes (`Ok` / `Throw`) |
| `Validation` | `validation.dfy` | `validateInput`, `validateFedNowInput` and `validateLedgerEntryInput` (imperative if-chains). They are proved equal to `Judge`, a "last failing rule wins" specification, and proved to accept exactly the well-typed, in-range inputs. |
| `Identifiers` | `identifiers.dfy` | `generateRandomBinary` as a loop over a randomness oracle |
| `Parameters` | `parameters.dfy` | the four parameter builders. `generateFedNowParameters` pushes onto a caller-owned list (a class), and the others return fresh arrays (functions). |
| `Bundle` | `bundle.dfy` | `executeStandardPTOperations` as a method of steps, proved equal to `Run`, a step-by-step specification |

In `Bundle`, each step of the source is written twice: once as a method that does the work (`Open`, `IssuePayment`, `IssueFedNowPayment`, `IssueLedgerEntry`, `IssuePromotionEntry`, `Close`) and once as a function (`Opening`, `PaymentStep`, `FedNowStep`, `LedgerStep`, `PromotionStep`, `Closing`). Each method is proved equal to its function, and the lemmas are about the functions.

Lemmas about `Run` state what a bundle does:

- which statements go out, and in which order;
- which parameters each call carries;
- that every call carries the caller's transaction token;
- which ids come back, and which random draws each id is read from;
- exactly when the bundle completes, and what it throws and what was already sent when it does not.

In three places the source's own comments and tests expect something other than what the code does. The model follows the code:

- **Zero amount.** The comment at utils.js:288-289 says the status is "completed" for an amount of 0. The bundle tests at index.test.js:113-168 run complete bundles with `amount = 0`, but they replace every builder with a mock (index.test.js:5). In the code, `validateInput` rejects `amount <= 0` before anything is built (utils.js:103-106). So a zero-amount bundle always throws before any call. The message is "amount parameter must be greater than 0" when the developer id is a string. Otherwise the later developer-id rule wins, because the last failing rule sets the message (utils.js:113-116) (`Parameters.ZeroAmountRejected`, `Bundle.RunRejectsZeroAmount`, `Bundle.RunRejectsInvalidPurchase`). The zero-amount alternatives of `datePaid` and `paymentStatus` are unreachable after validation (`Parameters.ValidatedPaymentStatus`).
- **Identifier length.** The test at tests/utils.test.js:92-97 is titled "handles non-integer values" and expects `''` for `'string_input'`. The loop actually runs while `i < length`, with the length coerced to a number. A numeric string such as `'5'` gives 5 digits. A length that coerces to NaN (`'string_input'`, `undefined`) gives `""`, and so does one that coerces to 0 or less (`0`, `null`, `false`, `""`, `'-3'`) (`Identifiers.GenerateRandomBinary`).
- **Promotion amount.** `validateLedgerEntryInput` rejects only `promoAmount < 0`, although its message says "must be greater than 0" (utils.js:187-190). The bundle only calls it for `promoAmount > 0`. A promotion amount that is a positive numeric string, such as `'5'` or `'+5'`, passes the `> 0` gate and then fails the `typeof` check (`Bundle.SignedPromotionTakesBranch`, `Bundle.RunRejectsPromotionNotNumber`).

## Model

| member | source | states |
|---|---|---|
| JsValues.StringToNumber | utils.js:103 | the coercion `amount <= 0` applies to a string: "" is 0, a lone sign is NaN, and the model treats a string not starting with a digit, '+' or '-' as NaN |
| JsValues.SignedDigits | utils.js:103 | a run of digits coerces to its value, with a leading '+' to the same value and with a leading '-' to its negation |
| JsValues.NumberComparisons | utils.js:103-106 | for a value of type number the coercing comparisons with 0 are the plain integer ones |
| JsValues.NaNComparesFalse | utils.js:103-106 | a value coercing to NaN compares false with 0 in every direction, and the loop bound `i < length` is never met |
| Validation.JudgeReports | utils.js:63-117 | the rule-list verdict is "accepted with empty error" exactly when no rule fails, otherwise rejected with the message of a failing rule after which none fails |
| Validation.ReportsDetermines | utils.js:63-117 | only one verdict reports a rule list correctly, so any validator that reports correctly returns Judge's verdict |
| Validation.ValidateInput | utils.js:54-118 | the ten checks run in order and the last failing one sets the error; the result equals the rule-list specification |
| Validation.ValidateInputAccepts | utils.js:67-116 | validateInput accepts iff payor, payee, paymentID, ledgerEntryID and dev are strings, amount is a positive number, interactionType is a number and paymentMethod is 0 or 1 |
| Validation.ValidateInputRangeRules | utils.js:98-106 | for well-typed inputs: rejected iff amount <= 0 or method not in {0,1}; the amount message wins when both fail |
| Validation.ValidateFedNowInput | utils.js:126-150 | the three string checks in order, last failure wins; equals the rule-list specification |
| Validation.FedNowVerdict | utils.js:135-148 | accepted iff all three ids are strings; the message names the last non-string argument |
| Validation.ValidateLedgerEntryInput | utils.js:161-207 | the seven checks in order, last failure wins; equals the rule-list specification |
| Validation.ValidateLedgerEntryAccepts | utils.js:172-205 | accepted iff payor, payee, ledgerEntryID and dev are strings, interactionType is a number and promoAmount is a number >= 0 |
| Validation.LedgerEntryAcceptsZeroPromo | utils.js:187-190 | for well-typed inputs a promotion amount is rejected iff it is negative, with the "greater than 0" message |
| Validation.LedgerEntryRejectsUntypedPromo | utils.js:182-190 | a positive promotion amount not of type number is rejected with the type message alone |
| Identifiers.BinaryDigitsShape | utils.js:214-223 | n draws give a string of length n whose k-th character is the k-th draw's digit, all '0' or '1' |
| Identifiers.GenerateRandomBinary | utils.js:214-223 | the loop appends one digit per draw while `i < length`; the result is binary, has length n for a non-negative integer n, and is empty for 0 or a NaN length |
| Parameters.GenerateParameters | utils.js:238-293 | throws iff validateInput rejects, with its message; otherwise the ten named fields carrying the inputs; datePaid null iff pending FedNow (else the timestamp); status "completed" iff method != 0 or amount == 0 |
| Parameters.ValidatedPaymentStatus | utils.js:276-290 | once built, amount > 0, datePaid is null iff method is 0, status is "completed" iff method is 1 and "pending" iff method is 0 |
| Parameters.ZeroAmountRejected | utils.js:255-267 | an amount of 0 always makes generateParameters throw, with the amount message when ledgerEntryID and dev are strings |
| Parameters.ParameterList.constructor | index.js:102 | a fresh array holding a copy of the given fields |
| Parameters.FedNowFields | utils.js:322-326 | the three pushed fields are named fedNowPaymentId, payorBankAccountId, payeeBankAccountId |
| Parameters.FedNowBuild | utils.js:315-329 | for a string FedNow id the builder succeeds iff both bank account ids are strings; a throw carries the payee message if the payee id is not a string, else the payor message; success gives the three FedNow field names |
| Parameters.GenerateFedNowParameters | utils.js:303-330 | throws iff validateFedNowInput rejects, leaving the list untouched; otherwise pushes the fields FedNowBuild gives onto the caller's list and returns that same list |
| Parameters.FedNowExtends | utils.js:322-329 | the push keeps every earlier field in place and adds exactly three names |
| Parameters.GenerateLedgerEntryParameters | utils.js:342-377 | throws iff validateLedgerEntryInput rejects, with its message; otherwise the six named fields carrying the inputs |
| Parameters.PursRow | utils.js:393-396 | a batch row has the fields transactionId and ledgerId |
| Parameters.PursRows | utils.js:393-396 | one row per ledger entry, in order, each linking it to the transaction id |
| Parameters.GeneratePursPaymentParameters | utils.js:385-398 | throws iff the transaction id is not a string; otherwise one row per ledger entry, in order |
| Parameters.PursRowsRoundTrip | utils.js:393-397 | reading the ledger ids back out of the rows gives the ledger entries, in order |
| Bundle.ExpectedStatementsShape | index.js:94-152 | payment insert first, FedNow insert second when taken, then the ledger entry insert, then the promotion insert when taken; single statements, then one closing batch |
| Bundle.DrawnTwo | index.js:62-64 | the first two ids drawn are the payment id and the customer ledger entry id |
| Bundle.DrawnIdsAt | index.js:62-141 | the k-th generated id is read from the k-th window of 32 draws |
| Bundle.DrawnIdsShape | index.js:62-141 | every generated id is a 32-character binary string |
| Bundle.CompletedStatements | index.js:94-152 | the listed calls of a completed bundle run exactly the expected statements |
| Bundle.CompletedParameters | index.js:83-149 | payment fields first, FedNow fields appended to them, the ledger entry call re-sending the previous parameters, promotion fields on their own, `parameters` deleted and parameter sets only on the batch |
| Bundle.StepsKeepDrawn | index.js:62-141 | each step draws its id, if any, from the next window |
| Bundle.RunWithIds | index.js:61-155 | a bundle draws at least two ids, each from its own window; exactly 3 + [FedNow] + [promotion] when it completes, fewer when it throws |
| Bundle.StepsKeepShared | index.js:75-80 | no step changes the configuration or the transaction token in `params` |
| Bundle.RunWithSharesTransaction | index.js:75-152 | every request sent, also before a throw, carries the configuration and the caller's transaction token |
| Bundle.StepsKeepInOrder | index.js:94-152 | each step that sends a call sends the next expected statement |
| Bundle.RunWithStatements | index.js:94-152 | every bundle, also one that throws, runs a prefix of the expected statements, in order |
| Bundle.RunWithCompletedCalls | index.js:83-152 | a completed bundle needed every builder it called to succeed, and sent exactly the listed calls |
| Bundle.RunWithIdObject | index.js:67-155 | the id object holds the payment and customer ledger ids, the FedNow id iff that branch ran, the promotion id iff that branch ran, and the transaction id, each the id drawn for it |
| Bundle.RunWithOutcome | index.js:83-155 | the bundle completes iff every builder it needs succeeds; otherwise it throws the first failure's message with the ids drawn and calls sent up to that point |
| Bundle.PaymentBuilds | index.js:83-91 | inside a bundle the payment builder succeeds iff the purchase is valid, whatever ids were drawn |
| Bundle.BuildsForSucceed | index.js:83-133 | the builders a bundle needs succeed iff the purchase is valid, a taken FedNow branch has string bank accounts, and a taken promotion branch has a number |
| Bundle.RunSucceeds | index.js:33-156 | a bundle returns its id object iff no builder throws on its inputs |
| Bundle.RunRejectsInvalidPurchase | index.js:62-97 | an invalid purchase throws validateInput's message with only two ids drawn and no call sent |
| Bundle.RunRejectsZeroAmount | index.js:83-91 | a zero amount throws the amount message before any call |
| Bundle.RunRejectsMissingBankAccount | index.js:100-112 | a FedNow payment missing a bank account id throws after the payment insert, with three ids drawn |
| Bundle.RunRejectsPromotionNotNumber | index.js:121-136 | a positive promotion amount not of type number throws the type message after 2 + [FedNow] calls |
| Bundle.SignedPromotionTakesBranch | index.js:121-136 | a '+'-signed positive numeral passes the promotion gate and is not of type number, so the promotion builder throws |
| Bundle.Open | index.js:59-80 | the two first ids, the id object, ledgeEntries and `params` as the opening specification gives them |
| Bundle.IssuePayment | index.js:82-97 | the payment step of the specification, the builder run on the drawn ids |
| Bundle.IssueFedNowPayment | index.js:99-115 | the FedNow step of the specification, the fields pushed onto a copy of the list |
| Bundle.IssueLedgerEntry | index.js:117-119 | the ledger entry step of the specification |
| Bundle.IssuePromotionEntry | index.js:121-139 | the promotion step of the specification |
| Bundle.Close | index.js:141-154 | the closing batch step of the specification |
| Bundle.ExecuteStandardPTOperations | index.js:33-156 | result, ids drawn and calls sent equal `Run`, about which the lemmas above hold |

## Left out

- Remote calls: `callRDSService` and `callRDSBatchService` are represented only by the request they receive, appended to a trace. The bundle never inspects their result (it awaits a string that is discarded), so success and failure of the remote store are not modelled.
- The configuration: `process.env` is the `Environment` parameter.
- The clock: `new Date()` formatted as `YYYY-MM-DD HH:MM:SS` is the `now` parameter.
- Randomness: `Math.round(Math.random())` is the oracle `coin`, and the k-th id reads draws 32k to 32k+31. Uniformity and independence of the draws are not modelled.
- `Buffer.from(s, 'hex')` is kept uninterpreted as `Blob(s)`. Hex decoding, including how it drops odd or invalid characters, is not modelled.
- Asynchrony: `async`/`await` is modelled as sequential execution, which is how the bundle awaits each call in turn.
- Numbers are integers. Floating-point amounts and NaN and Infinity of type number are not modelled. A value of another type is represented only when its conversion to a number succeeds; it carries the number it coerces to, or none for NaN.
- TypeErrors raised by the JavaScript runtime are not modelled. The model has no value for the inputs that cause them, so none of its lemmas speaks about these paths:
  - A Symbol, or an object without a primitive value such as `Object.create(null)`, makes these comparisons throw: `amount <= 0` (utils.js:103), `promoAmount < 0` (utils.js:187), `amount > 0` and `promoAmount > 0` (index.js:100, index.js:121) and `i < length` (utils.js:216). A bundle with such a promotion amount throws at index.js:121 after the payment, FedNow and customer ledger entry inserts and before the batch. The nearest model value, `Other(None)`, completes instead.
  - A null or undefined `userPurchaseInformation` or `promotionInformation` makes the destructuring at index.js:39-58 throw before any id is drawn. `Purchase` and `Promotion` are always records, so `Bundle.RunWithIds` always finds at least two ids.
  - `Buffer.from` on a value that is not a string throws (utils.js:270-286, utils.js:324-326, utils.js:369-374, utils.js:394-395). In the builders every such argument has passed a `typeof` check first, except the ledger entries handed to `generatePursPaymentParameters`. Those are typed as strings here, which they always are in a bundle.
- JsValues.StringToNumber: only the empty string and optionally signed decimal integers coerce to numbers. Surrounding whitespace, decimal fractions, exponent forms (`'1e2'`), `'Infinity'` and hex, octal and binary literals (`'0x10'`) are treated as NaN, whereas JavaScript coerces them to numbers. This keeps the model free of floating point. For such a string the model's `> 0` and `<= 0` gates are false where JavaScript's may hold.
- Error messages and SQL texts are enumerations. `Text` and `SqlText` give their wording; JavaScript `Error` objects and stack traces are not modelled.
- Mutation of `params`: `params` is a value rebuilt at each step. The FedNow push works on a fresh copy in the source (index.js:102), so no other reference observes it; `GenerateFedNowParameters` models that push in place on a class.
- Identifier collisions: ids are not proved distinct, and the source does not guarantee it.
- Bundle.RunWithOutcome: for a bundle that throws, it states the message and the numbers of ids and calls. It does not state the parameters of the calls sent before the throw. Their statements are given by RunWithStatements and their transaction token by RunWithSharesTransaction.
- Bundle.RunRejectsZeroAmount: it states the message only when the developer id is a string. Otherwise the later developer-id rule wins, and RunRejectsInvalidPurchase gives that message.
- Identifiers.GenerateRandomBinary: lengths are integers, so the rounding up of a fractional length is not modelled.
- The test files (index.test.js, tests/utils.test.js) are not modelled. They are cited above only for the behaviour they expect.
