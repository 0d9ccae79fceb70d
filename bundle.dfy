/**
 * The bundle orchestrator, `executeStandardPTOperations`: a linear, gated sequence that
 * generates identifiers, builds parameters, issues two to four single-statement calls
 * and one closing batch call sharing the caller's transaction token, and returns the
 * identifiers it created.
 *
 * The remote calls (callRDSService / callRDSBatchService) are not modelled beyond the
 * request they are handed: each call appends a snapshot of `params` to a trace. Their
 * outcome is never inspected by the orchestrator, so it does not appear here.
 */
module Bundle {
  import opened JsValues
  import opened Validation
  import opened Identifiers
  import opened Parameters

  /** The five statements a bundle issues. */
  datatype Query = InsertPayment | InsertLedgerEntry | InsertFedNowPayment | InsertPromoLedgerEntry | InsertTransaction

  /** The SQL text each statement stands for. */
  function SqlText(query: Query): string
  {
    match query
    case InsertPayment => "insert payment query"
    case InsertLedgerEntry => "insert ledger entry query"
    case InsertFedNowPayment => "insert fednow payment query"
    case InsertPromoLedgerEntry => "insert promo ledger entry query"
    case InsertTransaction => "insert transaction query"
  }

  /** Every identifier is requested with this length. */
  const IdLength := 32

  /** `userPurchaseInformation`; a missing property reads as undefined, an `Other` value. */
  datatype Purchase = Purchase(
    payor: JsValue, payee: JsValue, payorBankAccountID: JsValue, payeeBankAccountID: JsValue,
    dev: JsValue, amount: JsValue, interactionType: JsValue, paymentMethod: JsValue)

  /** `promotionInformation` */
  datatype Promotion = Promotion(promoAmount: JsValue)

  /** `process.env.DATABASE`, `process.env.SECRET_ARN`, `process.env.CLUSTER_ARN` */
  datatype Environment = Environment(database: JsValue, secretArn: JsValue, resourceArn: JsValue)

  /**
   * The `params` object: its four fixed keys, then `sql`, `parameters` and
   * `parameterSets`, each absent (None) until first assigned.
   */
  datatype Request = Request(
    database: JsValue, secretArn: JsValue, resourceArn: JsValue, transactionId: JsValue,
    sql: Option<Query>, parameters: Option<seq<Field>>, parameterSets: Option<seq<seq<Field>>>)

  /**
   * The id object: created with the payment and customer ledger entry ids; the other
   * properties are absent (None) until assigned.
   */
  datatype IdObject = IdObject(
    primaryPaymentID: string, customerLedgerEntryID: string, primaryFedNowPaymentID: Option<string>,
    promotionLedgerEntryID: Option<string>, pursTransactionID: Option<string>)

  /** A remote call and the request it was handed. */
  datatype Call = Execute(request: Request) | ExecuteBatch(request: Request)

  /** What a call runs: a single or a batch statement, and its SQL. */
  datatype Statement = Single(sql: Option<Query>) | Batch(sql: Option<Query>)

  function StatementOf(call: Call): Statement
  {
    match call
    case Execute(request) => Single(request.sql)
    case ExecuteBatch(request) => Batch(request.sql)
  }

  function Statements(calls: seq<Call>): (statements: seq<Statement>)
    ensures |statements| == |calls|
    ensures forall i :: 0 <= i < |calls| ==> statements[i] == StatementOf(calls[i])
  {
    seq(|calls|, i requires 0 <= i < |calls| => StatementOf(calls[i]))
  }

  /** The FedNow record is created for a real-time payment of a positive amount. */
  predicate TakesFedNowBranch(user: Purchase)
  {
    user.paymentMethod == Num(0) && AboveZero(user.amount)
  }

  /** The promotion ledger entry is created for a positive promotion amount. */
  predicate TakesPromotionBranch(promotion: Promotion)
  {
    AboveZero(promotion.promoAmount)
  }

  function Count(b: bool): nat
  {
    if b then 1 else 0
  }

  /** The statements of a completed bundle, in the order they are issued. */
  function ExpectedStatements(fedNow: bool, promotion: bool): seq<Statement>
  {
    [Single(Some(InsertPayment))]
    + (if fedNow then [Single(Some(InsertFedNowPayment))] else [])
    + [Single(Some(InsertLedgerEntry))]
    + (if promotion then [Single(Some(InsertPromoLedgerEntry))] else [])
    + [Batch(Some(InsertTransaction))]
  }

  /**
   * A completed bundle issues 2 + [FedNow] + [promotion] single statements: the payment
   * first, then the FedNow record if any, the customer ledger entry, the promotion entry if
   * any; then exactly one batch statement, which comes last.
   */
  lemma ExpectedStatementsShape(fedNow: bool, promotion: bool)
    ensures var s, f := ExpectedStatements(fedNow, promotion), Count(fedNow);
      && |s| == 3 + f + Count(promotion)
      && s[0] == Single(Some(InsertPayment))
      && (fedNow ==> s[1] == Single(Some(InsertFedNowPayment)))
      && s[1 + f] == Single(Some(InsertLedgerEntry))
      && (promotion ==> s[2 + f] == Single(Some(InsertPromoLedgerEntry)))
      && s[|s| - 1] == Batch(Some(InsertTransaction))
      && (forall i :: 0 <= i < |s| - 1 ==> s[i].Single?)
  {
  }

  /** The calls issued so far ran the first statements of `expected`, in order. */
  predicate InOrder(calls: seq<Call>, expected: seq<Statement>)
  {
    |calls| <= |expected| && forall i :: 0 <= i < |calls| ==> StatementOf(calls[i]) == expected[i]
  }

  lemma InOrderExtend(calls: seq<Call>, call: Call, expected: seq<Statement>)
    requires InOrder(calls, expected) && |calls| < |expected| && StatementOf(call) == expected[|calls|]
    ensures InOrder(calls + [call], expected)
  {
    assert forall i :: 0 <= i < |calls| ==> (calls + [call])[i] == calls[i];
  }

  /** The purchase passes validateInput (the generated ids are always strings). */
  predicate PurchaseValid(user: Purchase)
  {
    user.payor.Str? && user.payee.Str? && user.amount.Num? && user.amount.n > 0 &&
    user.interactionType.Num? && (user.paymentMethod == Num(0) || user.paymentMethod == Num(1)) &&
    user.dev.Str?
  }

  /** The inputs under which no builder throws. */
  predicate BundleSucceeds(user: Purchase, promotion: Promotion)
  {
    PurchaseValid(user) &&
    (TakesFedNowBranch(user) ==> user.payorBankAccountID.Str? && user.payeeBankAccountID.Str?) &&
    (TakesPromotionBranch(promotion) ==> promotion.promoAmount.Num?)
  }

  /** The `params` object as first built: the configuration and the caller's transaction token. */
  function Configured(env: Environment, sqlTransactionID: JsValue): Request
  {
    Request(env.database, env.secretArn, env.resourceArn, sqlTransactionID, None, None, None)
  }

  /** A request with the keys the steps assign removed. */
  function Base(request: Request): Request
  {
    request.(sql := None, parameters := None, parameterSets := None)
  }

  /** Every request carries the configuration and the caller's transaction token. */
  predicate SharesTransaction(calls: seq<Call>, env: Environment, sqlTransactionID: JsValue)
  {
    forall call | call in calls :: Base(call.request) == Configured(env, sqlTransactionID)
  }

  /** The first draw of the k-th generated id: each id has a window of draws of its own. */
  function Window(k: nat): nat
  {
    IdLength * k
  }

  /** The k-th identifier a bundle generates. */
  function IdAt(coin: nat -> bool, k: nat): string
  {
    BinaryDigits(coin, Window(k), IdLength)
  }

  /** The first n identifiers a bundle generates, in order. */
  function DrawnIds(coin: nat -> bool, n: nat): (ids: seq<string>)
    ensures |ids| == n
  {
    if n == 0 then [] else DrawnIds(coin, n - 1) + [IdAt(coin, n - 1)]
  }

  /** The k-th generated id is read from draws 32k .. 32k + 31. */
  predicate IdsDrawn(ids: seq<string>, coin: nat -> bool)
  {
    forall k :: 0 <= k < |ids| ==> ids[k] == IdAt(coin, k)
  }

  lemma DrawnTwo(coin: nat -> bool)
    ensures DrawnIds(coin, 2) == [IdAt(coin, 0), IdAt(coin, 1)]
  {
    assert DrawnIds(coin, 1) == [IdAt(coin, 0)];
  }

  /** The k-th of the ids drawn is read from the k-th window of draws. */
  lemma {:induction false} DrawnIdsAt(coin: nat -> bool, n: nat)
    ensures IdsDrawn(DrawnIds(coin, n), coin)
  {
    if n > 0 {
      DrawnIdsAt(coin, n - 1);
      assert forall k :: 0 <= k < n - 1 ==> DrawnIds(coin, n)[k] == DrawnIds(coin, n - 1)[k];
    }
  }

  /** Every generated id is a 32-character binary string. */
  lemma DrawnIdsShape(coin: nat -> bool, n: nat)
    ensures forall k :: 0 <= k < n ==> |DrawnIds(coin, n)[k]| == IdLength && IsBinary(DrawnIds(coin, n)[k])
  {
    DrawnIdsAt(coin, n);
    forall k | 0 <= k < n ensures |DrawnIds(coin, n)[k]| == IdLength && IsBinary(DrawnIds(coin, n)[k]) {
      BinaryDigitsShape(coin, Window(k), IdLength);
    }
  }

  /**
   * What the three validating builders produce for a bundle: the payment fields, the
   * FedNow fields and the promotion ledger entry fields, or the message each throws.
   * The builders are pure, so a step may just as well be handed its builder's outcome.
   */
  datatype Builds = Builds(payment: Outcome<seq<Field>>, fedNow: Outcome<seq<Field>>, promotion: Outcome<seq<Field>>)

  /**
   * The builders applied to the purchase and the ids they receive in a run: the payment
   * and customer ledger entry ids are ids 0 and 1, the FedNow payment id is id 2 and the
   * promotion ledger entry id comes after it.
   */
  function BuildsFor(user: Purchase, promotion: Promotion, coin: nat -> bool, now: string): Builds
  {
    Builds(PaymentBuild(user, coin, now),
           FedNowBuild(IdAt(coin, 2), user.payorBankAccountID, user.payeeBankAccountID),
           PromotionBuild(user, promotion, coin))
  }

  /** generateParameters on the purchase and the first two ids. */
  function PaymentBuild(user: Purchase, coin: nat -> bool, now: string): Outcome<seq<Field>>
  {
    GenerateParameters(user.payor, user.payee, user.amount, user.interactionType, Str(IdAt(coin, 0)),
                       user.paymentMethod, Str(IdAt(coin, 1)), user.dev, now)
  }

  /** generateLedgerEntryParameters on the purchase, the promotion amount and the id drawn for it. */
  function PromotionBuild(user: Purchase, promotion: Promotion, coin: nat -> bool): Outcome<seq<Field>>
  {
    GenerateLedgerEntryParameters(user.payor, user.payee, promotion.promoAmount, user.interactionType,
                                  Str(IdAt(coin, 2 + Count(TakesFedNowBranch(user)))), user.dev)
  }

  /**
   * The local state of executeStandardPTOperations between two of its steps: the ids
   * generated so far, the calls issued so far, the `params` object, the id object and
   * the `ledgeEntries` array.
   */
  datatype Progress = Progress(ids: seq<string>, calls: seq<Call>, params: Request,
                               idObject: IdObject, ledgeEntries: seq<string>)

  /** A step either lets the bundle go on or throws, leaving the state it reached. */
  datatype Step = Continue(p: Progress) | Raised(message: Message, p: Progress)

  /** What a bundle leaves behind: its outcome, the ids it generated, the calls it issued. */
  datatype Trace = Trace(result: Outcome<IdObject>, ids: seq<string>, calls: seq<Call>)

  /** Two ids drawn, the id object and ledgeEntries seeded, `params` holding the configuration. */
  function Opening(env: Environment, sqlTransactionID: JsValue, coin: nat -> bool): Progress
  {
    var paymentID, ledgerEntryID := IdAt(coin, 0), IdAt(coin, 1);
    Progress([paymentID, ledgerEntryID], [], Configured(env, sqlTransactionID),
             IdObject(paymentID, ledgerEntryID, None, None, None),
             [ledgerEntryID])
  }

  /** `params` gets the payment parameters and SQL, then is sent. */
  function PaymentStep(p: Progress, payment: Outcome<seq<Field>>): Step
  {
    if payment.Throw? then Raised(payment.message, p)
    else
      var params := p.params.(parameters := Some(payment.value), sql := Some(InsertPayment));
      Continue(p.(params := params, calls := p.calls + [Execute(params)]))
  }

  /** For a FedNow payment of a positive amount: a new id, the FedNow fields appended, a call. */
  function FedNowStep(p: Progress, user: Purchase, coin: nat -> bool, fedNow: Outcome<seq<Field>>): Step
    requires p.params.parameters.Some?
  {
    if !TakesFedNowBranch(user) then Continue(p)
    else
      var fedNowPaymentID := IdAt(coin, |p.ids|);
      var drawn := p.(ids := p.ids + [fedNowPaymentID]);
      if fedNow.Throw? then Raised(fedNow.message, drawn)
      else
        var params := p.params.(parameters := Some(p.params.parameters.value + fedNow.value),
                                sql := Some(InsertFedNowPayment));
        Continue(drawn.(params := params, calls := p.calls + [Execute(params)],
                        idObject := p.idObject.(primaryFedNowPaymentID := Some(fedNowPaymentID))))
  }

  /** The customer ledger entry is sent with whatever parameters `params` holds. */
  function LedgerStep(p: Progress): Progress
  {
    var params := p.params.(sql := Some(InsertLedgerEntry));
    p.(params := params, calls := p.calls + [Execute(params)])
  }

  /** For a positive promotion amount: a new ledger entry id, its parameters, a call. */
  function PromotionStep(p: Progress, promotion: Promotion, coin: nat -> bool, promoParams: Outcome<seq<Field>>): Step
  {
    if !TakesPromotionBranch(promotion) then Continue(p)
    else
      var ledgerEntryID := IdAt(coin, |p.ids|);
      var drawn := p.(ids := p.ids + [ledgerEntryID], ledgeEntries := p.ledgeEntries + [ledgerEntryID]);
      if promoParams.Throw? then Raised(promoParams.message, drawn)
      else
        var params := p.params.(parameters := Some(promoParams.value), sql := Some(InsertPromoLedgerEntry));
        Continue(drawn.(params := params, calls := p.calls + [Execute(params)],
                        idObject := p.idObject.(promotionLedgerEntryID := Some(ledgerEntryID))))
  }

  /** The closing batch: one row per ledger entry, `parameters` deleted, then the batch call. */
  function Closing(p: Progress, coin: nat -> bool): Progress
  {
    var pursTransactionID := IdAt(coin, |p.ids|);
    var params := p.params.(parameterSets := Some(PursRows(pursTransactionID, p.ledgeEntries)), parameters := None,
                            sql := Some(InsertTransaction));
    p.(ids := p.ids + [pursTransactionID], params := params, calls := p.calls + [ExecuteBatch(params)],
       idObject := p.idObject.(pursTransactionID := Some(pursTransactionID)))
  }

  function Stopped(message: Message, p: Progress): Trace
  {
    Trace(Throw(message), p.ids, p.calls)
  }

  /**
   * The steps in the order executeStandardPTOperations takes them, each handed its
   * builder's outcome; the first throw ends the bundle.
   */
  function RunWith(user: Purchase, promotion: Promotion, sqlTransactionID: JsValue, env: Environment,
                   coin: nat -> bool, b: Builds): Trace
  {
    match PaymentStep(Opening(env, sqlTransactionID, coin), b.payment)
    case Raised(m, p) => Stopped(m, p)
    case Continue(p) =>
      match FedNowStep(p, user, coin, b.fedNow)
      case Raised(m, q) => Stopped(m, q)
      case Continue(q) =>
        match PromotionStep(LedgerStep(q), promotion, coin, b.promotion)
        case Raised(m, r) => Stopped(m, r)
        case Continue(r) =>
          var s := Closing(r, coin);
          Trace(Ok(s.idObject), s.ids, s.calls)
  }

  /** A bundle: the steps run with the builders' outcomes on the ids the steps draw. */
  function Run(user: Purchase, promotion: Promotion, sqlTransactionID: JsValue, env: Environment,
               coin: nat -> bool, now: string): Trace
  {
    RunWith(user, promotion, sqlTransactionID, env, coin, BuildsFor(user, promotion, coin, now))
  }

  /**
   * The calls of a completed bundle, listed: the payment insert, the FedNow insert with
   * the FedNow fields appended, the customer ledger entry insert with the parameters left
   * in place, the promotion ledger entry insert, and the closing batch linking the ledger
   * entries to the last id drawn.
   */
  function CompletedCalls(env: Environment, sqlTransactionID: JsValue, coin: nat -> bool, b: Builds,
                          fedNow: bool, promotion: bool): seq<Call>
    requires b.payment.Ok? && (fedNow ==> b.fedNow.Ok?) && (promotion ==> b.promotion.Ok?)
  {
    var base, f := Configured(env, sqlTransactionID), Count(fedNow);
    var fields := if fedNow then b.payment.value + b.fedNow.value else b.payment.value;
    var ledgeEntries := [IdAt(coin, 1)] + (if promotion then [IdAt(coin, 2 + f)] else []);
    var pursTransactionID := IdAt(coin, 2 + f + Count(promotion));
    var payment := [Execute(base.(parameters := Some(b.payment.value), sql := Some(InsertPayment)))];
    var withFedNow := if fedNow then payment + [Execute(base.(parameters := Some(fields), sql := Some(InsertFedNowPayment)))]
                      else payment;
    var ledger := withFedNow + [Execute(base.(parameters := Some(fields), sql := Some(InsertLedgerEntry)))];
    var withPromotion := if promotion then ledger + [Execute(base.(parameters := Some(b.promotion.value),
                                                                   sql := Some(InsertPromoLedgerEntry)))]
                         else ledger;
    withPromotion + [ExecuteBatch(base.(parameterSets := Some(PursRows(pursTransactionID, ledgeEntries)),
                                        sql := Some(InsertTransaction)))]
  }

  /** The listed calls run the expected statements, in order. */
  lemma CompletedStatements(env: Environment, sqlTransactionID: JsValue, coin: nat -> bool, b: Builds,
                            fedNow: bool, promotion: bool)
    requires b.payment.Ok? && (fedNow ==> b.fedNow.Ok?) && (promotion ==> b.promotion.Ok?)
    ensures Statements(CompletedCalls(env, sqlTransactionID, coin, b, fedNow, promotion))
         == ExpectedStatements(fedNow, promotion)
  {
  }

  /**
   * In the listed calls the payment insert carries the payment fields, the FedNow insert
   * appends the FedNow fields to them, the customer ledger entry insert resends the
   * parameters of the call before it, the promotion insert carries the promotion fields,
   * and only the closing batch carries parameter sets, with `parameters` deleted.
   */
  lemma CompletedParameters(env: Environment, sqlTransactionID: JsValue, coin: nat -> bool, b: Builds,
                            fedNow: bool, promotion: bool)
    requires b.payment.Ok? && (fedNow ==> b.fedNow.Ok?) && (promotion ==> b.promotion.Ok?)
    ensures var c, f := CompletedCalls(env, sqlTransactionID, coin, b, fedNow, promotion), Count(fedNow);
      && |c| == 3 + f + Count(promotion)
      && c[0].request.parameters == Some(b.payment.value)
      && (fedNow ==> c[1].request.parameters == Some(b.payment.value + b.fedNow.value))
      && c[1 + f].request.parameters == c[f].request.parameters
      && (promotion ==> c[2 + f].request.parameters == Some(b.promotion.value))
      && c[|c| - 1].request.parameters == None
      && (forall i :: 0 <= i < |c| - 1 ==> c[i].request.parameterSets == None)
  {
  }

  // ----- what a run does ---------------------------------------------------

  /** The builder outcomes the run needs: the payment's, and each taken branch's. */
  predicate BuildsSucceed(user: Purchase, promotion: Promotion, b: Builds)
  {
    b.payment.Ok? && (TakesFedNowBranch(user) ==> b.fedNow.Ok?) && (TakesPromotionBranch(promotion) ==> b.promotion.Ok?)
  }

  /** The ids generated so far are the first ones drawn. */
  predicate Drawn(p: Progress, coin: nat -> bool)
  {
    p.ids == DrawnIds(coin, |p.ids|)
  }

  /** Each step draws its id, if any, from the next window. */
  lemma StepsKeepDrawn(p: Progress, user: Purchase, promotion: Promotion, coin: nat -> bool, b: Builds)
    requires Drawn(p, coin)
    ensures var q := PaymentStep(p, b.payment).p; Drawn(q, coin) && |q.ids| == |p.ids|
    ensures p.params.parameters.Some? ==>
      var q := FedNowStep(p, user, coin, b.fedNow).p; Drawn(q, coin) && |q.ids| == |p.ids| + Count(TakesFedNowBranch(user))
    ensures var q := LedgerStep(p); Drawn(q, coin) && |q.ids| == |p.ids|
    ensures var q := PromotionStep(p, promotion, coin, b.promotion).p;
      Drawn(q, coin) && |q.ids| == |p.ids| + Count(TakesPromotionBranch(promotion))
    ensures var q := Closing(p, coin); Drawn(q, coin) && |q.ids| == |p.ids| + 1
  {
    assert p.ids + [IdAt(coin, |p.ids|)] == DrawnIds(coin, |p.ids| + 1);
  }

  /** Ids come from successive windows of draws: after n ids the next id is IdAt(coin, n). */
  lemma RunWithIds(user: Purchase, promotion: Promotion, sqlTransactionID: JsValue, env: Environment,
                   coin: nat -> bool, b: Builds)
    ensures var t := RunWith(user, promotion, sqlTransactionID, env, coin, b);
      && 2 <= |t.ids|
      && IdsDrawn(t.ids, coin)
      && (t.result.Ok? ==> |t.ids| == 3 + Count(TakesFedNowBranch(user)) + Count(TakesPromotionBranch(promotion)))
      && (t.result.Throw? ==> |t.ids| < 3 + Count(TakesFedNowBranch(user)) + Count(TakesPromotionBranch(promotion)))
  {
    var t := RunWith(user, promotion, sqlTransactionID, env, coin, b);
    var p0 := Opening(env, sqlTransactionID, coin);
    DrawnTwo(coin);
    StepsKeepDrawn(p0, user, promotion, coin, b);
    var s1 := PaymentStep(p0, b.payment);
    var last := s1.p;
    if s1.Continue? {
      StepsKeepDrawn(s1.p, user, promotion, coin, b);
      var s2 := FedNowStep(s1.p, user, coin, b.fedNow);
      last := s2.p;
      if s2.Continue? {
        var p3 := LedgerStep(s2.p);
        StepsKeepDrawn(s2.p, user, promotion, coin, b);
        StepsKeepDrawn(p3, user, promotion, coin, b);
        var s4 := PromotionStep(p3, promotion, coin, b.promotion);
        last := s4.p;
        if s4.Continue? {
          StepsKeepDrawn(s4.p, user, promotion, coin, b);
          last := Closing(s4.p, coin);
        }
      }
    }
    assert t.ids == last.ids;
    DrawnIdsAt(coin, |last.ids|);
  }

  /** `params` and every request sent so far carry the configuration and the caller's transaction id. */
  predicate Shared(p: Progress, env: Environment, sqlTransactionID: JsValue)
  {
    Base(p.params) == Configured(env, sqlTransactionID) && SharesTransaction(p.calls, env, sqlTransactionID)
  }

  lemma StepsKeepShared(p: Progress, user: Purchase, promotion: Promotion, coin: nat -> bool, b: Builds,
                        env: Environment, sqlTransactionID: JsValue)
    requires Shared(p, env, sqlTransactionID)
    ensures Shared(PaymentStep(p, b.payment).p, env, sqlTransactionID)
    ensures p.params.parameters.Some? ==> Shared(FedNowStep(p, user, coin, b.fedNow).p, env, sqlTransactionID)
    ensures Shared(LedgerStep(p), env, sqlTransactionID)
    ensures Shared(PromotionStep(p, promotion, coin, b.promotion).p, env, sqlTransactionID)
    ensures Shared(Closing(p, coin), env, sqlTransactionID)
  {
  }

  /** Every request sent, also before a throw, carries the configuration and the caller's transaction id. */
  lemma RunWithSharesTransaction(user: Purchase, promotion: Promotion, sqlTransactionID: JsValue, env: Environment,
                                 coin: nat -> bool, b: Builds)
    ensures SharesTransaction(RunWith(user, promotion, sqlTransactionID, env, coin, b).calls, env, sqlTransactionID)
  {
    var t := RunWith(user, promotion, sqlTransactionID, env, coin, b);
    var p0 := Opening(env, sqlTransactionID, coin);
    StepsKeepShared(p0, user, promotion, coin, b, env, sqlTransactionID);
    var s1 := PaymentStep(p0, b.payment);
    if s1.Raised? {
      assert t == Stopped(s1.message, p0);
    } else {
      StepsKeepShared(s1.p, user, promotion, coin, b, env, sqlTransactionID);
      var s2 := FedNowStep(s1.p, user, coin, b.fedNow);
      if s2.Raised? {
        assert t == Stopped(s2.message, s2.p);
      } else {
        var p3 := LedgerStep(s2.p);
        StepsKeepShared(s2.p, user, promotion, coin, b, env, sqlTransactionID);
        StepsKeepShared(p3, user, promotion, coin, b, env, sqlTransactionID);
        var s4 := PromotionStep(p3, promotion, coin, b.promotion);
        if s4.Raised? {
          assert t == Stopped(s4.message, s4.p);
        } else {
          StepsKeepShared(s4.p, user, promotion, coin, b, env, sqlTransactionID);
          var s := Closing(s4.p, coin);
          assert t == Trace(Ok(s.idObject), s.ids, s.calls);
        }
      }
    }
  }

  /** Each step that issues a call issues the next expected statement. */
  lemma StepsKeepInOrder(p: Progress, user: Purchase, promotion: Promotion, coin: nat -> bool, b: Builds)
    requires InOrder(p.calls, ExpectedStatements(TakesFedNowBranch(user), TakesPromotionBranch(promotion)))
    ensures var e, f := ExpectedStatements(TakesFedNowBranch(user), TakesPromotionBranch(promotion)),
                       Count(TakesFedNowBranch(user));
      && (|p.calls| == 0 ==> InOrder(PaymentStep(p, b.payment).p.calls, e))
      && (|p.calls| == 1 && p.params.parameters.Some? ==> InOrder(FedNowStep(p, user, coin, b.fedNow).p.calls, e))
      && (|p.calls| == 1 + f ==> InOrder(LedgerStep(p).calls, e))
      && (|p.calls| == 2 + f ==> InOrder(PromotionStep(p, promotion, coin, b.promotion).p.calls, e))
      && (|p.calls| == 2 + f + Count(TakesPromotionBranch(promotion)) ==> InOrder(Closing(p, coin).calls, e))
  {
    var e := ExpectedStatements(TakesFedNowBranch(user), TakesPromotionBranch(promotion));
    ExpectedStatementsShape(TakesFedNowBranch(user), TakesPromotionBranch(promotion));
    forall call: Call | |p.calls| < |e| && StatementOf(call) == e[|p.calls|]
      ensures InOrder(p.calls + [call], e)
    {
      InOrderExtend(p.calls, call, e);
    }
  }

  /**
   * Every run, also one that throws, runs a prefix of the expected statements, in order:
   * a throw only cuts the sequence short.
   */
  lemma RunWithStatements(user: Purchase, promotion: Promotion, sqlTransactionID: JsValue, env: Environment,
                          coin: nat -> bool, b: Builds)
    ensures InOrder(RunWith(user, promotion, sqlTransactionID, env, coin, b).calls,
                    ExpectedStatements(TakesFedNowBranch(user), TakesPromotionBranch(promotion)))
  {
    var f := Count(TakesFedNowBranch(user));
    var p0 := Opening(env, sqlTransactionID, coin);
    StepsKeepInOrder(p0, user, promotion, coin, b);
    var s1 := PaymentStep(p0, b.payment);
    if s1.Continue? {
      StepsKeepInOrder(s1.p, user, promotion, coin, b);
      var s2 := FedNowStep(s1.p, user, coin, b.fedNow);
      if s2.Continue? {
        assert |s2.p.calls| == 1 + f;
        StepsKeepInOrder(s2.p, user, promotion, coin, b);
        var p3 := LedgerStep(s2.p);
        StepsKeepInOrder(p3, user, promotion, coin, b);
        var s4 := PromotionStep(p3, promotion, coin, b.promotion);
        if s4.Continue? {
          assert |s4.p.calls| == 2 + f + Count(TakesPromotionBranch(promotion));
          StepsKeepInOrder(s4.p, user, promotion, coin, b);
        }
      }
    }
  }

  /** A completed run issues exactly the listed calls. */
  lemma RunWithCompletedCalls(user: Purchase, promotion: Promotion, sqlTransactionID: JsValue,
                              env: Environment, coin: nat -> bool, b: Builds)
    ensures var t := RunWith(user, promotion, sqlTransactionID, env, coin, b);
      t.result.Ok? ==>
        && BuildsSucceed(user, promotion, b)
        && t.calls == CompletedCalls(env, sqlTransactionID, coin, b, TakesFedNowBranch(user), TakesPromotionBranch(promotion))
  {
    var p0 := Opening(env, sqlTransactionID, coin);
    var s1 := PaymentStep(p0, b.payment);
    if s1.Continue? {
      assert s1.p.calls == [Execute(s1.p.params)];
      var s2 := FedNowStep(s1.p, user, coin, b.fedNow);
      if s2.Continue? {
        var p3 := LedgerStep(s2.p);
        var s4 := PromotionStep(p3, promotion, coin, b.promotion);
        if s4.Continue? {
          assert s4.p.ledgeEntries == [IdAt(coin, 1)] + (if TakesPromotionBranch(promotion) then [IdAt(coin, |p3.ids|)] else []);
        }
      }
    }
  }

  /**
   * The id object of a completed run reports the payment and customer ledger entry ids
   * (the first two drawn), the FedNow payment id (the third) exactly when that branch ran,
   * the promotion ledger entry id (the next one) exactly when that branch ran, and the
   * transaction id (the last one drawn).
   */
  lemma RunWithIdObject(user: Purchase, promotion: Promotion, sqlTransactionID: JsValue,
                        env: Environment, coin: nat -> bool, b: Builds)
    ensures var t := RunWith(user, promotion, sqlTransactionID, env, coin, b);
      var fedNow, promoted := TakesFedNowBranch(user), TakesPromotionBranch(promotion);
      var f := Count(fedNow);
      t.result.Ok? ==>
        && t.result.value.primaryPaymentID == IdAt(coin, 0)
        && t.result.value.customerLedgerEntryID == IdAt(coin, 1)
        && t.result.value.primaryFedNowPaymentID == (if fedNow then Some(IdAt(coin, 2)) else None)
        && t.result.value.promotionLedgerEntryID == (if promoted then Some(IdAt(coin, 2 + f)) else None)
        && t.result.value.pursTransactionID == Some(IdAt(coin, 2 + f + Count(promoted)))
  {
    var f := Count(TakesFedNowBranch(user));
    var p0 := Opening(env, sqlTransactionID, coin);
    var s1 := PaymentStep(p0, b.payment);
    if s1.Continue? {
      var s2 := FedNowStep(s1.p, user, coin, b.fedNow);
      if s2.Continue? {
        assert |s2.p.ids| == 2 + f;
        var p3 := LedgerStep(s2.p);
        var s4 := PromotionStep(p3, promotion, coin, b.promotion);
        if s4.Continue? {
          assert |s4.p.ids| == 2 + f + Count(TakesPromotionBranch(promotion));
        }
      }
    }
  }

  /**
   * A run completes exactly when the builders it needs succeed; otherwise it throws the
   * first failure, after the calls that preceded it went out.
   */
  lemma RunWithOutcome(user: Purchase, promotion: Promotion, sqlTransactionID: JsValue, env: Environment,
                       coin: nat -> bool, b: Builds)
    ensures var t, f := RunWith(user, promotion, sqlTransactionID, env, coin, b), Count(TakesFedNowBranch(user));
      && (t.result.Ok? <==> BuildsSucceed(user, promotion, b))
      && (b.payment.Throw? ==> t.result == Throw(b.payment.message) && |t.ids| == 2 && t.calls == [])
      && (b.payment.Ok? && TakesFedNowBranch(user) && b.fedNow.Throw? ==>
            t.result == Throw(b.fedNow.message) && |t.ids| == 3 && |t.calls| == 1)
      && (b.payment.Ok? && (TakesFedNowBranch(user) ==> b.fedNow.Ok?) &&
          TakesPromotionBranch(promotion) && b.promotion.Throw? ==>
            t.result == Throw(b.promotion.message) && |t.ids| == 3 + f && |t.calls| == 2 + f)
  {
  }

  // ----- what a bundle does ------------------------------------------------

  /** Inside a bundle validateInput only depends on the purchase: the ids it checks are strings. */
  lemma PaymentBuilds(user: Purchase, paymentID: string, ledgerEntryID: string, now: string)
    ensures (GenerateParameters(user.payor, user.payee, user.amount, user.interactionType, Str(paymentID),
                                user.paymentMethod, Str(ledgerEntryID), user.dev, now).Ok?)
        <==> PurchaseValid(user)
  {
    ValidateInputAccepts(user.payor, user.payee, user.amount, user.interactionType, Str(paymentID),
                         user.paymentMethod, Str(ledgerEntryID), user.dev);
  }

  /** The builders a bundle needs succeed exactly under BundleSucceeds. */
  lemma BuildsForSucceed(user: Purchase, promotion: Promotion, coin: nat -> bool, now: string)
    ensures BuildsSucceed(user, promotion, BuildsFor(user, promotion, coin, now)) <==> BundleSucceeds(user, promotion)
  {
    var b := BuildsFor(user, promotion, coin, now);
    PaymentBuilds(user, IdAt(coin, 0), IdAt(coin, 1), now);
    assert b.payment.Ok? <==> PurchaseValid(user);
    assert b.fedNow.Ok? <==> user.payorBankAccountID.Str? && user.payeeBankAccountID.Str?;
    ValidateLedgerEntryAccepts(user.payor, user.payee, promotion.promoAmount, user.interactionType,
                               Str(IdAt(coin, 2 + Count(TakesFedNowBranch(user)))), user.dev);
    if TakesPromotionBranch(promotion) && promotion.promoAmount.Num? {
      NumberComparisons(promotion.promoAmount.n);
    }
    assert PurchaseValid(user) && TakesPromotionBranch(promotion) ==> (b.promotion.Ok? <==> promotion.promoAmount.Num?);
  }

  /** A bundle returns its id object exactly when no builder throws on its inputs. */
  lemma RunSucceeds(user: Purchase, promotion: Promotion, sqlTransactionID: JsValue, env: Environment,
                    coin: nat -> bool, now: string)
    ensures Run(user, promotion, sqlTransactionID, env, coin, now).result.Ok? <==> BundleSucceeds(user, promotion)
  {
    RunWithOutcome(user, promotion, sqlTransactionID, env, coin, BuildsFor(user, promotion, coin, now));
    BuildsForSucceed(user, promotion, coin, now);
  }

  /**
   * A purchase validateInput rejects aborts the bundle before any call: it throws
   * validateInput's message, and only the payment and customer ledger entry ids were drawn.
   */
  lemma RunRejectsInvalidPurchase(user: Purchase, promotion: Promotion, sqlTransactionID: JsValue,
                                  env: Environment, coin: nat -> bool, now: string)
    requires !PurchaseValid(user)
    ensures var t := Run(user, promotion, sqlTransactionID, env, coin, now);
      && t.result == Throw(Judge(PaymentRules(user.payor, user.payee, user.amount, user.interactionType,
                                              Str(IdAt(coin, 0)), user.paymentMethod, Str(IdAt(coin, 1)),
                                              user.dev)).error)
      && t.ids == [IdAt(coin, 0), IdAt(coin, 1)]
      && t.calls == []
  {
    PaymentBuilds(user, IdAt(coin, 0), IdAt(coin, 1), now);
    RunWithOutcome(user, promotion, sqlTransactionID, env, coin, BuildsFor(user, promotion, coin, now));
  }

  /** A zero amount aborts every bundle whose developer id is a string, with the amount rule's message. */
  lemma RunRejectsZeroAmount(user: Purchase, promotion: Promotion, sqlTransactionID: JsValue,
                             env: Environment, coin: nat -> bool, now: string)
    requires user.amount == Num(0) && user.dev.Str?
    ensures var t := Run(user, promotion, sqlTransactionID, env, coin, now);
      t.result == Throw(AmountNotPositive) && t.calls == []
  {
    ZeroAmountRejected(user.payor, user.payee, user.interactionType, Str(IdAt(coin, 0)), user.paymentMethod,
                       Str(IdAt(coin, 1)), user.dev, now);
    RunWithOutcome(user, promotion, sqlTransactionID, env, coin, BuildsFor(user, promotion, coin, now));
  }

  /**
   * A FedNow payment without both bank account ids throws after the payment insert went
   * out: the FedNow payment id was drawn, the FedNow insert was not sent.
   */
  lemma RunRejectsMissingBankAccount(user: Purchase, promotion: Promotion, sqlTransactionID: JsValue,
                                     env: Environment, coin: nat -> bool, now: string)
    requires PurchaseValid(user) && TakesFedNowBranch(user)
    requires !user.payorBankAccountID.Str? || !user.payeeBankAccountID.Str?
    ensures var t := Run(user, promotion, sqlTransactionID, env, coin, now);
      && t.result == Throw(if !user.payeeBankAccountID.Str? then PayeeBankAccountIdNotString
                           else PayorBankAccountIdNotString)
      && |t.ids| == 3
      && |t.calls| == 1
  {
    PaymentBuilds(user, IdAt(coin, 0), IdAt(coin, 1), now);
    FedNowVerdict(Str(IdAt(coin, 2)), user.payorBankAccountID, user.payeeBankAccountID);
    RunWithOutcome(user, promotion, sqlTransactionID, env, coin, BuildsFor(user, promotion, coin, now));
  }

  /**
   * A positive promotion amount that is not of type number (a numeric string, say) throws
   * after the payment, FedNow and customer ledger entry inserts went out: the promotion
   * ledger entry id was drawn, the closing batch was not sent.
   */
  lemma RunRejectsPromotionNotNumber(user: Purchase, promotion: Promotion, sqlTransactionID: JsValue,
                                     env: Environment, coin: nat -> bool, now: string)
    requires PurchaseValid(user)
    requires TakesFedNowBranch(user) ==> user.payorBankAccountID.Str? && user.payeeBankAccountID.Str?
    requires TakesPromotionBranch(promotion) && !promotion.promoAmount.Num?
    ensures var t, f := Run(user, promotion, sqlTransactionID, env, coin, now), Count(TakesFedNowBranch(user));
      t.result == Throw(PromoAmountNotNumber) && |t.ids| == 3 + f && |t.calls| == 2 + f
  {
    LedgerEntryRejectsUntypedPromo(user.payor.s, user.payee.s, promotion.promoAmount, user.interactionType.n,
                                   IdAt(coin, 2 + Count(TakesFedNowBranch(user))), user.dev.s);
    PaymentBuilds(user, IdAt(coin, 0), IdAt(coin, 1), now);
    RunWithOutcome(user, promotion, sqlTransactionID, env, coin, BuildsFor(user, promotion, coin, now));
  }

  /**
   * A promotion amount written as a '+'-signed positive numeral passes the `promoAmount > 0`
   * gate, so the promotion branch runs, and then fails the builder's `typeof` check.
   */
  lemma SignedPromotionTakesBranch(digits: string)
    requires |digits| > 0 && AllDigits(digits) && DigitsValue(digits) > 0
    ensures TakesPromotionBranch(Promotion(Str("+" + digits)))
    ensures !Promotion(Str("+" + digits)).promoAmount.Num?
  {
    SignedDigits(digits);
  }

  // ----- executeStandardPTOperations --------------------------------------

  /** Draws the payment and customer ledger entry ids and sets up the id object, ledgeEntries and `params`. */
  method Open(env: Environment, sqlTransactionID: JsValue, coin: nat -> bool) returns (p: Progress)
    ensures p == Opening(env, sqlTransactionID, coin)
  {
    var paymentID := GenerateRandomBinary(Num(IdLength), coin, Window(0));
    var ledgerEntryID := GenerateRandomBinary(Num(IdLength), coin, Window(1));
    assert paymentID == IdAt(coin, 0) && ledgerEntryID == IdAt(coin, 1);
    var idObject := IdObject(paymentID, ledgerEntryID, None, None, None);
    var ledgeEntries := [ledgerEntryID];  // the empty array with ledgerEntryID pushed
    var params := Request(env.database, env.secretArn, env.resourceArn, sqlTransactionID, None, None, None);
    p := Progress([paymentID, ledgerEntryID], [], params, idObject, ledgeEntries);
  }

  /** Builds the payment parameters into `params` and sends the payment insert. */
  method IssuePayment(p: Progress, user: Purchase, coin: nat -> bool, now: string) returns (s: Step)
    requires |p.ids| >= 2 && p.ids[0] == IdAt(coin, 0) && p.ids[1] == IdAt(coin, 1)
    ensures s == PaymentStep(p, PaymentBuild(user, coin, now))
  {
    var params := p.params;
    var payment := GenerateParameters(user.payor, user.payee, user.amount, user.interactionType, Str(p.ids[0]),
                                      user.paymentMethod, Str(p.ids[1]), user.dev, now);
    if payment.Throw? {
      return Raised(payment.message, p);
    }
    params := params.(parameters := Some(payment.value));
    params := params.(sql := Some(InsertPayment));
    s := Continue(p.(params := params, calls := p.calls + [Execute(params)]));
  }

  /** The body of the FedNow branch: a new id, the FedNow fields pushed onto a copy of the list, a call. */
  method IssueFedNowPayment(p: Progress, user: Purchase, coin: nat -> bool) returns (s: Step)
    requires p.params.parameters.Some? && TakesFedNowBranch(user) && |p.ids| == 2
    ensures s == FedNowStep(p, user, coin, FedNowBuild(IdAt(coin, 2), user.payorBankAccountID, user.payeeBankAccountID))
  {
    var params, idObject := p.params, p.idObject;
    var fedNowPaymentID := GenerateRandomBinary(Num(IdLength), coin, Window(|p.ids|));
    var ids := p.ids + [fedNowPaymentID];
    var copy := new ParameterList(params.parameters.value);
    var extended := GenerateFedNowParameters(copy, Str(fedNowPaymentID), user.payorBankAccountID, user.payeeBankAccountID);
    if extended.Throw? {
      return Raised(extended.message, p.(ids := ids));
    }
    params := params.(parameters := Some(extended.value.fields));
    params := params.(sql := Some(InsertFedNowPayment));
    idObject := idObject.(primaryFedNowPaymentID := Some(fedNowPaymentID));
    s := Continue(p.(ids := ids, params := params, calls := p.calls + [Execute(params)], idObject := idObject));
  }

  /** Points `params` at the ledger entry insert and sends it, parameters unchanged. */
  method IssueLedgerEntry(p: Progress) returns (q: Progress)
    ensures q == LedgerStep(p)
  {
    var params := p.params.(sql := Some(InsertLedgerEntry));
    q := p.(params := params, calls := p.calls + [Execute(params)]);
  }

  /** The body of the promotion branch: a new ledger entry id, its parameters, a call. */
  method IssuePromotionEntry(p: Progress, user: Purchase, promotion: Promotion, coin: nat -> bool) returns (s: Step)
    requires TakesPromotionBranch(promotion) && |p.ids| == 2 + Count(TakesFedNowBranch(user))
    ensures s == PromotionStep(p, promotion, coin, PromotionBuild(user, promotion, coin))
  {
    var params, idObject := p.params, p.idObject;
    var ledgerEntryID := GenerateRandomBinary(Num(IdLength), coin, Window(|p.ids|));
    var ids := p.ids + [ledgerEntryID];
    var ledgeEntries := p.ledgeEntries + [ledgerEntryID];
    var promoParams := GenerateLedgerEntryParameters(user.payor, user.payee, promotion.promoAmount, user.interactionType,
                                                     Str(ledgerEntryID), user.dev);
    if promoParams.Throw? {
      return Raised(promoParams.message, p.(ids := ids, ledgeEntries := ledgeEntries));
    }
    params := params.(parameters := Some(promoParams.value));
    params := params.(sql := Some(InsertPromoLedgerEntry));
    idObject := idObject.(promotionLedgerEntryID := Some(ledgerEntryID));
    s := Continue(Progress(ids, p.calls + [Execute(params)], params, idObject, ledgeEntries));
  }

  /** The closing batch: a new transaction id, one row per ledger entry, `parameters` deleted, the batch call. */
  method Close(p: Progress, coin: nat -> bool) returns (q: Progress)
    ensures q == Closing(p, coin)
  {
    var params, idObject := p.params, p.idObject;
    var pursTransactionID := GenerateRandomBinary(Num(IdLength), coin, Window(|p.ids|));
    var parameterSets := GeneratePursPaymentParameters(p.ledgeEntries, Str(pursTransactionID));
    params := params.(parameterSets := Some(parameterSets.value));
    params := params.(parameters := None);
    params := params.(sql := Some(InsertTransaction));
    idObject := idObject.(pursTransactionID := Some(pursTransactionID));
    q := Progress(p.ids + [pursTransactionID], p.calls + [ExecuteBatch(params)], params, idObject, p.ledgeEntries);
  }

  /**
   * `ids` lists the generated identifiers in generation order; `calls` lists the remote
   * calls in the order they were issued, including those made before a throw.
   * Randomness comes from `coin`: the k-th id is read from its own window of draws.
   */
  method ExecuteStandardPTOperations(user: Purchase, promotion: Promotion, sqlTransactionID: JsValue,
                                     env: Environment, coin: nat -> bool, now: string)
    returns (result: Outcome<IdObject>, ids: seq<string>, calls: seq<Call>)
    ensures Trace(result, ids, calls) == Run(user, promotion, sqlTransactionID, env, coin, now)
  {
    var p := Open(env, sqlTransactionID, coin);

    var step := IssuePayment(p, user, coin, now);
    if step.Raised? {
      return Throw(step.message), step.p.ids, step.p.calls;
    }
    p := step.p;

    if user.paymentMethod == Num(0) && AboveZero(user.amount) {
      step := IssueFedNowPayment(p, user, coin);
      if step.Raised? {
        return Throw(step.message), step.p.ids, step.p.calls;
      }
      p := step.p;
    }

    p := IssueLedgerEntry(p);

    if AboveZero(promotion.promoAmount) {
      step := IssuePromotionEntry(p, user, promotion, coin);
      if step.Raised? {
        return Throw(step.message), step.p.ids, step.p.calls;
      }
      p := step.p;
    }

    p := Close(p, coin);
    return Ok(p.idObject), p.ids, p.calls;
  }
}
