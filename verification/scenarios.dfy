/** Concrete runs of the simulator with fixed inputs: the lifecycle of a good
    card from creation to refund, a deny-listed card, and an over-large
    capture. The environment of each call is fixed, so the network decisions
    are the ones named here. */
module Scenarios {
  import opened Results
  import opened Models
  import opened CardValidator
  import opened Schemas
  import opened PaymentService

  const Today := YearMonth(2026, 10)
  const GoodCard := CardInput("4242424242424242", 12, 2030, "123")
  const DeniedCard := CardInput("4000000000000002", 12, 2030, "123")

  /** A 49.99 USD order, in cents. */
  function Order(card: CardInput): PaymentCreate {
    PaymentCreate(4999, "USD", card, None, None, None)
  }

  /** The environment of one call at time `now`, drawing uuids from `hex`. */
  function EnvAt(now: Timestamp, hex: string, approved: bool): Env {
    Env(now, Today, approved, [0, 0, 0, 0, 0, 0], hex, hex + "1", hex + "2")
  }

  /** The event kinds of a log, in order. */
  function EventKinds(log: seq<PaymentEvent>): (kinds: seq<EventType>)
    ensures |kinds| == |log|
    ensures forall i :: 0 <= i < |log| ==> kinds[i] == log[i].eventType
  {
    seq(|log|, i requires 0 <= i < |log| => log[i].eventType)
  }

  /** An approved authorization of an error-free payment logs the request and the authorization. */
  lemma AuthorizeApprovedKinds(st: Store, id: string, env: Env)
    requires AuthorizePayment(st, id, env).Ok? && !HasError(st.payments[id]) && env.approved
    ensures EventKinds(GetPaymentEvents(AuthorizePayment(st, id, env).value.0, id))
            == EventKinds(GetPaymentEvents(st, id)) + [AuthorizationRequested, PaymentAuthorized]
  {
  }

  /** An approved capture logs the request and the success. */
  lemma CaptureApprovedKinds(st: Store, id: string, amount: Option<nat>, env: Env)
    requires CapturePayment(st, id, amount, env).Ok? && env.approved
    ensures EventKinds(GetPaymentEvents(CapturePayment(st, id, amount, env).value.0, id))
            == EventKinds(GetPaymentEvents(st, id)) + [CaptureRequested, PaymentSucceeded]
  {
  }

  /** A refund logs its creation and the payment's move to REFUNDED. */
  lemma RefundKinds(st: Store, id: string, req: RefundCreate, env: Env)
    requires RefundId(env.entityHex) !in st.refunds && CreateRefund(st, id, req, env).Ok?
    ensures EventKinds(GetPaymentEvents(CreateRefund(st, id, req, env).value.0, id))
            == EventKinds(GetPaymentEvents(st, id)) + [RefundCreated, PaymentRefunded]
  {
  }

  /** Six draws of index 0 give the code "AAAAAA". */
  lemma FirstLetterCode()
    ensures GenerateAuthCode([0, 0, 0, 0, 0, 0]) == "AAAAAA"
  {
    var code := GenerateAuthCode([0, 0, 0, 0, 0, 0]);
    assert AuthCodeAlphabet[0] == 'A';
    assert forall i :: 0 <= i < 6 ==> code[i] == 'A';
  }

  lemma GoodCardAccepted()
    ensures ValidateCard(GoodCard.number, GoodCard.expMonth, GoodCard.expYear, GoodCard.cvc, Today) == (true, "")
  {
    Luhn4242();
    assert GoodCard.number[1] != DeclinedTestCards[0][1] && GoodCard.number[1] != DeclinedTestCards[1][1];
    assert IsValidCvc(GoodCard.cvc);
    CleanNumberAccepted(GoodCard.number, GoodCard.expMonth, GoodCard.expYear, GoodCard.cvc, Today);
  }

  /** An order the validator accepts. */
  predicate Accepted(order: PaymentCreate, today: YearMonth) {
    ValidateCard(order.card.number, order.card.expMonth, order.card.expYear, order.card.cvc, today).0
  }

  // Each stage below is one call with a fixed environment; the happy path
  // composes them.

  method CreateStage(order: PaymentCreate) returns (st: Store, id: string)
    requires Accepted(order, Today)
    ensures id in st.payments && st.refunds == map[]
    ensures st.payments[id].status == Created && !HasError(st.payments[id])
    ensures st.payments[id].id == id && st.payments[id].amount == order.amount
    ensures EventKinds(GetPaymentEvents(st, id)) == [PaymentCreated]
  {
    var created := CreatePayment(EmptyStore, order, EnvAt(1, "a", true));
    st := created.0;
    id := created.1.id;
  }

  method AuthorizeStage(st: Store, id: string) returns (st': Store)
    requires id in st.payments && st.payments[id].status == Created && !HasError(st.payments[id])
    ensures id in st'.payments && st'.refunds == st.refunds
    ensures st'.payments[id].status == Authorized && st'.payments[id].amount == st.payments[id].amount
    ensures st'.payments[id].id == st.payments[id].id
    ensures st'.payments[id].authorizationCode == Some("AAAAAA") && st'.payments[id].authorizedAt == Some(2)
    ensures EventKinds(GetPaymentEvents(st', id))
            == EventKinds(GetPaymentEvents(st, id)) + [AuthorizationRequested, PaymentAuthorized]
  {
    var env := EnvAt(2, "b", true);
    AuthorizeApprovedKinds(st, id, env);
    FirstLetterCode();
    st' := AuthorizePayment(st, id, env).value.0;
  }

  method CaptureStage(st: Store, id: string) returns (st': Store)
    requires id in st.payments && st.payments[id].status == Authorized
    ensures id in st'.payments && st'.refunds == st.refunds
    ensures st'.payments[id] == st.payments[id].(status := Succeeded, capturedAt := Some(3), updatedAt := 3)
    ensures EventKinds(GetPaymentEvents(st', id))
            == EventKinds(GetPaymentEvents(st, id)) + [CaptureRequested, PaymentSucceeded]
  {
    var env := EnvAt(3, "c", true);
    CaptureApprovedKinds(st, id, None, env);
    st' := CapturePayment(st, id, None, env).value.0;
  }

  method RefundStage(st: Store, id: string) returns (st': Store, refund: Refund)
    requires id in st.payments && st.payments[id].status == Succeeded && st.refunds == map[]
    ensures id in st'.payments && st'.payments[id] == st.payments[id].(status := Refunded, updatedAt := 4)
    ensures refund.amount == st.payments[id].amount && refund.status.Name() == "succeeded" && refund.paymentId == id
    ensures EventKinds(GetPaymentEvents(st', id))
            == EventKinds(GetPaymentEvents(st, id)) + [RefundCreated, PaymentRefunded]
  {
    var env := EnvAt(4, "d", true);
    RefundKinds(st, id, RefundCreate(None, None), env);
    var refunded := CreateRefund(st, id, RefundCreate(None, None), env);
    st' := refunded.value.0;
    refund := refunded.value.1;
  }

  /** The whole lifecycle of an accepted order: created, authorized, captured
      in full and refunded in full, with the seven events in order. */
  method HappyPath(order: PaymentCreate) returns (p: Payment, refund: Refund, kinds: seq<EventType>)
    requires Accepted(order, Today)
    ensures p.status == Refunded && p.amount == order.amount && p.capturedAt == Some(3)
    ensures p.authorizationCode == Some("AAAAAA") && p.authorizedAt == Some(2)
    ensures refund.amount == order.amount && refund.status.Name() == "succeeded" && refund.paymentId == p.id
    ensures kinds == [PaymentCreated, AuthorizationRequested, PaymentAuthorized,
                      CaptureRequested, PaymentSucceeded, RefundCreated, PaymentRefunded]
  {
    var s1, id := CreateStage(order);
    var s2 := AuthorizeStage(s1, id);
    var s3 := CaptureStage(s2, id);
    var s4;
    s4, refund := RefundStage(s3, id);
    p := s4.payments[id];
    kinds := EventKinds(GetPaymentEvents(s4, id));
  }

  /** The 49.99 USD order on 4242424242424242 is accepted, so it runs the
      happy path. */
  method GoodCardHappyPath() returns (p: Payment, refund: Refund)
    ensures p.status == Refunded && refund.amount == 4999
  {
    GoodCardAccepted();
    var kinds;
    p, refund, kinds := HappyPath(Order(GoodCard));
  }

  /** An order the validator rejects is stored FAILED with the validator's
      reason and a single `payment.created` event, and authorizing it is
      refused without touching the store. */
  method RejectedOrderPath(order: PaymentCreate) returns (p: Payment, authorize: Result<(Store, Payment), ServiceError>, kinds: seq<EventType>)
    requires !Accepted(order, Today)
    ensures p.status == Failed
    ensures p.errorMessage == Some(ValidateCard(order.card.number, order.card.expMonth, order.card.expYear, order.card.cvc, Today).1)
    ensures authorize == Err(InvalidState(AuthorizeOp, Failed))
    ensures kinds == [PaymentCreated]
  {
    var created := CreatePayment(EmptyStore, order, EnvAt(1, "a", true));
    p := created.1;
    authorize := AuthorizePayment(created.0, p.id, EnvAt(2, "b", true));
    kinds := EventKinds(GetPaymentEvents(created.0, p.id));
  }

  /** The 49.99 USD order on the deny-listed 4000000000000002 is stored FAILED
      with the issuer's reason and cannot be authorized. */
  method DeniedTestCardPath() returns (p: Payment, authorize: Result<(Store, Payment), ServiceError>)
    ensures p.status == Failed && p.errorMessage == Some("Card declined by issuer")
    ensures authorize == Err(InvalidState(AuthorizeOp, Failed))
  {
    DeclinedTestCardsDecline(DeniedCard.number, DeniedCard.expMonth, DeniedCard.expYear, DeniedCard.cvc, Today);
    var kinds;
    p, authorize, kinds := RejectedOrderPath(Order(DeniedCard));
  }

  /** Capturing more than the authorized amount is refused and leaves the
      payment AUTHORIZED; capturing exactly the amount is then accepted. */
  method OverCapture(order: PaymentCreate) returns (refused: Result<(Store, Payment), ServiceError>, after: Payment, exact: Payment)
    requires Accepted(order, Today)
    ensures refused == Err(AmountExceeded(CaptureOp))
    ensures after.status == Authorized
    ensures exact.status == Succeeded && exact.amount == order.amount
  {
    var created := CreatePayment(EmptyStore, order, EnvAt(1, "a", true));
    var id := created.1.id;
    var s2 := AuthorizePayment(created.0, id, EnvAt(2, "b", true)).value.0;
    refused := CapturePayment(s2, id, Some(order.amount + 1), EnvAt(3, "c", true));
    after := s2.payments[id];
    exact := CapturePayment(s2, id, Some(order.amount), EnvAt(4, "d", true)).value.1;
  }
}
