/** The payment lifecycle state machine. Each operation reads one payment from
    the store, checks its status guard and optional amount bound, and returns
    either a typed error (the store is then unchanged) or the updated store and
    the resulting snapshot. Randomness, identifiers and the clock arrive in an
    `Env` value, so every operation is a pure function. */
module PaymentService {
  import opened Results
  import opened Models
  import opened CardValidator
  import opened Schemas

  /** Payments by id, the audit log by payment id (in append order), refunds by id. */
  datatype Store = Store(
    payments: map<string, Payment>,
    events: map<string, seq<PaymentEvent>>,
    refunds: map<string, Refund>
  )

  const EmptyStore := Store(map[], map[], map[])

  /** Six draws from the 36-character authorization-code alphabet. */
  type SixPicks = s: seq<nat> | |s| == 6 witness [0, 0, 0, 0, 0, 0]

  /** What one operation takes from outside: the time, the calendar month for
      the expiry check, the outcome of the simulated network decision (90 % for
      authorization, 95 % for capture), the authorization-code draws, and fresh
      uuid hex strings for the entity and for up to two events. */
  datatype Env = Env(
    now: Timestamp,
    today: YearMonth,
    approved: bool,
    authPicks: SixPicks,
    entityHex: string,
    eventHex1: string,
    eventHex2: string
  )

  datatype Operation = AuthorizeOp | CaptureOp | CancelOp | RefundOp

  /** The service's failures: an unknown id, a status the operation does not
      accept, or an amount above the payment's amount. */
  datatype ServiceError =
    | NotFound
    | InvalidState(op: Operation, from: PaymentStatus)
    | AmountExceeded(op: Operation)

  // ---------------------------------------------------------------------------
  // Authorization codes
  // ---------------------------------------------------------------------------

  const AuthCodeAlphabet: string := "ABCDEFGHIJKLMNOPQRSTUVWXYZ0123456789"

  predicate IsAuthCode(code: string) {
    |code| == 6 && forall i :: 0 <= i < 6 ==> ('A' <= code[i] <= 'Z' || '0' <= code[i] <= '9')
  }

  /** `_generate_auth_code`: six characters drawn from upper-case letters and digits. */
  function GenerateAuthCode(picks: SixPicks): (code: string)
    ensures IsAuthCode(code)
    ensures forall i :: 0 <= i < 6 ==> code[i] == AuthCodeAlphabet[picks[i] % 36]
  {
    var code := seq(6, i requires 0 <= i < 6 => AuthCodeAlphabet[picks[i] % 36]);
    assert forall k :: 0 <= k < 36 ==> ('A' <= AuthCodeAlphabet[k] <= 'Z' || '0' <= AuthCodeAlphabet[k] <= '9');
    code
  }

  // ---------------------------------------------------------------------------
  // Event log
  // ---------------------------------------------------------------------------

  /** `get_payment_events`: the payment's events in append order; an unknown id
      has none (no error is raised). */
  function GetPaymentEvents(st: Store, paymentId: string): seq<PaymentEvent> {
    if paymentId in st.events then st.events[paymentId] else []
  }

  /** The event `_log_event` writes, with its id drawn from `hex`. */
  function NewEvent(hex: string, paymentId: string, eventType: EventType, status: PaymentStatus,
                    data: EventData, now: Timestamp): (e: PaymentEvent)
    ensures e.id == EventId(hex) && e.paymentId == paymentId && e.eventType == eventType
    ensures e.status == status && e.data == data && e.createdAt == now
  {
    PaymentEvent(EventId(hex), paymentId, eventType, status, data, now)
  }

  /** `_log_event`: append one event to the payment's log. */
  function LogEvent(st: Store, paymentId: string, hex: string, eventType: EventType,
                    status: PaymentStatus, data: EventData, now: Timestamp): (st': Store)
    ensures st'.payments == st.payments && st'.refunds == st.refunds
    ensures st'.events.Keys == st.events.Keys + {paymentId}
    ensures st'.events == st.events[paymentId := GetPaymentEvents(st, paymentId) + [NewEvent(hex, paymentId, eventType, status, data, now)]]
    ensures forall q :: q != paymentId ==> GetPaymentEvents(st', q) == GetPaymentEvents(st, q)
  {
    var e := NewEvent(hex, paymentId, eventType, status, data, now);
    st.(events := st.events[paymentId := GetPaymentEvents(st, paymentId) + [e]])
  }

  /** Write one payment record under its id. */
  function PutPayment(st: Store, id: string, p: Payment): (st': Store)
    ensures st'.payments == st.payments[id := p] && id in st'.payments
    ensures st'.events == st.events && st'.refunds == st.refunds
  {
    st.(payments := st.payments[id := p])
  }

  // ---------------------------------------------------------------------------
  // Operations
  // ---------------------------------------------------------------------------

  /** `create_payment`: validate the card, store the payment (FAILED with the
      validator's reason when the card is rejected, CREATED otherwise) and log
      one `payment.created` event carrying the stored status. */
  function CreatePayment(st: Store, input: PaymentCreate, env: Env): (r: (Store, Payment))
    requires PaymentId(env.entityHex) !in st.payments
    ensures var st', p := r.0, r.1;
            var verdict := ValidateCard(input.card.number, input.card.expMonth, input.card.expYear,
                                        input.card.cvc, env.today);
            && p.id == PaymentId(env.entityHex)
            && (p.status == Created && p.errorMessage.None? <==> verdict.0)
            && (!verdict.0 ==> p.status == Failed && p.errorMessage == Some(verdict.1))
            && p.amount == input.amount && p.currency == input.currency
            && p.cardLast4 == LastFour(input.card.number)
            && p.cardBrand == GetCardBrand(input.card.number).Name()
            && p.cardExpMonth == input.card.expMonth && p.cardExpYear == input.card.expYear
            && p.customerEmail == input.customerEmail && p.customerName == input.customerName
            && p.description == input.description
            && p.authorizationCode.None? && p.authorizedAt.None? && p.capturedAt.None?
            && p.createdAt == env.now && p.updatedAt == env.now
            && st'.payments == st.payments[p.id := p]
            && st'.refunds == st.refunds
            && st'.events == st.events[p.id := GetPaymentEvents(st, p.id)
                 + [NewEvent(env.eventHex1, p.id, PaymentCreated, p.status,
                             EventData(Some(input.amount), Some(input.currency), None, None), env.now)]]
  {
    var card := input.card;
    var verdict := ValidateCard(card.number, card.expMonth, card.expYear, card.cvc, env.today);
    var valid, error := verdict.0, verdict.1;
    var blank := NewPayment(env.entityHex, input.amount, env.now);
    var p := blank.(
      currency := input.currency,
      cardLast4 := LastFour(card.number),
      cardBrand := GetCardBrand(card.number).Name(),
      cardExpMonth := card.expMonth,
      cardExpYear := card.expYear,
      customerEmail := input.customerEmail,
      customerName := input.customerName,
      description := input.description,
      status := if valid then Created else Failed,
      errorMessage := if valid then None else Some(error));
    var st1 := PutPayment(st, p.id, p);
    var st2 := LogEvent(st1, p.id, env.eventHex1, PaymentCreated, p.status,
                        EventData(Some(input.amount), Some(input.currency), None, None), env.now);
    (st2, p)
  }

  const DeclineMessage := "Authorization declined by card issuer"
  const CaptureFailureMessage := "Capture failed - insufficient funds"

  /** `authorize_payment`: only from CREATED. The payment passes through PENDING
      (logged as `payment.authorization_requested`), then: a payment that
      already carries an error fails with no further event; otherwise the
      network's decision either authorizes it with a fresh code (logged as
      `payment.authorized`) or declines it (logged as `payment.failed`). */
  function AuthorizePayment(st: Store, id: string, env: Env): (r: Result<(Store, Payment), ServiceError>)
    ensures id !in st.payments ==> r == Err(NotFound)
    ensures id in st.payments && st.payments[id].status != Created
            ==> r == Err(InvalidState(AuthorizeOp, st.payments[id].status))
    ensures r.Ok? <==> id in st.payments && st.payments[id].status == Created
    ensures r.Ok? ==>
            var st', p := r.value.0, r.value.1;
            var old_p := st.payments[id];
            var log := GetPaymentEvents(st, id);
            var requested := NewEvent(env.eventHex1, id, AuthorizationRequested, Pending, NoData, env.now);
            && st'.payments == st.payments[id := p] && st'.refunds == st.refunds
            && st'.events == st.events[id := GetPaymentEvents(st', id)]
            && p.amount == old_p.amount && p.currency == old_p.currency && p.id == old_p.id
            && p.capturedAt == old_p.capturedAt && p.updatedAt == env.now
            && (HasError(old_p) ==>
                  && p == old_p.(status := Failed, updatedAt := env.now)
                  && GetPaymentEvents(st', id) == log + [requested])
            && (!HasError(old_p) && env.approved ==>
                  && p == old_p.(status := Authorized, authorizationCode := Some(GenerateAuthCode(env.authPicks)),
                                 authorizedAt := Some(env.now), updatedAt := env.now)
                  && GetPaymentEvents(st', id) == log + [requested,
                       NewEvent(env.eventHex2, id, PaymentAuthorized, Authorized, NoData.(authCode := p.authorizationCode), env.now)])
            && (!HasError(old_p) && !env.approved ==>
                  && p == old_p.(status := Failed, errorMessage := Some(DeclineMessage), updatedAt := env.now)
                  && GetPaymentEvents(st', id) == log + [requested,
                       NewEvent(env.eventHex2, id, PaymentFailed, Failed, NoData, env.now)])
  {
    if id !in st.payments then Err(NotFound)
    else
      var p := st.payments[id];
      if p.status != Created then Err(InvalidState(AuthorizeOp, p.status))
      else
        var pending := p.(status := Pending, updatedAt := env.now);
        var st1 := LogEvent(PutPayment(st, id, pending), id, env.eventHex1, AuthorizationRequested, Pending, NoData, env.now);
        if HasError(p) then
          var failed := pending.(status := Failed, updatedAt := env.now);
          Ok((PutPayment(st1, id, failed), failed))
        else if env.approved then
          var code := GenerateAuthCode(env.authPicks);
          var authorized := pending.(status := Authorized, authorizationCode := Some(code), authorizedAt := Some(env.now));
          var st2 := LogEvent(st1, id, env.eventHex2, PaymentAuthorized, Authorized,
                              NoData.(authCode := Some(code)), env.now);
          var final := authorized.(updatedAt := env.now);
          Ok((PutPayment(st2, id, final), final))
        else
          var declined := pending.(status := Failed, errorMessage := Some(DeclineMessage));
          var st2 := LogEvent(st1, id, env.eventHex2, PaymentFailed, Failed, NoData, env.now);
          var final := declined.(updatedAt := env.now);
          Ok((PutPayment(st2, id, final), final))
  }

  /** `capture_payment`: only from AUTHORIZED; the amount defaults to the
      payment's amount and may not exceed it. The payment passes through
      PROCESSING (logged as `payment.capture_requested` with the amount), then
      either succeeds (`payment.succeeded`) or fails for insufficient funds
      (`payment.failed`). The captured amount is not stored on the payment. */
  function CapturePayment(st: Store, id: string, amount: Option<nat>, env: Env): (r: Result<(Store, Payment), ServiceError>)
    ensures id !in st.payments ==> r == Err(NotFound)
    ensures id in st.payments && st.payments[id].status != Authorized
            ==> r == Err(InvalidState(CaptureOp, st.payments[id].status))
    ensures id in st.payments && st.payments[id].status == Authorized
            && amount.GetOr(st.payments[id].amount) > st.payments[id].amount
            ==> r == Err(AmountExceeded(CaptureOp))
    ensures r.Ok? <==> id in st.payments && st.payments[id].status == Authorized
                       && amount.GetOr(st.payments[id].amount) <= st.payments[id].amount
    ensures r.Ok? ==>
            var st', p := r.value.0, r.value.1;
            var old_p := st.payments[id];
            var captured := amount.GetOr(old_p.amount);
            var log := GetPaymentEvents(st, id);
            var requested := NewEvent(env.eventHex1, id, CaptureRequested, Processing, NoData.(amount := Some(captured)), env.now);
            && st'.payments == st.payments[id := p] && st'.refunds == st.refunds
            && st'.events == st.events[id := GetPaymentEvents(st', id)]
            && p.amount == old_p.amount
            && (env.approved ==>
                  && p == old_p.(status := Succeeded, capturedAt := Some(env.now), updatedAt := env.now)
                  && GetPaymentEvents(st', id) == log + [requested,
                       NewEvent(env.eventHex2, id, PaymentSucceeded, Succeeded, NoData.(amount := Some(captured)), env.now)])
            && (!env.approved ==>
                  && p == old_p.(status := Failed, errorMessage := Some(CaptureFailureMessage), updatedAt := env.now)
                  && GetPaymentEvents(st', id) == log + [requested,
                       NewEvent(env.eventHex2, id, PaymentFailed, Failed, NoData, env.now)])
  {
    if id !in st.payments then Err(NotFound)
    else
      var p := st.payments[id];
      if p.status != Authorized then Err(InvalidState(CaptureOp, p.status))
      else
        var captureAmount := amount.GetOr(p.amount);
        if captureAmount > p.amount then Err(AmountExceeded(CaptureOp))
        else
          var processing := p.(status := Processing, updatedAt := env.now);
          var st1 := LogEvent(PutPayment(st, id, processing), id, env.eventHex1, CaptureRequested, Processing,
                              NoData.(amount := Some(captureAmount)), env.now);
          var e1 := NewEvent(env.eventHex1, id, CaptureRequested, Processing, NoData.(amount := Some(captureAmount)), env.now);
          var e2 := if env.approved
                    then NewEvent(env.eventHex2, id, PaymentSucceeded, Succeeded, NoData.(amount := Some(captureAmount)), env.now)
                    else NewEvent(env.eventHex2, id, PaymentFailed, Failed, NoData, env.now);
          assert GetPaymentEvents(st, id) + [e1] + [e2] == GetPaymentEvents(st, id) + [e1, e2];
          Ok(SettleCapture(st1, id, processing, captureAmount, env))
  }

  /** The second half of `capture_payment`: the simulated network decides, the
      payment leaves PROCESSING, and the outcome is logged. */
  function SettleCapture(st: Store, id: string, processing: Payment, captured: nat, env: Env): (r: (Store, Payment))
    ensures r.0.payments == st.payments[id := r.1] && r.0.refunds == st.refunds
    ensures env.approved ==>
              && r.1 == processing.(status := Succeeded, capturedAt := Some(env.now), updatedAt := env.now)
              && r.0.events == st.events[id := GetPaymentEvents(st, id)
                   + [NewEvent(env.eventHex2, id, PaymentSucceeded, Succeeded, NoData.(amount := Some(captured)), env.now)]]
    ensures !env.approved ==>
              && r.1 == processing.(status := Failed, errorMessage := Some(CaptureFailureMessage), updatedAt := env.now)
              && r.0.events == st.events[id := GetPaymentEvents(st, id)
                   + [NewEvent(env.eventHex2, id, PaymentFailed, Failed, NoData, env.now)]]
  {
    if env.approved then
      var succeeded := processing.(status := Succeeded, capturedAt := Some(env.now));
      var st2 := LogEvent(st, id, env.eventHex2, PaymentSucceeded, Succeeded, NoData.(amount := Some(captured)), env.now);
      var final := succeeded.(updatedAt := env.now);
      (PutPayment(st2, id, final), final)
    else
      var failed := processing.(status := Failed, errorMessage := Some(CaptureFailureMessage));
      var st2 := LogEvent(st, id, env.eventHex2, PaymentFailed, Failed, NoData, env.now);
      var final := failed.(updatedAt := env.now);
      (PutPayment(st2, id, final), final)
  }

  /** `cancel_payment`: only from CREATED or AUTHORIZED, straight to CANCELLED
      with one `payment.cancelled` event. */
  function CancelPayment(st: Store, id: string, env: Env): (r: Result<(Store, Payment), ServiceError>)
    ensures id !in st.payments ==> r == Err(NotFound)
    ensures id in st.payments && st.payments[id].status !in {Created, Authorized}
            ==> r == Err(InvalidState(CancelOp, st.payments[id].status))
    ensures r.Ok? <==> id in st.payments && st.payments[id].status in {Created, Authorized}
    ensures r.Ok? ==>
            var st', p := r.value.0, r.value.1;
            && p == st.payments[id].(status := Cancelled, updatedAt := env.now)
            && st'.payments == st.payments[id := p] && st'.refunds == st.refunds
            && st'.events == st.events[id := GetPaymentEvents(st, id)
                 + [NewEvent(env.eventHex1, id, PaymentCancelled, Cancelled, NoData, env.now)]]
  {
    if id !in st.payments then Err(NotFound)
    else
      var p := st.payments[id];
      if p.status !in {Created, Authorized} then Err(InvalidState(CancelOp, p.status))
      else
        var cancelled := p.(status := Cancelled, updatedAt := env.now);
        var st1 := PutPayment(st, id, cancelled);
        Ok((LogEvent(st1, id, env.eventHex1, PaymentCancelled, Cancelled, NoData, env.now), cancelled))
  }

  /** `create_refund`: only from SUCCEEDED; the amount defaults to the payment's
      amount and may not exceed it. A pending refund is recorded, the payment
      passes through REFUND_PENDING (`refund.created`), then the refund is
      marked succeeded and the payment REFUNDED (`payment.refunded`). */
  function CreateRefund(st: Store, id: string, req: RefundCreate, env: Env): (r: Result<(Store, Refund), ServiceError>)
    requires RefundId(env.entityHex) !in st.refunds
    ensures id !in st.payments ==> r == Err(NotFound)
    ensures id in st.payments && st.payments[id].status != Succeeded
            ==> r == Err(InvalidState(RefundOp, st.payments[id].status))
    ensures id in st.payments && st.payments[id].status == Succeeded
            && req.amount.GetOr(st.payments[id].amount) > st.payments[id].amount
            ==> r == Err(AmountExceeded(RefundOp))
    ensures r.Ok? <==> id in st.payments && st.payments[id].status == Succeeded
                       && req.amount.GetOr(st.payments[id].amount) <= st.payments[id].amount
    ensures r.Ok? ==>
            var st', refund := r.value.0, r.value.1;
            var old_p := st.payments[id];
            var amount := req.amount.GetOr(old_p.amount);
            var data := NoData.(amount := Some(amount), refundId := Some(refund.id));
            && refund.id == RefundId(env.entityHex) && refund.paymentId == id
            && refund.amount == amount && refund.amount <= old_p.amount && refund.reason == req.reason
            && refund.status == RefundSucceeded && refund.processedAt == Some(env.now)
            && refund.createdAt == env.now
            && st'.refunds == st.refunds[refund.id := refund]
            && st'.payments == st.payments[id := old_p.(status := Refunded, updatedAt := env.now)]
            && st'.events == st.events[id := GetPaymentEvents(st, id)
                 + [NewEvent(env.eventHex1, id, RefundCreated, RefundPending, data, env.now),
                    NewEvent(env.eventHex2, id, PaymentRefunded, Refunded, data, env.now)]]
  {
    if id !in st.payments then Err(NotFound)
    else
      var p := st.payments[id];
      if p.status != Succeeded then Err(InvalidState(RefundOp, p.status))
      else
        var amount := req.amount.GetOr(p.amount);
        if amount > p.amount then Err(AmountExceeded(RefundOp))
        else
          var pendingRefund := NewRefund(env.entityHex, id, amount, req.reason, env.now);
          var st1 := st.(refunds := st.refunds[pendingRefund.id := pendingRefund]);
          var refundPending := p.(status := RefundPending, updatedAt := env.now);
          var data := NoData.(amount := Some(amount), refundId := Some(pendingRefund.id));
          var st2 := LogEvent(PutPayment(st1, id, refundPending), id, env.eventHex1, RefundCreated, RefundPending, data, env.now);
          var e1 := NewEvent(env.eventHex1, id, RefundCreated, RefundPending, data, env.now);
          var e2 := NewEvent(env.eventHex2, id, PaymentRefunded, Refunded, data, env.now);
          assert GetPaymentEvents(st2, id) == GetPaymentEvents(st, id) + [e1];
          assert GetPaymentEvents(st, id) + [e1] + [e2] == GetPaymentEvents(st, id) + [e1, e2];
          Ok(SettleRefund(st2, id, refundPending, pendingRefund, data, env))
  }

  /** The second half of `create_refund`: the pending refund is marked
      succeeded, the payment leaves REFUND_PENDING for REFUNDED, and
      `payment.refunded` is logged. */
  function SettleRefund(st: Store, id: string, refundPending: Payment, pendingRefund: Refund, data: EventData, env: Env): (r: (Store, Refund))
    ensures r.1 == pendingRefund.(status := RefundSucceeded, processedAt := Some(env.now))
    ensures r.0.refunds == st.refunds[r.1.id := r.1]
    ensures r.0.payments == st.payments[id := refundPending.(status := Refunded, updatedAt := env.now)]
    ensures r.0.events == st.events[id := GetPaymentEvents(st, id)
              + [NewEvent(env.eventHex2, id, PaymentRefunded, Refunded, data, env.now)]]
  {
    var processed := pendingRefund.(status := RefundSucceeded, processedAt := Some(env.now));
    var refunded := refundPending.(status := Refunded, updatedAt := env.now);
    var st3 := PutPayment(st.(refunds := st.refunds[processed.id := processed]), id, refunded);
    (LogEvent(st3, id, env.eventHex2, PaymentRefunded, Refunded, data, env.now), processed)
  }

  /** `get_payment`: the stored payment, or NotFound. */
  function GetPayment(st: Store, id: string): (r: Result<Payment, ServiceError>)
    ensures r.Ok? <==> id in st.payments
    ensures r.Ok? ==> r.value == st.payments[id]
    ensures r.Err? ==> r.error == NotFound
  {
    if id in st.payments then Ok(st.payments[id]) else Err(NotFound)
  }
}
