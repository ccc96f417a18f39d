/** Properties of the payment lifecycle across operations: a store invariant
    that every operation preserves (in particular, no payment is ever left in an
    intermediate status), the append-only audit log and the one-refund rule. */
module ServiceProperties {
  import opened Results
  import opened Models
  import opened CardValidator
  import opened Schemas
  import opened PaymentService

  /** Statuses that exist only inside a single operation. */
  predicate IsIntermediate(s: PaymentStatus) {
    s in {Pending, Processing, RefundPending}
  }

  /** A stored payment is keyed by its own id, is internally consistent, rests in
      a non-intermediate status, and its log is non-empty, all its own, and ends
      with an event carrying the payment's current status. */
  predicate PaymentWellFormed(st: Store, pid: string)
    requires pid in st.payments
  {
    var p := st.payments[pid];
    && p.id == pid
    && Consistent(p)
    && !IsIntermediate(p.status)
    && (p.authorizationCode.Some? ==> IsAuthCode(p.authorizationCode.value))
    && pid in st.events
    && |st.events[pid]| > 0
    && st.events[pid][|st.events[pid]| - 1].status == p.status
    && forall i :: 0 <= i < |st.events[pid]| ==> st.events[pid][i].paymentId == pid
  }

  /** A stored refund is keyed by its id, processed, and belongs to a REFUNDED
      payment whose amount bounds it. */
  predicate RefundWellFormed(st: Store, rid: string)
    requires rid in st.refunds
  {
    var rf := st.refunds[rid];
    && rf.id == rid
    && rf.status == RefundSucceeded && rf.processedAt.Some?
    && rf.paymentId in st.payments
    && st.payments[rf.paymentId].status == Refunded
    && rf.amount <= st.payments[rf.paymentId].amount
  }

  predicate Inv(st: Store) {
    && st.events.Keys == st.payments.Keys
    && (forall pid :: pid in st.payments ==> PaymentWellFormed(st, pid))
    && (forall rid :: rid in st.refunds ==> RefundWellFormed(st, rid))
    && (forall r1, r2 ::
          (r1 in st.refunds && r2 in st.refunds && st.refunds[r1].paymentId == st.refunds[r2].paymentId) ==> r1 == r2)
  }

  /** Every payment of an invariant-respecting store is at rest. */
  predicate AllAtRest(st: Store) {
    forall pid :: pid in st.payments ==> !IsIntermediate(st.payments[pid].status)
  }

  lemma InvEmpty()
    ensures Inv(EmptyStore)
  {
  }

  /** Every log of `st` is a prefix of the same payment's log in `st'`. */
  ghost predicate LogsExtended(st: Store, st': Store) {
    forall pid :: |GetPaymentEvents(st, pid)| <= |GetPaymentEvents(st', pid)|
                  && GetPaymentEvents(st', pid)[..|GetPaymentEvents(st, pid)|] == GetPaymentEvents(st, pid)
  }

  /** The invariant keeps every payment out of the intermediate statuses. */
  lemma InvImpliesAtRest(st: Store)
    requires Inv(st)
    ensures AllAtRest(st)
  {
    forall pid | pid in st.payments ensures !IsIntermediate(st.payments[pid].status) {
      assert PaymentWellFormed(st, pid);
    }
  }

  /** `get_payment_events` answers an unknown id with an empty log rather than an
      error; in a store satisfying the invariant the log is empty exactly for
      unknown ids, and a known payment's log ends with its current status. */
  lemma EventsOfKnownPaymentsOnly(st: Store, id: string)
    requires Inv(st)
    ensures GetPaymentEvents(st, id) == [] <==> id !in st.payments
    ensures id in st.payments ==>
              GetPaymentEvents(st, id)[|GetPaymentEvents(st, id)| - 1].status == st.payments[id].status
  {
    if id in st.payments {
      assert PaymentWellFormed(st, id);
    }
  }

  lemma LogsExtendedRefl(st: Store)
    ensures LogsExtended(st, st)
  {
    forall pid ensures GetPaymentEvents(st, pid)[..|GetPaymentEvents(st, pid)|] == GetPaymentEvents(st, pid) {
    }
  }

  /** Log extension composes along consecutive stores. */
  lemma LogsExtendedTrans(st1: Store, st2: Store, st3: Store)
    requires LogsExtended(st1, st2) && LogsExtended(st2, st3)
    ensures LogsExtended(st1, st3)
  {
    forall pid ensures |GetPaymentEvents(st1, pid)| <= |GetPaymentEvents(st3, pid)|
                       && GetPaymentEvents(st3, pid)[..|GetPaymentEvents(st1, pid)|] == GetPaymentEvents(st1, pid)
    {
      var a, b, c := GetPaymentEvents(st1, pid), GetPaymentEvents(st2, pid), GetPaymentEvents(st3, pid);
      assert b[..|b|] == c[..|b|];
      assert c[..|a|] == c[..|b|][..|a|];
    }
  }

  // ---------------------------------------------------------------------------
  // Preservation, operation by operation
  // ---------------------------------------------------------------------------

  /** Rewriting one payment that has no refund, and appending events to its
      log, keeps the invariant when the new record and the last new event agree. */
  lemma {:induction false} UpdateKeepsInv(st: Store, st': Store, id: string, p: Payment, added: seq<PaymentEvent>)
    requires Inv(st)
    requires st'.payments == st.payments[id := p] && st'.refunds == st.refunds
    requires st'.events == st.events[id := GetPaymentEvents(st, id) + added]
    requires id in st.payments ==> st.payments[id].status != Refunded
    requires p.id == id && Consistent(p) && !IsIntermediate(p.status) && p.status != Refunded
    requires p.authorizationCode.Some? ==> IsAuthCode(p.authorizationCode.value)
    requires |added| > 0 && added[|added| - 1].status == p.status
    requires forall i :: 0 <= i < |added| ==> added[i].paymentId == id
    ensures Inv(st')
    ensures LogsExtended(st, st')
  {
    assert id in st.payments ==> PaymentWellFormed(st, id);
    var log' := GetPaymentEvents(st, id) + added;
    forall i | 0 <= i < |log'| ensures log'[i].paymentId == id {
      if i >= |GetPaymentEvents(st, id)| {
        assert log'[i] == added[i - |GetPaymentEvents(st, id)|];
      }
    }
    assert PaymentWellFormed(st', id);
    forall pid | pid in st'.payments ensures PaymentWellFormed(st', pid) {
      if pid != id {
        assert PaymentWellFormed(st, pid);
      }
    }
    forall rid | rid in st'.refunds ensures RefundWellFormed(st', rid) {
      assert RefundWellFormed(st, rid);
    }
    forall pid ensures |GetPaymentEvents(st, pid)| <= |GetPaymentEvents(st', pid)|
                       && GetPaymentEvents(st', pid)[..|GetPaymentEvents(st, pid)|] == GetPaymentEvents(st, pid)
    {
      if pid == id {
        assert GetPaymentEvents(st', pid) == log';
      }
    }
  }

  lemma CreatePreservesInv(st: Store, input: PaymentCreate, env: Env)
    requires Inv(st) && PaymentId(env.entityHex) !in st.payments
    ensures Inv(CreatePayment(st, input, env).0)
    ensures LogsExtended(st, CreatePayment(st, input, env).0)
  {
    var created := CreatePayment(st, input, env);
    var st', p := created.0, created.1;
    var data := EventData(Some(input.amount), Some(input.currency), None, None);
    UpdateKeepsInv(st, st', p.id, p, [NewEvent(env.eventHex1, p.id, PaymentCreated, p.status, data, env.now)]);
  }

  /** Under the invariant a CREATED payment carries no error, so the branch of
      `authorize_payment` that fails a payment for an earlier validation error
      is never taken: invalid cards are stored FAILED at creation instead. */
  lemma AuthorizeErrorBranchUnreachable(st: Store, id: string)
    requires Inv(st) && id in st.payments && st.payments[id].status == Created
    ensures !HasError(st.payments[id])
  {
    assert PaymentWellFormed(st, id);
  }

  lemma AuthorizePreservesInv(st: Store, id: string, env: Env)
    requires Inv(st)
    requires AuthorizePayment(st, id, env).Ok?
    ensures Inv(AuthorizePayment(st, id, env).value.0)
    ensures LogsExtended(st, AuthorizePayment(st, id, env).value.0)
  {
    AuthorizeErrorBranchUnreachable(st, id);
    if env.approved {
      AuthorizeApprovedKeepsInv(st, id, env);
    } else {
      AuthorizeDeclinedKeepsInv(st, id, env);
    }
  }

  lemma AuthorizeApprovedKeepsInv(st: Store, id: string, env: Env)
    requires Inv(st) && env.approved
    requires AuthorizePayment(st, id, env).Ok? && !HasError(st.payments[id])
    ensures Inv(AuthorizePayment(st, id, env).value.0)
    ensures LogsExtended(st, AuthorizePayment(st, id, env).value.0)
  {
    var r := AuthorizePayment(st, id, env).value;
    assert PaymentWellFormed(st, id);
    var requested := NewEvent(env.eventHex1, id, AuthorizationRequested, Pending, NoData, env.now);
    var authorized := NewEvent(env.eventHex2, id, PaymentAuthorized, Authorized, NoData.(authCode := r.1.authorizationCode), env.now);
    UpdateKeepsInv(st, r.0, id, r.1, [requested, authorized]);
  }

  lemma AuthorizeDeclinedKeepsInv(st: Store, id: string, env: Env)
    requires Inv(st) && !env.approved
    requires AuthorizePayment(st, id, env).Ok? && !HasError(st.payments[id])
    ensures Inv(AuthorizePayment(st, id, env).value.0)
    ensures LogsExtended(st, AuthorizePayment(st, id, env).value.0)
  {
    var r := AuthorizePayment(st, id, env).value;
    assert PaymentWellFormed(st, id);
    var requested := NewEvent(env.eventHex1, id, AuthorizationRequested, Pending, NoData, env.now);
    UpdateKeepsInv(st, r.0, id, r.1, [requested, NewEvent(env.eventHex2, id, PaymentFailed, Failed, NoData, env.now)]);
  }

  lemma CapturePreservesInv(st: Store, id: string, amount: Option<nat>, env: Env)
    requires Inv(st)
    requires CapturePayment(st, id, amount, env).Ok?
    ensures Inv(CapturePayment(st, id, amount, env).value.0)
    ensures LogsExtended(st, CapturePayment(st, id, amount, env).value.0)
  {
    if env.approved {
      CaptureApprovedKeepsInv(st, id, amount, env);
    } else {
      CaptureDeclinedKeepsInv(st, id, amount, env);
    }
  }

  lemma CaptureApprovedKeepsInv(st: Store, id: string, amount: Option<nat>, env: Env)
    requires Inv(st) && env.approved
    requires CapturePayment(st, id, amount, env).Ok?
    ensures Inv(CapturePayment(st, id, amount, env).value.0)
    ensures LogsExtended(st, CapturePayment(st, id, amount, env).value.0)
  {
    var r := CapturePayment(st, id, amount, env).value;
    var st', p := r.0, r.1;
    assert PaymentWellFormed(st, id);
    var data := NoData.(amount := Some(amount.GetOr(st.payments[id].amount)));
    var requested := NewEvent(env.eventHex1, id, CaptureRequested, Processing, data, env.now);
    var added := [requested, NewEvent(env.eventHex2, id, PaymentSucceeded, Succeeded, data, env.now)];
    UpdateKeepsInv(st, st', id, p, added);
  }

  lemma CaptureDeclinedKeepsInv(st: Store, id: string, amount: Option<nat>, env: Env)
    requires Inv(st) && !env.approved
    requires CapturePayment(st, id, amount, env).Ok?
    ensures Inv(CapturePayment(st, id, amount, env).value.0)
    ensures LogsExtended(st, CapturePayment(st, id, amount, env).value.0)
  {
    var r := CapturePayment(st, id, amount, env).value;
    var st', p := r.0, r.1;
    assert PaymentWellFormed(st, id);
    var data := NoData.(amount := Some(amount.GetOr(st.payments[id].amount)));
    var requested := NewEvent(env.eventHex1, id, CaptureRequested, Processing, data, env.now);
    var added := [requested, NewEvent(env.eventHex2, id, PaymentFailed, Failed, NoData, env.now)];
    UpdateKeepsInv(st, st', id, p, added);
  }

  lemma CancelPreservesInv(st: Store, id: string, env: Env)
    requires Inv(st)
    requires CancelPayment(st, id, env).Ok?
    ensures Inv(CancelPayment(st, id, env).value.0)
    ensures LogsExtended(st, CancelPayment(st, id, env).value.0)
  {
    var r := CancelPayment(st, id, env).value;
    var st', p := r.0, r.1;
    assert PaymentWellFormed(st, id);
    UpdateKeepsInv(st, st', id, p, [NewEvent(env.eventHex1, id, PaymentCancelled, Cancelled, NoData, env.now)]);
  }

  /** Recording the first refund of a SUCCEEDED payment, marking that payment
      REFUNDED and appending to its log keeps the invariant. */
  lemma {:induction false} RefundKeepsInv(st: Store, st': Store, id: string, rf: Refund, now: Timestamp, added: seq<PaymentEvent>)
    requires Inv(st) && id in st.payments && st.payments[id].status == Succeeded
    requires rf.id !in st.refunds && rf.paymentId == id
    requires rf.status == RefundSucceeded && rf.processedAt.Some? && rf.amount <= st.payments[id].amount
    requires st'.refunds == st.refunds[rf.id := rf]
    requires st'.payments == st.payments[id := st.payments[id].(status := Refunded, updatedAt := now)]
    requires st'.events == st.events[id := GetPaymentEvents(st, id) + added]
    requires |added| > 0 && added[|added| - 1].status == Refunded
    requires forall i :: 0 <= i < |added| ==> added[i].paymentId == id
    ensures Inv(st')
    ensures LogsExtended(st, st')
  {
    RefundedPaymentWellFormed(st, st', id, added);
    forall pid | pid in st'.payments ensures PaymentWellFormed(st', pid) {
      if pid != id {
        assert PaymentWellFormed(st, pid);
      }
    }
    forall rid | rid in st'.refunds ensures RefundWellFormed(st', rid) {
      if rid != rf.id {
        OlderRefundNotOf(st, id, rid);
        assert RefundWellFormed(st, rid);
      }
    }
    forall r1, r2 | r1 in st'.refunds && r2 in st'.refunds && st'.refunds[r1].paymentId == st'.refunds[r2].paymentId
      ensures r1 == r2
    {
      if r1 != rf.id { OlderRefundNotOf(st, id, r1); }
      if r2 != rf.id { OlderRefundNotOf(st, id, r2); }
    }
    forall pid ensures |GetPaymentEvents(st, pid)| <= |GetPaymentEvents(st', pid)|
                       && GetPaymentEvents(st', pid)[..|GetPaymentEvents(st, pid)|] == GetPaymentEvents(st, pid)
    {
      if pid == id {
        assert GetPaymentEvents(st', pid) == GetPaymentEvents(st, id) + added;
      }
    }
  }

  /** A payment that is still SUCCEEDED has no refund yet: any refund's payment
      is REFUNDED. */
  lemma OlderRefundNotOf(st: Store, id: string, rid: string)
    requires Inv(st) && id in st.payments && st.payments[id].status == Succeeded
    requires rid in st.refunds
    ensures st.refunds[rid].paymentId != id
  {
    assert RefundWellFormed(st, rid);
  }

  lemma {:induction false} RefundedPaymentWellFormed(st: Store, st': Store, id: string, added: seq<PaymentEvent>)
    requires Inv(st) && id in st.payments && st.payments[id].status == Succeeded
    requires id in st'.payments && st'.payments[id] == st.payments[id].(status := Refunded, updatedAt := st'.payments[id].updatedAt)
    requires id in st'.events && st'.events[id] == st.events[id] + added
    requires |added| > 0 && added[|added| - 1].status == Refunded
    requires forall i :: 0 <= i < |added| ==> added[i].paymentId == id
    ensures PaymentWellFormed(st', id)
  {
    assert PaymentWellFormed(st, id);
    var log' := st'.events[id];
    forall i | 0 <= i < |log'| ensures log'[i].paymentId == id {
      if i >= |st.events[id]| {
        assert log'[i] == added[i - |st.events[id]|];
      }
    }
  }

  lemma RefundPreservesInv(st: Store, id: string, req: RefundCreate, env: Env)
    requires Inv(st) && RefundId(env.entityHex) !in st.refunds
    requires CreateRefund(st, id, req, env).Ok?
    ensures Inv(CreateRefund(st, id, req, env).value.0)
    ensures LogsExtended(st, CreateRefund(st, id, req, env).value.0)
  {
    var r := CreateRefund(st, id, req, env).value;
    var st', rf := r.0, r.1;
    var data := NoData.(amount := Some(rf.amount), refundId := Some(rf.id));
    RefundKeepsInv(st, st', id, rf, env.now,
      [NewEvent(env.eventHex1, id, RefundCreated, RefundPending, data, env.now),
       NewEvent(env.eventHex2, id, PaymentRefunded, Refunded, data, env.now)]);
  }

  // ---------------------------------------------------------------------------
  // Cross-operation consequences
  // ---------------------------------------------------------------------------

  /** A refunded payment cannot be refunded again: the second call fails on the
      status guard and leaves the store as it was. */
  lemma SecondRefundRejected(st: Store, id: string, first: RefundCreate, second: RefundCreate, env1: Env, env2: Env)
    requires RefundId(env1.entityHex) !in st.refunds
    requires CreateRefund(st, id, first, env1).Ok?
    requires RefundId(env2.entityHex) !in CreateRefund(st, id, first, env1).value.0.refunds
    ensures CreateRefund(CreateRefund(st, id, first, env1).value.0, id, second, env2)
            == Err(InvalidState(RefundOp, Refunded))
  {
  }

  /** FAILED, CANCELLED and REFUNDED are terminal: every state-changing
      operation rejects them with the current status. */
  lemma TerminalStatusesRejectAll(st: Store, id: string, amount: Option<nat>, req: RefundCreate, env: Env)
    requires id in st.payments && st.payments[id].status in {Failed, Cancelled, Refunded}
    requires RefundId(env.entityHex) !in st.refunds
    ensures AuthorizePayment(st, id, env) == Err(InvalidState(AuthorizeOp, st.payments[id].status))
    ensures CapturePayment(st, id, amount, env) == Err(InvalidState(CaptureOp, st.payments[id].status))
    ensures CancelPayment(st, id, env) == Err(InvalidState(CancelOp, st.payments[id].status))
    ensures CreateRefund(st, id, req, env) == Err(InvalidState(RefundOp, st.payments[id].status))
  {
  }

  /** A card the validator rejects is stored FAILED, so authorizing the new
      payment is refused as an invalid state transition. */
  lemma RejectedCardCannotBeAuthorized(st: Store, input: PaymentCreate, env: Env, env2: Env)
    requires PaymentId(env.entityHex) !in st.payments
    requires !ValidateCard(input.card.number, input.card.expMonth, input.card.expYear, input.card.cvc, env.today).0
    ensures CreatePayment(st, input, env).1.status == Failed
    ensures AuthorizePayment(CreatePayment(st, input, env).0, PaymentId(env.entityHex), env2)
            == Err(InvalidState(AuthorizeOp, Failed))
  {
  }

  /** The refund bound is the payment's amount, not the captured amount: after
      a partial capture, a refund without an amount returns the full amount. */
  lemma RefundMayExceedCapture(st: Store, id: string, captured: nat, env1: Env, env2: Env)
    requires id in st.payments && st.payments[id].status == Authorized
    requires captured < st.payments[id].amount && env1.approved
    requires RefundId(env2.entityHex) !in st.refunds
    ensures CapturePayment(st, id, Some(captured), env1).Ok?
    ensures var st' := CapturePayment(st, id, Some(captured), env1).value.0;
            RefundId(env2.entityHex) !in st'.refunds
            && CreateRefund(st', id, RefundCreate(None, None), env2).Ok?
            && CreateRefund(st', id, RefundCreate(None, None), env2).value.1.amount == st.payments[id].amount > captured
  {
  }
}
