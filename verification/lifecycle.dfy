/** The service as one dispatcher over commands, so that properties can be
    stated about every call and about whole sequences of calls: a failed call
    changes nothing, a read changes nothing, and after any sequence of calls
    from an empty store the invariant holds and no payment is left in an
    intermediate status. */
module Lifecycle {
  import opened Results
  import opened Models
  import opened Schemas
  import opened PaymentService
  import opened ServiceProperties

  /** One call of the service. */
  datatype Command =
    | Create(input: PaymentCreate)
    | Authorize(id: string)
    | Capture(id: string, amount: Option<nat>)
    | Cancel(id: string)
    | RefundPayment(id: string, req: RefundCreate)
    | Get(id: string)
    | Events(id: string)

  /** What a call returns: a payment snapshot, a refund, a log, or an error. */
  datatype Response =
    | PaymentResponse(payment: Payment)
    | RefundResponse(refund: Refund)
    | EventsResponse(events: seq<PaymentEvent>)
    | Failure(error: ServiceError)

  predicate IsRead(cmd: Command) {
    cmd.Get? || cmd.Events?
  }

  /** The payment whose record and log a command touches. */
  function Target(cmd: Command, env: Env): string {
    if cmd.Create? then PaymentId(env.entityHex) else cmd.id
  }

  /** The uuids drawn for a call are not already in use. */
  predicate FreshIds(st: Store, env: Env) {
    PaymentId(env.entityHex) !in st.payments && RefundId(env.entityHex) !in st.refunds
  }

  /** What every mutating call promises about the store, whichever operation
      serves it: a failure changes nothing, nothing is removed, a success
      lengthens the log of the payment `id`, and an unknown id is NotFound. */
  predicate Settles(st: Store, id: string, r: (Store, Response)) {
    && (r.1.Failure? ==> r.0 == st)
    && st.payments.Keys <= r.0.payments.Keys && st.refunds.Keys <= r.0.refunds.Keys
    && (!r.1.Failure? ==> |GetPaymentEvents(r.0, id)| > |GetPaymentEvents(st, id)|)
    && (r.1.Failure? && id !in st.payments ==> r.1.error == NotFound)
  }

  /** A payment-returning operation's result as a response. */
  function PaymentReply(st: Store, r: Result<(Store, Payment), ServiceError>): (Store, Response) {
    if r.Ok? then (r.value.0, PaymentResponse(r.value.1)) else (st, Failure(r.error))
  }

  function CreateCall(st: Store, input: PaymentCreate, env: Env): (r: (Store, Response))
    requires FreshIds(st, env)
    ensures Settles(st, PaymentId(env.entityHex), r) && r.1.PaymentResponse?
  {
    var created := CreatePayment(st, input, env);
    (created.0, PaymentResponse(created.1))
  }

  function AuthorizeCall(st: Store, id: string, env: Env): (r: (Store, Response))
    ensures Settles(st, id, r)
  {
    PaymentReply(st, AuthorizePayment(st, id, env))
  }

  function CaptureCall(st: Store, id: string, amount: Option<nat>, env: Env): (r: (Store, Response))
    ensures Settles(st, id, r)
  {
    PaymentReply(st, CapturePayment(st, id, amount, env))
  }

  function CancelCall(st: Store, id: string, env: Env): (r: (Store, Response))
    ensures Settles(st, id, r)
  {
    PaymentReply(st, CancelPayment(st, id, env))
  }

  function RefundCall(st: Store, id: string, req: RefundCreate, env: Env): (r: (Store, Response))
    requires FreshIds(st, env)
    ensures Settles(st, id, r)
  {
    var refunded := CreateRefund(st, id, req, env);
    if refunded.Ok? then (refunded.value.0, RefundResponse(refunded.value.1)) else (st, Failure(refunded.error))
  }

  /** What a read promises: the store is unchanged, listing events returns the
      log, and a lookup fails, with NotFound, exactly for an unknown id. */
  predicate Answers(st: Store, cmd: Command, r: (Store, Response))
    requires IsRead(cmd)
  {
    && r.0 == st
    && (cmd.Events? ==> r.1 == EventsResponse(GetPaymentEvents(st, cmd.id)))
    && (cmd.Get? ==> (r.1.Failure? <==> cmd.id !in st.payments))
    && (cmd.Get? && r.1.Failure? ==> r.1.error == NotFound)
  }

  function GetCall(st: Store, id: string): (r: (Store, Response))
    ensures Answers(st, Get(id), r)
  {
    var found := GetPayment(st, id);
    if found.Ok? then (st, PaymentResponse(found.value)) else (st, Failure(found.error))
  }

  function EventsCall(st: Store, id: string): (r: (Store, Response))
    ensures Answers(st, Events(id), r)
  {
    (st, EventsResponse(GetPaymentEvents(st, id)))
  }

  /** Dispatch one command to the operation that serves it. */
  function Step(st: Store, cmd: Command, env: Env): (r: (Store, Response))
    requires FreshIds(st, env)
    ensures !IsRead(cmd) ==> Settles(st, Target(cmd, env), r)
    ensures IsRead(cmd) ==> Answers(st, cmd, r)
  {
    match cmd
    case Create(input) => CreateCall(st, input, env)
    case Authorize(id) => AuthorizeCall(st, id, env)
    case Capture(id, amount) => CaptureCall(st, id, amount, env)
    case Cancel(id) => CancelCall(st, id, env)
    case RefundPayment(id, req) => RefundCall(st, id, req, env)
    case Get(id) => GetCall(st, id)
    case Events(id) => EventsCall(st, id)
  }

  /** Every call keeps the invariant and only ever appends to logs. */
  lemma StepPreservesInv(st: Store, cmd: Command, env: Env)
    requires Inv(st) && FreshIds(st, env)
    ensures Inv(Step(st, cmd, env).0)
    ensures LogsExtended(st, Step(st, cmd, env).0)
  {
    match cmd
    case Create(input) => CreatePreservesInv(st, input, env);
    case Authorize(id) =>
      if AuthorizePayment(st, id, env).Ok? { AuthorizePreservesInv(st, id, env); }
    case Capture(id, amount) =>
      if CapturePayment(st, id, amount, env).Ok? { CapturePreservesInv(st, id, amount, env); }
    case Cancel(id) =>
      if CancelPayment(st, id, env).Ok? { CancelPreservesInv(st, id, env); }
    case RefundPayment(id, req) =>
      if CreateRefund(st, id, req, env).Ok? { RefundPreservesInv(st, id, req, env); }
    case Get(id) =>
    case Events(id) =>
  }

  /** A sequence of calls whose uuids are fresh at the moment each is drawn. */
  predicate Runnable(st: Store, calls: seq<(Command, Env)>)
    decreases |calls|
  {
    calls == [] ||
    (FreshIds(st, calls[0].1) && Runnable(Step(st, calls[0].0, calls[0].1).0, calls[1..]))
  }

  /** The store after a sequence of calls, and their responses in order. */
  function Run(st: Store, calls: seq<(Command, Env)>): (r: (Store, seq<Response>))
    requires Runnable(st, calls)
    ensures |r.1| == |calls|
    ensures st.payments.Keys <= r.0.payments.Keys && st.refunds.Keys <= r.0.refunds.Keys
    ensures (forall i :: 0 <= i < |calls| ==> IsRead(calls[i].0)) ==> r.0 == st
    decreases |calls|
  {
    if calls == [] then (st, [])
    else
      var first := Step(st, calls[0].0, calls[0].1);
      var rest := Run(first.0, calls[1..]);
      assert forall i :: 0 <= i < |calls[1..]| ==> calls[1..][i] == calls[i + 1];
      (rest.0, [first.1] + rest.1)
  }

  /** From any store satisfying the invariant, a run of calls keeps it: in
      particular no payment is ever left PENDING, PROCESSING or REFUND_PENDING,
      and every log of the starting store is a prefix of its final log. */
  lemma {:induction false} RunPreservesInv(st: Store, calls: seq<(Command, Env)>)
    requires Inv(st) && Runnable(st, calls)
    ensures Inv(Run(st, calls).0)
    ensures AllAtRest(Run(st, calls).0)
    ensures LogsExtended(st, Run(st, calls).0)
    decreases |calls|
  {
    if calls == [] {
      InvImpliesAtRest(st);
      LogsExtendedRefl(st);
    } else {
      var st1 := Step(st, calls[0].0, calls[0].1).0;
      StepPreservesInv(st, calls[0].0, calls[0].1);
      RunPreservesInv(st1, calls[1..]);
      LogsExtendedTrans(st, st1, Run(st1, calls[1..]).0);
    }
  }

  /** Every reachable store has all of its payments at rest. */
  lemma ReachableAtRest(calls: seq<(Command, Env)>)
    requires Runnable(EmptyStore, calls)
    ensures AllAtRest(Run(EmptyStore, calls).0)
  {
    InvEmpty();
    RunPreservesInv(EmptyStore, calls);
  }
}
