/** The persisted entities of the payment simulator: the nine-state payment
    status, the Payment record, the append-only PaymentEvent and the Refund,
    with the column defaults they are created with. */
module Models {
  import opened Results

  /** Seconds (or any monotone tick) of the clock; the clock itself is a parameter. */
  type Timestamp = int

  /** The payment lifecycle states. */
  datatype PaymentStatus =
    | Created        // payment intent created
    | Pending        // authorization requested
    | Authorized     // funds reserved, not captured
    | Processing     // capture in progress
    | Succeeded      // funds captured
    | Failed
    | Cancelled      // cancelled before capture
    | RefundPending  // refund initiated
    | Refunded
  {
    /** The string stored in the database and returned on the wire. */
    function Code(): string {
      match this
      case Created => "created"
      case Pending => "pending"
      case Authorized => "authorized"
      case Processing => "processing"
      case Succeeded => "succeeded"
      case Failed => "failed"
      case Cancelled => "cancelled"
      case RefundPending => "refund_pending"
      case Refunded => "refunded"
    }
  }

  /** Every status, in declaration order. */
  const AllStatuses: seq<PaymentStatus> :=
    [Created, Pending, Authorized, Processing, Succeeded, Failed, Cancelled, RefundPending, Refunded]

  /** Reads a stored status string back; None for a string that is no status code. */
  function ParseStatus(code: string): (r: Option<PaymentStatus>)
    ensures r.Some? ==> r.value.Code() == code
  {
    match code
    case "created" => Some(Created)
    case "pending" => Some(Pending)
    case "authorized" => Some(Authorized)
    case "processing" => Some(Processing)
    case "succeeded" => Some(Succeeded)
    case "failed" => Some(Failed)
    case "cancelled" => Some(Cancelled)
    case "refund_pending" => Some(RefundPending)
    case "refunded" => Some(Refunded)
    case _ => None
  }

  /** The enumeration has exactly nine members with pairwise distinct codes. */
  lemma StatusCodesDistinct()
    ensures |AllStatuses| == 9
    ensures forall s: PaymentStatus :: s in AllStatuses
    ensures forall i, j :: 0 <= i < j < |AllStatuses| ==> AllStatuses[i].Code() != AllStatuses[j].Code()
  {
    forall s: PaymentStatus ensures s in AllStatuses {
      match s
      case Created => assert AllStatuses[0] == s;
      case Pending => assert AllStatuses[1] == s;
      case Authorized => assert AllStatuses[2] == s;
      case Processing => assert AllStatuses[3] == s;
      case Succeeded => assert AllStatuses[4] == s;
      case Failed => assert AllStatuses[5] == s;
      case Cancelled => assert AllStatuses[6] == s;
      case RefundPending => assert AllStatuses[7] == s;
      case Refunded => assert AllStatuses[8] == s;
    }
  }

  /** Status to string to status is the identity, so the string column loses nothing. */
  lemma StatusRoundTrip(s: PaymentStatus)
    ensures ParseStatus(s.Code()) == Some(s)
  {
  }

  /** The identifier defaults: a uuid4 hex string behind a four-character,
      per-table prefix. */
  function PrefixedId(prefix: string, hex: string): (id: string)
    requires |prefix| == 4
    ensures |id| == |hex| + 4 && id[..4] == prefix && id[4..] == hex
  {
    prefix + hex
  }

  function PaymentId(hex: string): (id: string)
    ensures |id| == |hex| + 4 && id[..4] == "pay_" && id[4..] == hex
  {
    PrefixedId("pay_", hex)
  }

  function EventId(hex: string): (id: string)
    ensures |id| == |hex| + 4 && id[..4] == "evt_" && id[4..] == hex
  {
    PrefixedId("evt_", hex)
  }

  function RefundId(hex: string): (id: string)
    ensures |id| == |hex| + 4 && id[..4] == "ref_" && id[4..] == hex
  {
    PrefixedId("ref_", hex)
  }

  /** Distinct uuids give distinct identifiers, and the three tables never share one. */
  lemma IdsInjective(a: string, b: string)
    ensures PaymentId(a) == PaymentId(b) ==> a == b
    ensures EventId(a) == EventId(b) ==> a == b
    ensures RefundId(a) == RefundId(b) ==> a == b
    ensures PaymentId(a) != EventId(b) && PaymentId(a) != RefundId(b) && EventId(a) != RefundId(b)
  {
    assert PaymentId(a)[..4] != EventId(b)[..4];
    assert PaymentId(a)[..4] != RefundId(b)[..4];
    assert EventId(a)[..4] != RefundId(b)[..4];
  }

  datatype Payment = Payment(
    id: string,
    amount: nat,                      // minor currency units
    currency: string,
    status: PaymentStatus,
    cardLast4: string,
    cardBrand: string,
    cardExpMonth: int,
    cardExpYear: int,
    customerEmail: Option<string>,
    customerName: Option<string>,
    description: Option<string>,
    authorizationCode: Option<string>,
    errorMessage: Option<string>,
    createdAt: Timestamp,
    updatedAt: Timestamp,
    authorizedAt: Option<Timestamp>,
    capturedAt: Option<Timestamp>
  )

  /** Python truthiness of `error_message`: present and non-empty. */
  predicate HasError(p: Payment) {
    p.errorMessage.Some? && p.errorMessage.value != ""
  }

  /** The record-level facts every reachable payment satisfies: a payment still in
      CREATED carries no error, an AUTHORIZED one carries an authorization time and
      code, and captured_at is present exactly in the captured states. */
  predicate Consistent(p: Payment) {
    && (p.status == Created ==> !HasError(p) && p.authorizationCode.None?)
    && (p.status == Authorized ==> p.authorizationCode.Some? && p.authorizedAt.Some?)
    && (p.capturedAt.Some? <==> p.status in {Succeeded, Refunded})
  }

  /** A Payment row as its column defaults make it: CREATED, in USD, with no
      authorization, error or capture, both timestamps at `now`. */
  function NewPayment(hex: string, amount: nat, now: Timestamp): (p: Payment)
    ensures p.id == PaymentId(hex) && p.amount == amount
    ensures p.status == Created && p.currency == "USD"
    ensures p.authorizationCode.None? && p.errorMessage.None?
    ensures p.authorizedAt.None? && p.capturedAt.None?
    ensures p.createdAt == now && p.updatedAt == now
    ensures Consistent(p)
  {
    Payment(PaymentId(hex), amount, "USD", Created, "", "", 0, 0, None, None, None,
            None, None, now, now, None, None)
  }

  /** The `event_type` strings written to the audit log. */
  datatype EventType =
    | PaymentCreated | AuthorizationRequested | PaymentAuthorized | PaymentFailed
    | CaptureRequested | PaymentSucceeded | PaymentCancelled | RefundCreated | PaymentRefunded
  {
    function Name(): string {
      match this
      case PaymentCreated => "payment.created"
      case AuthorizationRequested => "payment.authorization_requested"
      case PaymentAuthorized => "payment.authorized"
      case PaymentFailed => "payment.failed"
      case CaptureRequested => "payment.capture_requested"
      case PaymentSucceeded => "payment.succeeded"
      case PaymentCancelled => "payment.cancelled"
      case RefundCreated => "refund.created"
      case PaymentRefunded => "payment.refunded"
    }
  }

  /** Distinct event kinds are written as distinct strings. */
  lemma EventNamesDistinct(a: EventType, b: EventType)
    ensures a.Name() == b.Name() <==> a == b
  {
  }

  /** The keys of the `data` dict that the service fills in; everything else is left out. */
  datatype EventData = EventData(
    amount: Option<nat>,
    currency: Option<string>,
    authCode: Option<string>,
    refundId: Option<string>
  )

  const NoData := EventData(None, None, None, None)

  /** An audit-log entry. `status` holds the status whose Code() the row stores. */
  datatype PaymentEvent = PaymentEvent(
    id: string,
    paymentId: string,
    eventType: EventType,
    status: PaymentStatus,
    data: EventData,
    createdAt: Timestamp
  )

  datatype RefundStatus = RefundPendingStatus | RefundSucceeded | RefundFailed {
    function Name(): string {
      match this
      case RefundPendingStatus => "pending"
      case RefundSucceeded => "succeeded"
      case RefundFailed => "failed"
    }
  }

  datatype Refund = Refund(
    id: string,
    paymentId: string,
    amount: nat,
    reason: Option<string>,
    status: RefundStatus,
    createdAt: Timestamp,
    processedAt: Option<Timestamp>
  )

  /** A Refund row as its column defaults make it: status "pending", not yet processed. */
  function NewRefund(hex: string, paymentId: string, amount: nat, reason: Option<string>, now: Timestamp): (r: Refund)
    ensures r.id == RefundId(hex) && r.paymentId == paymentId && r.amount == amount && r.reason == reason
    ensures r.status.Name() == "pending" && r.processedAt.None? && r.createdAt == now
  {
    Refund(RefundId(hex), paymentId, amount, reason, RefundPendingStatus, now, None)
  }
}
