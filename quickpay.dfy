/**
 * The entities the QuickPay providers work on: the gateway's payment and
 * its operations, the host's order and settings, the canonical payment
 * statuses, the results handed back to the host, and the remote gateway
 * itself, seen from the provider as a log of request/reply exchanges.
 */
module QuickPay {
  import opened Results

  /** The host's closed set of payment statuses. */
  datatype PaymentStatus =
    | Initialized
    | Authorized
    | Captured
    | Refunded
    | Cancelled
    | Error
    | PendingExternalSystem

  /** One lifecycle event of a remote payment; JSON string fields may be null. */
  datatype Operation = Operation(
    id: int,
    opType: Option<string>,
    amount: int,
    pending: bool,
    qpStatusCode: Option<string>,
    qpStatusMessage: Option<string>,
    aqStatusCode: Option<string>,
    aqStatusMessage: Option<string>)

  /** The gateway's payment as the JSON payload describes it. */
  datatype Payment = Payment(
    id: int,
    orderId: Option<string>,
    currency: Option<string>,
    state: Option<string>,
    operations: Option<seq<Operation>>,
    variables: Option<map<string, string>>)

  /** The provider settings the core reads; `null` settings are `None`. */
  datatype Settings = Settings(
    continueUrl: Option<string>,
    cancelUrl: Option<string>,
    errorUrl: Option<string>,
    apiKey: Option<string>,
    privateKey: Option<string>,
    paymentMethods: Option<string>,
    autoFee: bool,
    autoCapture: bool,
    framed: bool)

  /**
   * A snapshot of the host's order: its number, currency code, amount in
   * minor units, the store's order-number template, its property bag, the
   * reference the host generates for it, and its transaction info.
   */
  datatype Order = Order(
    id: string,
    orderNumber: string,
    currencyCode: string,
    minorAmount: nat,
    orderNumberTemplate: Option<string>,
    properties: map<string, string>,
    orderReference: string,
    transactionId: string,
    authorizedMinorAmount: Option<nat>)

  /** The redirect URLs the host passes to form generation. */
  datatype Urls = Urls(continueUrl: string, cancelUrl: string, callbackUrl: string)

  // ---------------------------------------------------------------------------
  // The order's property bag
  // ---------------------------------------------------------------------------

  const OrderIdKey := "quickPayOrderId"
  const PaymentIdKey := "quickPayPaymentId"
  const PaymentHashKey := "quickPayPaymentHash"
  const LinkHashKey := "quickPayPaymentLinkHash"

  /** `order.Properties[key]?.Value`: `None` for a missing property. */
  function Property(properties: map<string, string>, key: string): Option<string> {
    if key in properties then Some(properties[key]) else None
  }

  /** Metadata returned to the host: property name to (nullable) value. */
  type MetaData = map<string, Option<string>>

  /**
   * The host persisting returned metadata onto the order: a value is
   * written, a null value clears the property, other properties stay.
   */
  function Persist(properties: map<string, string>, meta: MetaData): (p: map<string, string>)
    ensures forall k :: k in meta ==> Property(p, k) == meta[k]
    ensures forall k :: k !in meta ==> Property(p, k) == Property(properties, k)
  {
    map k | k in properties.Keys + meta.Keys && (k in meta ==> meta[k].Some?)
      :: if k in meta then meta[k].value else properties[k]
  }

  // ---------------------------------------------------------------------------
  // Results handed back to the host
  // ---------------------------------------------------------------------------

  /** The payment form (always fetched with GET) and the metadata to persist. */
  datatype FormResult = FormResult(metaData: MetaData, formUrl: string)

  datatype CallbackResult =
    | EmptyCallback
    | CallbackAccepted(amountMinor: int, transactionId: Option<string>, status: PaymentStatus)

  datatype ApiResult =
    | EmptyApiResult
    | TransactionUpdate(transactionId: Option<string>, status: PaymentStatus)

  // ---------------------------------------------------------------------------
  // The remote gateway
  // ---------------------------------------------------------------------------

  datatype LinkRequest = LinkRequest(
    amount: nat,
    continueUrl: string,
    cancelUrl: string,
    callbackUrl: string,
    paymentMethods: Option<string>,
    autoFee: bool,
    autoCapture: bool,
    framed: Option<bool>)

  /** The calls the providers make on the gateway's REST interface. */
  datatype Request =
    | CreatePayment(orderId: string, currency: string, variables: map<string, string>)
    | CreatePaymentLink(paymentId: string, link: LinkRequest)
    | GetPayment(paymentId: string)
    | CancelPayment(paymentId: string)
    | CapturePayment(paymentId: string, amount: nat)
    | RefundPayment(paymentId: string, amount: nat)

  /**
   * A reply: the call threw, or returned a payment (null when the JSON
   * payload is `null`), or returned a payment link with its URL.
   */
  datatype Reply = Failed | PaymentReply(payment: Option<Payment>) | LinkReply(url: string)

  /** A link request is answered with a link, every other request with a payment. */
  predicate Answers(request: Request, reply: Reply) {
    match reply
    case Failed => true
    case PaymentReply(_) => !request.CreatePaymentLink?
    case LinkReply(_) => request.CreatePaymentLink?
  }

  datatype Exchange = Exchange(request: Request, reply: Reply)

  /**
   * The number of payment creations requested in `log`, whatever their
   * replies (a failed call may still have created a payment remotely).
   */
  function CreationRequests(log: seq<Exchange>): (n: nat)
    ensures n <= |log|
  {
    if log == [] then 0
    else CreationRequests(log[..|log| - 1]) + if log[|log| - 1].request.CreatePayment? then 1 else 0
  }

  lemma {:induction false} CreationRequestsAppend(log: seq<Exchange>, more: seq<Exchange>)
    ensures CreationRequests(log + more) == CreationRequests(log) + CreationRequests(more)
    decreases |more|
  {
    if more == [] {
      assert log + more == log;
    } else {
      assert (log + more)[..|log + more| - 1] == log + more[..|more| - 1];
      CreationRequestsAppend(log, more[..|more| - 1]);
    }
  }

  /** A log that grew by `more` keeps its old entries first and counts the new creations. */
  lemma LogExtends(log: seq<Exchange>, more: seq<Exchange>)
    ensures (log + more)[..|log|] == log && (log + more)[|log|..] == more
    ensures CreationRequests(log + more) == CreationRequests(log) + CreationRequests(more)
  {
    CreationRequestsAppend(log, more);
  }

  /**
   * The gateway as the provider sees it: every call either fails or
   * returns the kind of object it asks for, and is recorded in `log`.
   */
  class Gateway {
    ghost var log: seq<Exchange>

    constructor ()
      ensures log == []
    {
      log := [];
    }

    method Send(request: Request) returns (reply: Reply)
      modifies this
      ensures Answers(request, reply)
      ensures log == old(log) + [Exchange(request, reply)]
    {
      assert Answers(request, Failed);
      reply :| Answers(request, reply);
      log := log + [Exchange(request, reply)];
    }
  }
}
