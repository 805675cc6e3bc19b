/**
 * What both QuickPay providers share: the configured redirect URLs, the
 * mapping of an operation type to a payment status, the transaction id,
 * the session fingerprint ("payment hash") and the REST client
 * configuration.
 */
module ProviderBase {
  import opened Results
  import opened Text
  import opened QuickPay
  import Base64

  // ---------------------------------------------------------------------------
  // Configured redirect URLs
  // ---------------------------------------------------------------------------

  datatype UrlKind = ContinueUrl | CancelUrl | ErrorUrl

  /** The exception `MustNotBeNull` throws: an `ArgumentNullException` for the named parameter. */
  datatype ArgumentNull = ArgumentNull(paramName: string)

  function SettingName(kind: UrlKind): string {
    match kind
    case ContinueUrl => "settings.ContinueUrl"
    case CancelUrl => "settings.CancelUrl"
    case ErrorUrl => "settings.ErrorUrl"
  }

  function SettingUrl(settings: Settings, kind: UrlKind): Option<string> {
    match kind
    case ContinueUrl => settings.continueUrl
    case CancelUrl => settings.cancelUrl
    case ErrorUrl => settings.errorUrl
  }

  /** `GetContinueUrl`, `GetCancelUrl` and `GetErrorUrl`: the configured URL, guarded against null. */
  function ConfiguredUrl(settings: Option<Settings>, kind: UrlKind): (r: Result<string, ArgumentNull>)
    ensures settings.None? <==> r == Failure(ArgumentNull("settings"))
    ensures r.Success? <==> settings.Some? && SettingUrl(settings.value, kind).Some?
    ensures r.Success? ==> SettingUrl(settings.value, kind) == Some(r.value)
    ensures settings.Some? && r.Failure? ==> r.error == ArgumentNull(SettingName(kind))
  {
    if settings.None? then Failure(ArgumentNull("settings"))
    else match SettingUrl(settings.value, kind)
      case None => Failure(ArgumentNull(SettingName(kind)))
      case Some(url) => Success(url)
  }

  // ---------------------------------------------------------------------------
  // Operation type to payment status
  // ---------------------------------------------------------------------------

  /** The operation type that stands for each status it can come from. */
  function OperationType(status: PaymentStatus): Option<string> {
    match status
    case Authorized => Some("authorize")
    case Captured => Some("capture")
    case Refunded => Some("refund")
    case Cancelled => Some("cancel")
    case _ => None
  }

  /** `GetPaymentStatus(Operation)`: the status an operation's type stands for. */
  function OperationStatus(op: Operation): (s: PaymentStatus)
    ensures s == Initialized || OperationType(s) == op.opType
    ensures s == Initialized <==> forall t :: OperationType(t).Some? ==> OperationType(t) != op.opType
  {
    if op.opType == Some("authorize") then Authorized
    else if op.opType == Some("capture") then Captured
    else if op.opType == Some("refund") then Refunded
    else if op.opType == Some("cancel") then Cancelled
    else Initialized
  }

  /** Each of the four operation types is read back as the status it stands for. */
  lemma OperationStatusOfType(op: Operation, s: PaymentStatus)
    requires OperationType(s).Some? && op.opType == OperationType(s)
    ensures OperationStatus(op) == s
  {
  }

  // ---------------------------------------------------------------------------
  // Transaction id
  // ---------------------------------------------------------------------------

  /** `GetTransactionId`: the payment's numeric id as decimal text, null for a null payment. */
  function TransactionId(payment: Option<Payment>): (r: Option<string>)
    ensures r.None? <==> payment.None?
    ensures r.Some? ==> r.value == IntToString(payment.value.id)
  {
    match payment
    case None => None
    case Some(p) => Some(IntToString(p.id))
  }

  /** The transaction id reads back as the payment id, so distinct payments never share one. */
  lemma TransactionIdInjective(p: Payment, q: Payment)
    requires TransactionId(Some(p)) == TransactionId(Some(q))
    ensures ParseInt(TransactionId(Some(p)).value) == p.id
    ensures p.id == q.id
  {
    IntToStringRoundTrip(p.id);
    IntToStringRoundTrip(q.id);
  }

  // ---------------------------------------------------------------------------
  // The session fingerprint
  // ---------------------------------------------------------------------------

  /** The text the fingerprint is taken of: the four fields concatenated, null as empty. */
  function HashInput(paymentId: Option<string>, orderNumber: string, currency: string, amount: string): string {
    paymentId.GetOr("") + orderNumber + currency + amount
  }

  /**
   * `GetPaymentHash`: the base 64 form of the concatenated fields.  It is
   * a reversible encoding, not a digest: decoding it gives the fields back.
   */
  function PaymentHash(paymentId: Option<string>, orderNumber: string, currency: string, amount: string): (h: string)
    ensures Base64.DecodeString(h) == Some(HashInput(paymentId, orderNumber, currency, amount))
    ensures amount != "" ==> h != ""
  {
    Base64.DecodeEncodeString(HashInput(paymentId, orderNumber, currency, amount));
    Base64.EncodeStringEmpty(HashInput(paymentId, orderNumber, currency, amount));
    Base64.EncodeString(HashInput(paymentId, orderNumber, currency, amount))
  }

  /** Equal fingerprints mean equal concatenations. */
  lemma PaymentHashInjective(id: Option<string>, on: string, cur: string, amt: string,
                             id': Option<string>, on': string, cur': string, amt': string)
    requires PaymentHash(id, on, cur, amt) == PaymentHash(id', on', cur', amt')
    ensures HashInput(id, on, cur, amt) == HashInput(id', on', cur', amt')
  {
  }

  /** Two concatenations of four pieces with equal lengths piece by piece agree piece by piece. */
  lemma ConcatPieces(a: string, b: string, c: string, d: string, a': string, b': string, c': string, d': string)
    requires a + b + c + d == a' + b' + c' + d'
    requires |a| == |a'| && |b| == |b'| && |c| == |c'|
    ensures a == a' && b == b' && c == c' && d == d'
  {
    var w, w' := a + b + c + d, a' + b' + c' + d';
    assert a == w[..|a|] && a' == w'[..|a|];
    assert b == w[|a|..|a| + |b|] && b' == w'[|a|..|a| + |b|];
    assert c == w[|a| + |b|..|a| + |b| + |c|] && c' == w'[|a| + |b|..|a| + |b| + |c|];
    assert d == w[|a| + |b| + |c|..] && d' == w'[|a| + |b| + |c|..];
  }

  /** Changing any one of the four fields, the others kept, changes the fingerprint. */
  lemma PaymentHashDetectsSingleChange(id: Option<string>, on: string, cur: string, amt: string,
                                       id': Option<string>, on': string, cur': string, amt': string)
    requires || (on == on' && cur == cur' && amt == amt')
             || (id.GetOr("") == id'.GetOr("") && cur == cur' && amt == amt')
             || (id.GetOr("") == id'.GetOr("") && on == on' && amt == amt')
             || (id.GetOr("") == id'.GetOr("") && on == on' && cur == cur')
    requires (id.GetOr(""), on, cur, amt) != (id'.GetOr(""), on', cur', amt')
    ensures PaymentHash(id, on, cur, amt) != PaymentHash(id', on', cur', amt')
  {
    if PaymentHash(id, on, cur, amt) == PaymentHash(id', on', cur', amt') {
      var i, i' := id.GetOr(""), id'.GetOr("");
      assert i + on + cur + amt == i' + on' + cur' + amt';
      ConcatPieces(i, on, cur, amt, i', on', cur', amt');
    }
  }

  /**
   * The fields are concatenated without delimiters, so moving the last
   * character of the payment id to the front of the order number keeps
   * the fingerprint: two different sessions share it.
   */
  lemma PaymentHashShift(id: string, x: char, on: string, cur: string, amt: string)
    ensures PaymentHash(Some(id + [x]), on, cur, amt) == PaymentHash(Some(id), [x] + on, cur, amt)
  {
    assert HashInput(Some(id + [x]), on, cur, amt) == HashInput(Some(id), [x] + on, cur, amt) by {
      assert (id + [x]) + on == id + ([x] + on);
    }
  }

  /** Payment 12 of order 3 and payment 1 of order 23 share a fingerprint. */
  lemma PaymentHashCollision()
    ensures PaymentHash(Some("12"), "3", "DKK", "100") == PaymentHash(Some("1"), "23", "DKK", "100")
  {
    assert "1" + ['2'] == "12" && ['2'] + "3" == "23";
    PaymentHashShift("1", '2', "3", "DKK", "100");
  }

  // ---------------------------------------------------------------------------
  // The cached session on the order
  // ---------------------------------------------------------------------------

  /** The amount in minor units as the fingerprint renders it (no separators, no decimals). */
  function AmountText(minorAmount: nat): string {
    NatToString(minorAmount)
  }

  function CachedHash(properties: map<string, string>): string {
    Property(properties, PaymentHashKey).GetOr("")
  }

  function CachedLinkHash(properties: map<string, string>): string {
    Property(properties, LinkHashKey).GetOr("")
  }

  /**
   * The stored fingerprint matches the stored payment id and the order's
   * current number, currency and amount: the cached session can be reused.
   */
  predicate IsCurrent(properties: map<string, string>, orderNumber: string, currency: string, minorAmount: nat) {
    CachedHash(properties)
      == PaymentHash(Property(properties, PaymentIdKey), orderNumber, currency, AmountText(minorAmount))
  }

  /** An order that never stored a fingerprint is never current, so its first form request creates a payment. */
  lemma NoCachedHashIsNotCurrent(properties: map<string, string>, orderNumber: string, currency: string, minorAmount: nat)
    requires PaymentHashKey !in properties
    ensures !IsCurrent(properties, orderNumber, currency, minorAmount)
  {
  }

  /** Changing the amount of an order invalidates its cached session. */
  lemma AmountChangeInvalidates(properties: map<string, string>, orderNumber: string, currency: string, a: nat, b: nat)
    requires a != b && IsCurrent(properties, orderNumber, currency, a)
    ensures !IsCurrent(properties, orderNumber, currency, b)
  {
    var id := Property(properties, PaymentIdKey);
    PaymentHashDetectsSingleChange(id, orderNumber, currency, AmountText(a), id, orderNumber, currency, AmountText(b));
  }

  /** Changing the currency of an order invalidates its cached session. */
  lemma CurrencyChangeInvalidates(properties: map<string, string>, orderNumber: string, c: string, c': string, a: nat)
    requires c != c' && IsCurrent(properties, orderNumber, c, a)
    ensures !IsCurrent(properties, orderNumber, c', a)
  {
    var id := Property(properties, PaymentIdKey);
    PaymentHashDetectsSingleChange(id, orderNumber, c, AmountText(a), id, orderNumber, c', AmountText(a));
  }

  // ---------------------------------------------------------------------------
  // Callback approval
  // ---------------------------------------------------------------------------

  /** An operation is approved when the gateway or the acquirer reports success. */
  predicate IsApproved(op: Operation) {
    op.qpStatusCode == Some("20000") || op.aqStatusCode == Some("000")
  }

  // ---------------------------------------------------------------------------
  // Requests of the payment API actions
  // ---------------------------------------------------------------------------

  /** Fetching the status, cancelling, capturing and refunding a payment. */
  datatype ApiAction = FetchStatus | Cancel | Capture | Refund

  /**
   * The request an action sends for the order's transaction, or `None`
   * when a capture or refund finds no authorized amount and throws
   * before calling the gateway.
   */
  function ActionRequest(action: ApiAction, order: Order): (r: Option<Request>)
    ensures r.None? <==> (action == Capture || action == Refund) && order.authorizedMinorAmount.None?
    ensures r.Some? ==> !r.value.CreatePayment? && !r.value.CreatePaymentLink?
    ensures r.Some? ==> r.value.paymentId == order.transactionId
    ensures r.Some? && (r.value.CapturePayment? || r.value.RefundPayment?) ==>
      order.authorizedMinorAmount == Some(r.value.amount)
  {
    match action
    case FetchStatus => Some(GetPayment(order.transactionId))
    case Cancel => Some(CancelPayment(order.transactionId))
    case Capture =>
      if order.authorizedMinorAmount.None? then None
      else Some(CapturePayment(order.transactionId, order.authorizedMinorAmount.value))
    case Refund =>
      if order.authorizedMinorAmount.None? then None
      else Some(RefundPayment(order.transactionId, order.authorizedMinorAmount.value))
  }

  // ---------------------------------------------------------------------------
  // REST client configuration
  // ---------------------------------------------------------------------------

  datatype ClientConfig = ClientConfig(baseUrl: string, authorization: string)

  const ApiBaseUrl := "https://api.quickpay.net"
  const BasicScheme := "Basic "

  /**
   * `GetQuickPayClientConfig`: the fixed API host and HTTP basic
   * authentication with an empty user name and the API key as password.
   */
  function QuickPayClientConfig(settings: Settings): (c: ClientConfig)
    ensures c.baseUrl == ApiBaseUrl
    ensures StartsWith(c.authorization, BasicScheme)
    ensures Base64.DecodeString(c.authorization[|BasicScheme|..]) == Some(":" + settings.apiKey.GetOr(""))
  {
    var credentials := Base64.EncodeString(":" + settings.apiKey.GetOr(""));
    Base64.DecodeEncodeString(":" + settings.apiKey.GetOr(""));
    assert (BasicScheme + credentials)[|BasicScheme|..] == credentials;
    ClientConfig(ApiBaseUrl, BasicScheme + credentials)
  }
}
