/**
 * The earlier, synchronous QuickPay provider: the same payment session
 * cache without an order reference, a callback read from the request's
 * input stream, and statuses taken from the payment's state rather than
 * from its operations.
 */
module LegacyProvider {
  import opened Results
  import opened Text
  import Utf8
  import Base64
  import opened QuickPay
  import opened ProviderBase
  import PaymentMethods
  import opened Checksum
  import CheckoutProvider

  // ---------------------------------------------------------------------------
  // The request's input stream
  // ---------------------------------------------------------------------------

  /** A seekable stream over the request body. */
  class InputStream {
    const data: seq<byte>
    var position: nat

    constructor(data: seq<byte>)
      ensures this.data == data && position == 0
    {
      this.data := data;
      position := 0;
    }

    /**
     * `Stream.Read(buffer, offset, count)`: copies up to `count` bytes from
     * the current position into `buffer` at `offset` and advances past them.
     */
    method Read(buffer: array<byte>, offset: nat, count: nat) returns (n: nat)
      requires offset + count <= buffer.Length
      modifies this, buffer
      ensures old(position) <= |data| ==> n == Min(count, |data| - old(position))
      ensures old(position) > |data| ==> n == 0
      ensures position == old(position) + n
      ensures old(position) <= |data| ==> buffer[offset..offset + n] == data[old(position)..old(position) + n]
      ensures buffer[..offset] == old(buffer[..offset])
      ensures buffer[offset + n..] == old(buffer[offset + n..])
    {
      var start := position;
      if start >= |data| {
        return 0;
      }
      n := Min(count, |data| - start);
      var i := 0;
      while i < n
        invariant 0 <= i <= n <= |data| - start
        invariant position == start
        invariant buffer[offset..offset + i] == data[start..start + i]
        invariant buffer[..offset] == old(buffer[..offset])
        invariant buffer[offset + i..] == old(buffer[offset + i..])
      {
        buffer[offset + i] := data[start + i];
        i := i + 1;
      }
      position := start + n;
    }

    /** `StreamReader.ReadToEnd`: the UTF-8 text from the position on; the position moves to the end. */
    method ReadToEnd() returns (text: string)
      modifies this
      ensures text == Utf8.Decode(data[Min(old(position), |data|)..])
      ensures position == |data|
    {
      text := Utf8.Decode(data[Min(position, |data|)..]);
      position := |data|;
    }
  }

  function Min(a: int, b: int): int {
    if a <= b then a else b
  }

  /** A legacy callback request: its input stream and checksum header. */
  datatype LegacyRequest = LegacyRequest(input: InputStream, checksumHeader: Option<string>)

  /**
   * `ValidateChecksum`: a null or empty header fails at once; otherwise the
   * whole body is read from the start, the stream is rewound, and the
   * header must equal the checksum of the body ordinally.  `None` where
   * encoding a null private key throws.
   */
  method ValidateChecksum(request: LegacyRequest, privateAccountKey: Option<string>, hmac: HmacSha256)
    returns (ok: Option<bool>)
    modifies request.input
    ensures ok.None? <==>
      request.checksumHeader.Some? && request.checksumHeader.value != "" && privateAccountKey.None?
    ensures ok == Some(true) <==>
      && privateAccountKey.Some?
      && ChecksumMatches(request.checksumHeader, Utf8.Decode(request.input.data), privateAccountKey.value, hmac)
    ensures request.checksumHeader.None? || request.checksumHeader == Some("") ==>
      request.input.position == old(request.input.position)
    ensures request.checksumHeader.Some? && request.checksumHeader.value != "" ==> request.input.position == 0
  {
    var requestCheckSum := request.checksumHeader;
    if requestCheckSum.None? || requestCheckSum.value == "" {
      return Some(false);
    }
    var inputStream := request.input;
    var bytes := new byte[|inputStream.data|];
    inputStream.position := 0;
    var n := inputStream.Read(bytes, 0, bytes.Length);
    inputStream.position := 0;
    assert bytes[..] == bytes[0..n] == inputStream.data[0..n] == inputStream.data;
    var content := Utf8.Decode(bytes[..]);
    if privateAccountKey.None? {
      return None;
    }
    var calculatedChecksum := ComputeChecksum(content, privateAccountKey.value, hmac);
    return Some(requestCheckSum.value == calculatedChecksum);
  }

  /** `ReadCallbackBody`: the whole body, from the start, deserialised; the stream is left rewound. */
  method ReadCallbackBody(request: LegacyRequest, deserialize: string -> Option<Payment>) returns (payment: Option<Payment>)
    modifies request.input
    ensures payment == deserialize(Utf8.Decode(request.input.data))
    ensures request.input.position == 0
  {
    request.input.position := 0;
    var bodyText := request.input.ReadToEnd();
    request.input.position := 0;
    return deserialize(bodyText);
  }

  // ---------------------------------------------------------------------------
  // Statuses from the payment's state
  // ---------------------------------------------------------------------------

  /** The QuickPay state a status is read from; `None` for the statuses no state maps to. */
  function StateName(status: PaymentStatus): Option<string> {
    match status
    case Authorized => Some("new")
    case Captured => Some("processed")
    case Error => Some("rejected")
    case PendingExternalSystem => Some("pending")
    case _ => None
  }

  /**
   * `GetPaymentStatus(payment)`: the status of a QuickPay payment state;
   * any other state, `initial` among them, is `Initialized`.
   */
  function StateStatus(state: Option<string>): (s: PaymentStatus)
    ensures s != Initialized ==> StateName(s) == state
    ensures s != Refunded && s != Cancelled
    ensures s == Initialized <==> forall t :: StateName(t).Some? ==> StateName(t) != state
  {
    if state == Some("new") then Authorized
    else if state == Some("processed") then Captured
    else if state == Some("rejected") then Error
    else if state == Some("pending") then PendingExternalSystem
    else Initialized
  }

  /** Every status with a state is read back from that state. */
  lemma StateStatusOfName(status: PaymentStatus)
    requires StateName(status).Some?
    ensures StateStatus(StateName(status)) == status
  {
  }

  /** The update for a payment reply: its id and its state's status; a null payment throws, giving the empty result. */
  function StateResult(payment: Option<Payment>): (r: ApiResult)
    ensures r.EmptyApiResult? <==> payment.None?
    ensures r.TransactionUpdate? ==>
      && r.transactionId == Some(IntToString(payment.value.id))
      && r.status == StateStatus(payment.value.state)
  {
    if payment.None? then EmptyApiResult
    else TransactionUpdate(TransactionId(payment), StateStatus(payment.value.state))
  }

  // ---------------------------------------------------------------------------
  // Form generation
  // ---------------------------------------------------------------------------

  /** The metadata of a legacy session: payment id, fingerprint and encoded link. */
  function LegacyMeta(paymentId: Option<string>, hash: string, linkHash: string): MetaData {
    map[PaymentIdKey := paymentId, PaymentHashKey := Some(hash), LinkHashKey := Some(linkHash)]
  }

  function CachedLegacyMeta(properties: map<string, string>): MetaData {
    LegacyMeta(Property(properties, PaymentIdKey), CachedHash(properties), CachedLinkHash(properties))
  }

  /** Reusing the stored session: its link, or the exception decoding throws. */
  function LegacyReuseOutcome(properties: map<string, string>): Result<FormResult, CheckoutProvider.FormError> {
    match Base64.DecodeString(CachedLinkHash(properties))
    case None => Failure(CheckoutProvider.MalformedLinkHash)
    case Some(url) => Success(FormResult(CachedLegacyMeta(properties), url))
  }

  /** The link request: no framing flag, and the callback URL as the host gives it. */
  function LegacyLinkRequest(order: Order, settings: Settings, urls: Urls): (r: LinkRequest)
    ensures r.amount == order.minorAmount
    ensures r.continueUrl == urls.continueUrl && r.cancelUrl == urls.cancelUrl
    ensures r.callbackUrl == urls.callbackUrl
    ensures r.paymentMethods == PaymentMethods.PaymentMethodsField(settings.paymentMethods)
    ensures r.autoFee == settings.autoFee && r.autoCapture == settings.autoCapture
    ensures r.framed.None?
  {
    LinkRequest(order.minorAmount, urls.continueUrl, urls.cancelUrl, urls.callbackUrl,
                PaymentMethods.PaymentMethodsField(settings.paymentMethods),
                settings.autoFee, settings.autoCapture, None)
  }

  /**
   * The exchanges and result of a form request with no current session:
   * create a payment under the order number, then its link.
   */
  predicate LegacyStaleOutcome(order: Order, settings: Settings, urls: Urls, code: string,
                               exchanges: seq<Exchange>, result: FormResult)
  {
    var props := order.properties;
    && 1 <= |exchanges|
    && exchanges[0].request == CreatePayment(order.orderNumber, code, map[])
    && var created := exchanges[0].reply;
       if created.PaymentReply? && created.payment.Some? then
         var pid := IntToString(created.payment.value.id);
         && |exchanges| == 2
         && exchanges[1].request == CreatePaymentLink(pid, LegacyLinkRequest(order, settings, urls))
         && if exchanges[1].reply.LinkReply? then
              var url := exchanges[1].reply.url;
              var hash := PaymentHash(Some(pid), order.orderNumber, code, AmountText(order.minorAmount));
              result == FormResult(LegacyMeta(Some(pid), hash, Base64.EncodeString(url)), url)
            else
              result == FormResult(LegacyMeta(Some(pid), CachedHash(props), CachedLinkHash(props)), "")
       else
         && |exchanges| == 1
         && var pid := if created.PaymentReply? then None else Property(props, PaymentIdKey);
            result == FormResult(LegacyMeta(pid, CachedHash(props), CachedLinkHash(props)), "")
  }

  /** Persisting `result` on the order makes the next form request reuse it unchanged. */
  predicate LegacyReusable(order: Order, code: string, result: FormResult) {
    var props := Persist(order.properties, result.metaData);
    && IsCurrent(props, order.orderNumber, code, order.minorAmount)
    && LegacyReuseOutcome(props) == Success(result)
  }

  /**
   * `GenerateForm`: an unknown currency throws before any call; a current
   * session is reused without calling the gateway; otherwise one payment is
   * created, and any link handed out is reused by the next request once
   * the host persists the metadata.
   */
  method GenerateForm(gateway: Gateway, order: Order, settings: Settings, urls: Urls, currencyCodes: set<string>)
    returns (r: Result<FormResult, CheckoutProvider.FormError>)
    modifies gateway
    ensures var code := ToUpperInvariant(order.currencyCode);
      code !in currencyCodes ==> r == Failure(CheckoutProvider.InvalidCurrency(code)) && gateway.log == old(gateway.log)
    ensures var code := ToUpperInvariant(order.currencyCode);
      code in currencyCodes && IsCurrent(order.properties, order.orderNumber, code, order.minorAmount) ==>
        gateway.log == old(gateway.log) && r == LegacyReuseOutcome(order.properties)
    ensures var code := ToUpperInvariant(order.currencyCode);
      code in currencyCodes && !IsCurrent(order.properties, order.orderNumber, code, order.minorAmount) ==>
        && r.Success?
        && |old(gateway.log)| <= |gateway.log|
        && gateway.log[..|old(gateway.log)|] == old(gateway.log)
        && LegacyStaleOutcome(order, settings, urls, code, gateway.log[|old(gateway.log)|..], r.value)
    ensures CreationRequests(gateway.log) <= CreationRequests(old(gateway.log)) + 1
    ensures r.Success? && r.value.formUrl != "" ==> LegacyReusable(order, ToUpperInvariant(order.currencyCode), r.value)
  {
    var currencyCode := ToUpperInvariant(order.currencyCode);
    if currencyCode !in currencyCodes {
      return Failure(CheckoutProvider.InvalidCurrency(currencyCode));
    }
    var paymentFormLink := "";
    var orderAmount := order.minorAmount;
    var props := order.properties;
    var quickPayPaymentId := Property(props, PaymentIdKey);
    var quickPayPaymentHash := CachedHash(props);
    var quickPayPaymentLinkHash := CachedLinkHash(props);
    ghost var log0 := gateway.log;
    if quickPayPaymentHash != PaymentHash(quickPayPaymentId, order.orderNumber, currencyCode, AmountText(orderAmount)) {
      var payment := gateway.Send(CreatePayment(order.orderNumber, currencyCode, map[]));
      ghost var e0 := Exchange(CreatePayment(order.orderNumber, currencyCode, map[]), payment);
      LogExtends(log0, [e0]);
      if payment.PaymentReply? {
        quickPayPaymentId := TransactionId(payment.payment);
        if payment.payment.Some? {
          var paymentId := IntToString(payment.payment.value.id);
          var link := gateway.Send(CreatePaymentLink(paymentId, LegacyLinkRequest(order, settings, urls)));
          ghost var e1 := Exchange(CreatePaymentLink(paymentId, LegacyLinkRequest(order, settings, urls)), link);
          assert gateway.log == log0 + [e0, e1];
          LogExtends(log0, [e0, e1]);
          if link.LinkReply? {
            paymentFormLink := link.url;
            quickPayPaymentHash := PaymentHash(Some(paymentId), order.orderNumber, currencyCode, AmountText(orderAmount));
            quickPayPaymentLinkHash := Base64.EncodeString(paymentFormLink);
            CreatedLegacySessionReusable(order, currencyCode, paymentId, paymentFormLink);
          }
        }
      }
    } else {
      var decoded := Base64.DecodeString(quickPayPaymentLinkHash);
      if decoded.None? {
        return Failure(CheckoutProvider.MalformedLinkHash);
      }
      paymentFormLink := decoded.value;
      CachedLegacySessionReusable(order, currencyCode);
    }
    return Success(FormResult(LegacyMeta(quickPayPaymentId, quickPayPaymentHash, quickPayPaymentLinkHash), paymentFormLink));
  }

  /** A newly created legacy session, once persisted, is current and hands back the same link. */
  lemma CreatedLegacySessionReusable(order: Order, code: string, pid: string, url: string)
    ensures var hash := PaymentHash(Some(pid), order.orderNumber, code, AmountText(order.minorAmount));
      LegacyReusable(order, code, FormResult(LegacyMeta(Some(pid), hash, Base64.EncodeString(url)), url))
  {
    var hash := PaymentHash(Some(pid), order.orderNumber, code, AmountText(order.minorAmount));
    var meta := LegacyMeta(Some(pid), hash, Base64.EncodeString(url));
    var props := Persist(order.properties, meta);
    assert Property(props, PaymentIdKey) == Some(pid);
    assert Property(props, PaymentHashKey) == Some(hash);
    assert Property(props, LinkHashKey) == Some(Base64.EncodeString(url));
    Base64.DecodeEncodeString(url);
    assert CachedLegacyMeta(props) == meta;
  }

  /** A reused legacy session, once persisted again, is still current and hands back the same link. */
  lemma CachedLegacySessionReusable(order: Order, code: string)
    requires IsCurrent(order.properties, order.orderNumber, code, order.minorAmount)
    requires LegacyReuseOutcome(order.properties).Success?
    ensures LegacyReusable(order, code, LegacyReuseOutcome(order.properties).value)
  {
    var meta := CachedLegacyMeta(order.properties);
    var props := Persist(order.properties, meta);
    assert Property(props, PaymentIdKey) == Property(order.properties, PaymentIdKey);
    assert CachedHash(props) == CachedHash(order.properties);
    assert CachedLinkHash(props) == CachedLinkHash(order.properties);
    assert CachedLegacyMeta(props) == meta;
  }

  // ---------------------------------------------------------------------------
  // Callback processing and the API actions
  // ---------------------------------------------------------------------------

  /** The callback's payment has operations and the last one is approved. */
  predicate LegacyAccepts(payment: Option<Payment>) {
    && payment.Some?
    && payment.value.operations.Some?
    && |payment.value.operations.value| > 0
    && IsApproved(payment.value.operations.value[|payment.value.operations.value| - 1])
  }

  /**
   * `ProcessCallback`: with a matching checksum, an approved last operation
   * is reported with the status of the payment's state; the order itself is
   * not checked against the payment.  Anything else, or a callback that
   * throws, gives the empty result.
   */
  method ProcessCallback(order: Order, request: LegacyRequest, settings: Settings,
                         hmac: HmacSha256, deserialize: string -> Option<Payment>)
    returns (r: CallbackResult)
    modifies request.input
    ensures var body := Utf8.Decode(request.input.data);
      r.CallbackAccepted? <==>
        && settings.privateKey.Some?
        && ChecksumMatches(request.checksumHeader, body, settings.privateKey.value, hmac)
        && LegacyAccepts(deserialize(body))
    ensures r.CallbackAccepted? ==>
      var payment := deserialize(Utf8.Decode(request.input.data));
      var ops := payment.value.operations.value;
      r == CallbackAccepted(ops[|ops| - 1].amount, TransactionId(payment), StateStatus(payment.value.state))
    ensures r.CallbackAccepted? ==> request.input.position == 0
  {
    var valid := ValidateChecksum(request, settings.privateKey, hmac);
    if valid != Some(true) {
      return EmptyCallback;
    }
    var payment := ReadCallbackBody(request, deserialize);
    if payment.None? || payment.value.operations.None? {
      return EmptyCallback;
    }
    var operations := payment.value.operations.value;
    if |operations| == 0 {
      return EmptyCallback;
    }
    var operation := operations[|operations| - 1];
    if !IsApproved(operation) {
      return EmptyCallback;
    }
    return CallbackAccepted(operation.amount, TransactionId(payment), StateStatus(payment.value.state));
  }

  /**
   * `FetchPaymentStatus`, `CancelPayment`, `CapturePayment` and
   * `RefundPayment`: one gateway call for the order's transaction,
   * reported by the payment's state; a failed call is the empty result.
   */
  method PerformApiAction(gateway: Gateway, order: Order, action: ApiAction) returns (r: ApiResult)
    modifies gateway
    ensures ActionRequest(action, order).None? ==> r == EmptyApiResult && gateway.log == old(gateway.log)
    ensures ActionRequest(action, order).Some? ==>
      && |gateway.log| == |old(gateway.log)| + 1
      && gateway.log[..|old(gateway.log)|] == old(gateway.log)
      && var e := gateway.log[|old(gateway.log)|];
      && e.request == ActionRequest(action, order).value
      && r == (if e.reply.PaymentReply? then StateResult(e.reply.payment) else EmptyApiResult)
    ensures CreationRequests(gateway.log) == CreationRequests(old(gateway.log))
  {
    var request := ActionRequest(action, order);
    if request.None? {
      return EmptyApiResult;
    }
    ghost var log0 := gateway.log;
    var reply := gateway.Send(request.value);
    CreationRequestsAppend(log0, [Exchange(request.value, reply)]);
    if reply.PaymentReply? {
      r := StateResult(reply.payment);
    } else {
      r := EmptyApiResult;
    }
  }
}
