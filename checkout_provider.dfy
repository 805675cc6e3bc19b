/**
 * The hosted-checkout QuickPay provider: payment form generation with a
 * cached payment session, callback processing with checksum and order
 * verification, and the fetch, cancel, capture and refund actions.
 */
module CheckoutProvider {
  import opened Results
  import opened Text
  import Utf8
  import Base64
  import opened QuickPay
  import opened ProviderBase
  import OrderReference
  import PaymentMethods
  import opened Checksum

  /** The exceptions form generation lets escape to the host. */
  datatype FormError = InvalidCurrency(code: string) | MalformedLinkHash

  // ---------------------------------------------------------------------------
  // The link request
  // ---------------------------------------------------------------------------

  const DevelopmentHost := "https://localhost:44360"
  const TunnelHost := "https://0a01-188-228-1-122.ngrok-free.app"

  /**
   * The callback URL as the link request is built: a local development
   * host is rewritten to a fixed tunnelling host.
   */
  function CallbackUrlAsWritten(callbackUrl: string): (r: string)
    ensures !Contains(callbackUrl, DevelopmentHost) ==> r == callbackUrl
    ensures Contains(callbackUrl, DevelopmentHost) ==>
      var k := IndexOf(callbackUrl, DevelopmentHost);
      r == callbackUrl[..k] + TunnelHost + ReplaceAll(callbackUrl[k + |DevelopmentHost|..], DevelopmentHost, TunnelHost)
  {
    if Contains(callbackUrl, DevelopmentHost) then
      ReplaceAllAtFirst(callbackUrl, DevelopmentHost, TunnelHost);
      ReplaceAll(callbackUrl, DevelopmentHost, TunnelHost)
    else
      ReplaceAllWithout(callbackUrl, DevelopmentHost, TunnelHost);
      ReplaceAll(callbackUrl, DevelopmentHost, TunnelHost)
  }

  /** A store running on the development host has its callbacks sent to the tunnelling host. */
  lemma CallbackUrlAsWrittenRedirects()
    ensures CallbackUrlAsWritten(DevelopmentHost + "/callback") == TunnelHost + "/callback"
  {
    var url := DevelopmentHost + "/callback";
    assert url[..|DevelopmentHost|] == DevelopmentHost;
    assert url[|DevelopmentHost|..] == "/callback";
  }

  /** The payment variables sent with a new payment; `orderReference` identifies the order. */
  function CreationVariables(order: Order): map<string, string> {
    map["orderReference" := order.orderReference, "orderId" := order.id, "orderNumber" := order.orderNumber]
  }

  /**
   * The payment link request for an order: its amount, the host's
   * redirect and callback URLs, the cleaned payment methods and the
   * fee, capture and framing flags.
   */
  function LinkRequestFor(order: Order, settings: Settings, urls: Urls): (r: LinkRequest)
    ensures r.amount == order.minorAmount
    ensures r.continueUrl == urls.continueUrl && r.cancelUrl == urls.cancelUrl
    ensures r.callbackUrl == urls.callbackUrl
    ensures r.paymentMethods == PaymentMethods.PaymentMethodsField(settings.paymentMethods)
    ensures r.paymentMethods.Some? ==>
      && settings.paymentMethods.Some?
      && Split(r.paymentMethods.value, PaymentMethods.Separator) == PaymentMethods.Entries(settings.paymentMethods.value)
    ensures r.autoFee == settings.autoFee && r.autoCapture == settings.autoCapture
    ensures r.framed == Some(settings.framed)
  {
    LinkRequest(order.minorAmount, urls.continueUrl, urls.cancelUrl, urls.callbackUrl,
                PaymentMethods.PaymentMethodsField(settings.paymentMethods),
                settings.autoFee, settings.autoCapture, Some(settings.framed))
  }

  // ---------------------------------------------------------------------------
  // Form generation
  // ---------------------------------------------------------------------------

  /** The metadata of a session: gateway order id, payment id, fingerprint and encoded link. */
  function SessionMeta(orderId: Option<string>, paymentId: Option<string>, hash: string, linkHash: string): MetaData {
    map[OrderIdKey := orderId, PaymentIdKey := paymentId, PaymentHashKey := Some(hash), LinkHashKey := Some(linkHash)]
  }

  /** The session stored on the order. */
  function CachedMeta(properties: map<string, string>): MetaData {
    SessionMeta(Property(properties, OrderIdKey), Property(properties, PaymentIdKey),
                CachedHash(properties), CachedLinkHash(properties))
  }

  /** The outcome of reusing the stored session: its link, or the exception decoding throws. */
  function ReuseOutcome(properties: map<string, string>): Result<FormResult, FormError> {
    match Base64.DecodeString(CachedLinkHash(properties))
    case None => Failure(MalformedLinkHash)
    case Some(url) => Success(FormResult(CachedMeta(properties), url))
  }

  /**
   * The exchanges and result of a form request that found no current
   * session: shorten the order number, create a payment, create its link.
   * A step that fails ends the attempt, keeping what earlier steps set.
   */
  predicate StaleOutcome(order: Order, settings: Settings, urls: Urls, code: string,
                         exchanges: seq<Exchange>, result: FormResult)
  {
    var props := order.properties;
    match OrderReference.Normalize(order.orderNumber, order.orderNumberTemplate)
    case Failure(_) => exchanges == [] && result == FormResult(CachedMeta(props), "")
    case Success(ref) =>
      && 1 <= |exchanges|
      && exchanges[0].request == CreatePayment(ref, code, CreationVariables(order))
      && var created := exchanges[0].reply;
         if created.PaymentReply? && created.payment.Some? then
           var pid := IntToString(created.payment.value.id);
           && |exchanges| == 2
           && exchanges[1].request == CreatePaymentLink(pid, LinkRequestFor(order, settings, urls))
           && if exchanges[1].reply.LinkReply? then
                var url := exchanges[1].reply.url;
                var hash := PaymentHash(Some(pid), order.orderNumber, code, AmountText(order.minorAmount));
                result == FormResult(SessionMeta(Some(ref), Some(pid), hash, Base64.EncodeString(url)), url)
              else
                result == FormResult(SessionMeta(Some(ref), Some(pid), CachedHash(props), CachedLinkHash(props)), "")
         else
           && |exchanges| == 1
           && var pid := if created.PaymentReply? then None else Property(props, PaymentIdKey);
              result == FormResult(SessionMeta(Some(ref), pid, CachedHash(props), CachedLinkHash(props)), "")
  }

  /** Persisting `result` on the order makes the next form request reuse it unchanged. */
  predicate Reusable(order: Order, code: string, result: FormResult) {
    var props := Persist(order.properties, result.metaData);
    && IsCurrent(props, order.orderNumber, code, order.minorAmount)
    && ReuseOutcome(props) == Success(result)
  }

  /**
   * `GenerateFormAsync`.  An unknown currency throws before any call; a
   * current session is reused without calling the gateway; otherwise at
   * most one payment is created, and any form link handed out is reused
   * by the next request once the host persists the metadata.
   */
  method GenerateFormAsync(gateway: Gateway, order: Order, settings: Settings, urls: Urls, currencyCodes: set<string>)
    returns (r: Result<FormResult, FormError>)
    modifies gateway
    ensures var code := ToUpperInvariant(order.currencyCode);
      code !in currencyCodes ==> r == Failure(InvalidCurrency(code)) && gateway.log == old(gateway.log)
    ensures var code := ToUpperInvariant(order.currencyCode);
      code in currencyCodes && IsCurrent(order.properties, order.orderNumber, code, order.minorAmount) ==>
        gateway.log == old(gateway.log) && r == ReuseOutcome(order.properties)
    ensures var code := ToUpperInvariant(order.currencyCode);
      code in currencyCodes && !IsCurrent(order.properties, order.orderNumber, code, order.minorAmount) ==>
        && r.Success?
        && |old(gateway.log)| <= |gateway.log|
        && gateway.log[..|old(gateway.log)|] == old(gateway.log)
        && StaleOutcome(order, settings, urls, code, gateway.log[|old(gateway.log)|..], r.value)
    ensures CreationRequests(gateway.log) <= CreationRequests(old(gateway.log)) + 1
    ensures r.Success? && r.value.formUrl != "" ==> Reusable(order, ToUpperInvariant(order.currencyCode), r.value)
  {
    var currencyCode := ToUpperInvariant(order.currencyCode);
    if currencyCode !in currencyCodes {
      return Failure(InvalidCurrency(currencyCode));
    }
    var paymentFormLink := "";
    var orderAmount := order.minorAmount;
    var props := order.properties;
    var quickPayOrderId := Property(props, OrderIdKey);
    var quickPayPaymentId := Property(props, PaymentIdKey);
    var quickPayPaymentHash := CachedHash(props);
    var quickPayPaymentLinkHash := CachedLinkHash(props);
    ghost var log0 := gateway.log;
    if quickPayPaymentHash != PaymentHash(quickPayPaymentId, order.orderNumber, currencyCode, AmountText(orderAmount)) {
      var reference := OrderReference.Normalize(order.orderNumber, order.orderNumberTemplate);
      if reference.Success? {
        quickPayOrderId := Some(reference.value);
        var created := gateway.Send(CreatePayment(reference.value, currencyCode, CreationVariables(order)));
        ghost var e0 := Exchange(CreatePayment(reference.value, currencyCode, CreationVariables(order)), created);
        LogExtends(log0, [e0]);
        if created.PaymentReply? {
          quickPayPaymentId := TransactionId(created.payment);
          if created.payment.Some? {
            var paymentId := IntToString(created.payment.value.id);
            var link := gateway.Send(CreatePaymentLink(paymentId, LinkRequestFor(order, settings, urls)));
            ghost var e1 := Exchange(CreatePaymentLink(paymentId, LinkRequestFor(order, settings, urls)), link);
            assert gateway.log == log0 + [e0, e1];
            LogExtends(log0, [e0, e1]);
            if link.LinkReply? {
              paymentFormLink := link.url;
              quickPayPaymentHash := PaymentHash(Some(paymentId), order.orderNumber, currencyCode, AmountText(orderAmount));
              quickPayPaymentLinkHash := Base64.EncodeString(paymentFormLink);
              CreatedSessionReusable(order, currencyCode, reference.value, paymentId, paymentFormLink);
            }
          }
        }
      } else {
        LogExtends(log0, []);
      }
    } else {
      var decoded := Base64.DecodeString(quickPayPaymentLinkHash);
      if decoded.None? {
        return Failure(MalformedLinkHash);
      }
      paymentFormLink := decoded.value;
      CachedSessionReusable(order, currencyCode);
    }
    return Success(FormResult(SessionMeta(quickPayOrderId, quickPayPaymentId, quickPayPaymentHash, quickPayPaymentLinkHash),
                              paymentFormLink));
  }

  /** A newly created session, once persisted, is current and hands back the same link. */
  lemma CreatedSessionReusable(order: Order, code: string, ref: string, pid: string, url: string)
    ensures var hash := PaymentHash(Some(pid), order.orderNumber, code, AmountText(order.minorAmount));
      Reusable(order, code, FormResult(SessionMeta(Some(ref), Some(pid), hash, Base64.EncodeString(url)), url))
  {
    var hash := PaymentHash(Some(pid), order.orderNumber, code, AmountText(order.minorAmount));
    var meta := SessionMeta(Some(ref), Some(pid), hash, Base64.EncodeString(url));
    var props := Persist(order.properties, meta);
    assert Property(props, PaymentIdKey) == Some(pid);
    assert Property(props, PaymentHashKey) == Some(hash);
    assert Property(props, LinkHashKey) == Some(Base64.EncodeString(url));
    assert Property(props, OrderIdKey) == Some(ref);
    Base64.DecodeEncodeString(url);
    assert CachedMeta(props) == meta;
  }

  /** A reused session, once persisted again, is still current and hands back the same link. */
  lemma CachedSessionReusable(order: Order, code: string)
    requires IsCurrent(order.properties, order.orderNumber, code, order.minorAmount)
    requires ReuseOutcome(order.properties).Success?
    ensures Reusable(order, code, ReuseOutcome(order.properties).value)
  {
    var meta := CachedMeta(order.properties);
    var props := Persist(order.properties, meta);
    assert Property(props, OrderIdKey) == Property(order.properties, OrderIdKey);
    assert Property(props, PaymentIdKey) == Property(order.properties, PaymentIdKey);
    assert CachedHash(props) == CachedHash(order.properties);
    assert CachedLinkHash(props) == CachedLinkHash(order.properties);
    assert CachedMeta(props) == meta;
  }

  /** Every failed attempt after choosing an order id sets at most one creation in motion. */
  lemma StaleOutcomeCreatesAtMostOnce(order: Order, settings: Settings, urls: Urls, code: string,
                                      exchanges: seq<Exchange>, result: FormResult)
    requires StaleOutcome(order, settings, urls, code, exchanges, result)
    ensures |exchanges| <= 2 && CreationRequests(exchanges) <= 1
    ensures result.formUrl != "" ==> |exchanges| == 2 && exchanges[1].reply.LinkReply?
  {
    if |exchanges| == 2 {
      assert exchanges[..1] == [exchanges[0]];
      assert [exchanges[0]][..0] == [];
    } else if |exchanges| == 1 {
      assert exchanges[..0] == [];
    }
  }

  /**
   * Two form requests with the metadata persisted in between: once the
   * first hands out a link, the second returns the same result without
   * calling the gateway, so at most one payment is created in all.
   */
  method GenerateFormTwice(gateway: Gateway, order: Order, settings: Settings, urls: Urls, currencyCodes: set<string>)
    returns (first: Result<FormResult, FormError>, second: Result<FormResult, FormError>)
    modifies gateway
    ensures first.Success? && first.value.formUrl != "" ==>
      second == first && CreationRequests(gateway.log) <= CreationRequests(old(gateway.log)) + 1
  {
    first := GenerateFormAsync(gateway, order, settings, urls, currencyCodes);
    if first.Success? {
      var next := order.(properties := Persist(order.properties, first.value.metaData));
      second := GenerateFormAsync(gateway, next, settings, urls, currencyCodes);
    } else {
      second := first;
    }
  }

  // ---------------------------------------------------------------------------
  // Callback processing
  // ---------------------------------------------------------------------------

  /** A callback request: the raw body and the checksum header (`None` when absent). */
  datatype CallbackRequest = CallbackRequest(body: seq<Utf8.byte>, checksumHeader: Option<string>)

  /**
   * `ValidateChecksum`; `None` where it throws: reading an absent header,
   * or encoding a null private key once the header is non-empty.  The
   * header must be non-empty and equal, ordinally, to the checksum of the
   * body.
   */
  method ValidateChecksum(request: CallbackRequest, privateKey: Option<string>, hmac: HmacSha256) returns (r: Option<bool>)
    ensures r.None? <==>
      request.checksumHeader.None? || (request.checksumHeader.value != "" && privateKey.None?)
    ensures r == Some(true) <==>
      privateKey.Some? && ChecksumMatches(request.checksumHeader, Utf8.Decode(request.body), privateKey.value, hmac)
  {
    var json := Utf8.Decode(request.body);
    if request.checksumHeader.None? {
      return None;
    }
    var checkSum := request.checksumHeader.value;
    if checkSum == "" {
      return Some(false);
    }
    if privateKey.None? {
      return None;
    }
    var calculated := ComputeChecksum(json, privateKey.value, hmac);
    return Some(checkSum == calculated);
  }

  /**
   * `VerifyOrder`: the payment's `orderReference` variable must be the
   * order's reference; a payment without one must carry the order id
   * stored on the order.  `None` where null variables make it throw.
   */
  function VerifyOrder(order: Order, payment: Payment): (r: Option<bool>)
    ensures r.None? <==> payment.variables.None?
    ensures payment.variables.Some? && "orderReference" in payment.variables.value ==>
      r == Some(payment.variables.value["orderReference"] == order.orderReference)
    ensures payment.variables.Some? && "orderReference" !in payment.variables.value ==>
      r == Some(Property(order.properties, OrderIdKey) == payment.orderId)
  {
    match payment.variables
    case None => None
    case Some(variables) =>
      if |variables| > 0 && "orderReference" in variables then
        Some(variables["orderReference"] == order.orderReference)
      else
        Some(Property(order.properties, OrderIdKey) == payment.orderId)
  }

  /** A payment carrying the variables form generation sent verifies against its order. */
  lemma CreatedPaymentVerifies(order: Order, payment: Payment)
    requires payment.variables == Some(CreationVariables(order))
    ensures VerifyOrder(order, payment) == Some(true)
  {
  }

  /** A payment whose reference names another order is rejected, whatever its order id. */
  lemma ForeignPaymentRejected(order: Order, other: Order, payment: Payment)
    requires payment.variables == Some(CreationVariables(other))
    requires other.orderReference != order.orderReference
    ensures VerifyOrder(order, payment) == Some(false)
  {
  }

  /**
   * The fallback compares nullable values: a payment with no variables
   * and no order id verifies against an order that stored no order id.
   */
  lemma NullOrderIdsVerify(order: Order, payment: Payment)
    requires payment.variables == Some(map[]) && payment.orderId.None?
    requires OrderIdKey !in order.properties
    ensures VerifyOrder(order, payment) == Some(true)
  {
  }

  /** The callback's payment passes verification and its last operation is approved. */
  predicate Accepts(order: Order, payment: Option<Payment>) {
    && payment.Some?
    && VerifyOrder(order, payment.value) == Some(true)
    && payment.value.operations.Some?
    && |payment.value.operations.value| > 0
    && IsApproved(payment.value.operations.value[|payment.value.operations.value| - 1])
  }

  /**
   * `ProcessCallbackAsync`: the payment's last operation is reported when
   * the checksum matches, the order verifies and the operation is
   * approved; any other callback, or one that throws, gives the empty result.
   */
  method ProcessCallbackAsync(order: Order, request: CallbackRequest, settings: Settings,
                              hmac: HmacSha256, deserialize: string -> Option<Payment>)
    returns (r: CallbackResult)
    ensures var body := Utf8.Decode(request.body);
      r.CallbackAccepted? <==>
        && settings.privateKey.Some?
        && ChecksumMatches(request.checksumHeader, body, settings.privateKey.value, hmac)
        && Accepts(order, deserialize(body))
    ensures r.CallbackAccepted? ==>
      var payment := deserialize(Utf8.Decode(request.body));
      var ops := payment.value.operations.value;
      r == CallbackAccepted(ops[|ops| - 1].amount, TransactionId(payment), OperationStatus(ops[|ops| - 1]))
  {
    var valid := ValidateChecksum(request, settings.privateKey, hmac);
    if valid != Some(true) {
      return EmptyCallback;
    }
    var payment := deserialize(Utf8.Decode(request.body));
    if payment.None? {
      return EmptyCallback;
    }
    if VerifyOrder(order, payment.value) != Some(true) {
      return EmptyCallback;
    }
    if payment.value.operations.None? {
      return EmptyCallback;
    }
    var operations := payment.value.operations.value;
    if |operations| == 0 {
      return EmptyCallback;
    }
    var operation := operations[|operations| - 1];
    if !IsApproved(operation) {
      return EmptyCallback;
    }
    return CallbackAccepted(operation.amount, TransactionId(payment), OperationStatus(operation));
  }

  // ---------------------------------------------------------------------------
  // Fetch, cancel, capture and refund
  // ---------------------------------------------------------------------------

  /** An operation that is settled and that the gateway reports as successful. */
  predicate IsCompleted(op: Operation) {
    !op.pending && op.qpStatusCode == Some("20000")
  }

  /** `LastOrDefault(IsCompleted)`: the index of the last completed operation. */
  function LastCompleted(ops: seq<Operation>): (r: Option<nat>)
    ensures r.Some? ==> r.value < |ops| && IsCompleted(ops[r.value])
    ensures r.Some? ==> forall j :: r.value < j < |ops| ==> !IsCompleted(ops[j])
    ensures r.None? <==> forall j :: 0 <= j < |ops| ==> !IsCompleted(ops[j])
  {
    if ops == [] then None
    else if IsCompleted(ops[|ops| - 1]) then Some(|ops| - 1)
    else LastCompleted(ops[..|ops| - 1])
  }

  /** Pending or failed operations added after the last completed one do not move it. */
  lemma LastCompletedIgnoresIncomplete(ops: seq<Operation>, extra: seq<Operation>)
    requires forall j :: 0 <= j < |extra| ==> !IsCompleted(extra[j])
    ensures LastCompleted(ops + extra) == LastCompleted(ops)
  {
    var all := ops + extra;
    assert forall j :: |ops| <= j < |all| ==> all[j] == extra[j - |ops|];
    assert forall j :: 0 <= j < |ops| ==> all[j] == ops[j];
    var a, b := LastCompleted(all), LastCompleted(ops);
    if a.Some? && b.Some? {
      assert !(a.value < b.value) && !(b.value < a.value);
    }
  }

  /** The transaction update a payment reply yields: its last completed operation's status. */
  function CompletedOperationResult(payment: Option<Payment>): (r: ApiResult)
    ensures r.TransactionUpdate? <==>
      payment.Some? && payment.value.operations.Some? && LastCompleted(payment.value.operations.value).Some?
    ensures r.TransactionUpdate? ==>
      var ops := payment.value.operations.value;
      && r.transactionId == TransactionId(payment)
      && exists i :: 0 <= i < |ops| && IsCompleted(ops[i]) && r.status == OperationStatus(ops[i])
           && forall j :: i < j < |ops| ==> !IsCompleted(ops[j])
  {
    if payment.None? || payment.value.operations.None? then EmptyApiResult
    else
      var ops := payment.value.operations.value;
      match LastCompleted(ops)
      case None => EmptyApiResult
      case Some(i) => TransactionUpdate(TransactionId(payment), OperationStatus(ops[i]))
  }

  /** Operations still pending, or not successful, do not change the reported status. */
  lemma IncompleteOperationsIgnored(p: Payment, ops: seq<Operation>, extra: seq<Operation>)
    requires forall j :: 0 <= j < |extra| ==> !IsCompleted(extra[j])
    ensures CompletedOperationResult(Some(p.(operations := Some(ops + extra))))
         == CompletedOperationResult(Some(p.(operations := Some(ops))))
  {
    LastCompletedIgnoresIncomplete(ops, extra);
  }

  /**
   * `FetchPaymentStatusAsync`, `CancelPaymentAsync`, `CapturePaymentAsync`
   * and `RefundPaymentAsync`: one gateway call for the order's transaction,
   * reported by its last completed operation; a failed call is the empty result.
   */
  method PerformApiAction(gateway: Gateway, order: Order, action: ApiAction) returns (r: ApiResult)
    modifies gateway
    ensures ActionRequest(action, order).None? ==> r == EmptyApiResult && gateway.log == old(gateway.log)
    ensures ActionRequest(action, order).Some? ==>
      && |gateway.log| == |old(gateway.log)| + 1
      && gateway.log[..|old(gateway.log)|] == old(gateway.log)
      && var e := gateway.log[|old(gateway.log)|];
      && e.request == ActionRequest(action, order).value
      && r == (if e.reply.PaymentReply? then CompletedOperationResult(e.reply.payment) else EmptyApiResult)
    ensures CreationRequests(gateway.log) == CreationRequests(old(gateway.log))
  {
    var request := ActionRequest(action, order);
    if request.None? {
      return EmptyApiResult;
    }
    ghost var log0 := gateway.log;
    var reply := gateway.Send(request.value);
    CreationRequestsAppend(log0, [Exchange(request.value, reply)]);
    if reply.PaymentReply? {
      r := CompletedOperationResult(reply.payment);
    } else {
      r := EmptyApiResult;
    }
  }
}
