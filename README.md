# QuickPay payment provider for Vendr — a verified model

This project models the protocol logic that sits between a Vendr order and a
QuickPay payment in the `Vendr.Contrib.PaymentProviders.QuickPay` package. Both
provider variants are covered: the hosted-checkout provider
(`QuickPayCheckoutPaymentProvider`) and the earlier synchronous provider
(`QuickPayPaymentProvider`). Their shared base class and the `TrimStart`/`TrimEnd`
string extensions are modelled too.

The model covers:

- the **payment session cache** that `GenerateFormAsync` / `GenerateForm` keep in the
  order's properties;
- the **order-reference shortening** that fits long order numbers into QuickPay's
  20-character order id;
- the cleaning of the **payment-methods setting**;
- **callback acceptance**: checksum, order verification and the approval test;
- the **status mappers**: from an operation type and from a payment's aggregate state;
- the **last-completed-operation** selection behind fetch, cancel, capture and refund;
- the **client configuration** and its `Basic` authorisation header.

The QuickPay REST gateway is a `Gateway` class. Each call appends a
request/reply exchange to a ghost log, and the reply may be a failure. This lets the
contracts count how many payments a form request creates.

Modules, one per file:

| file | module | contents |
|---|---|---|
| results.dfy | `Results` | `Option` (a C# null) and `Result` (an exception escaping to the host) |
| text.dfy | `Text` | ordinal and ASCII case-insensitive comparison, `IndexOf`, `Replace`, `Trim`, `Split`/`Join`, `Int32.ToString` |
| utf8.dfy | `Utf8` | UTF-8 encoding and decoding (RFC 3629) with the round trip |
| base64.dfy | `Base64` | Base64 per section 4 of RFC 4648 over UTF-8 text, with the round trip |
| quickpay.dfy | `QuickPay` | payments, operations, settings, orders, the property bag, the gateway |
| provider_base.dfy | `ProviderBase` | URL getters, operation status, transaction id, payment hash, client configuration |
| order_reference.dfy | `OrderReference` | order-number shortening around the `{0}` template placeholder |
| payment_methods.dfy | `PaymentMethods` | the comma-separated payment-methods setting |
| string_extensions.dfy | `StringExtensions` | `TrimStart(string)` / `TrimEnd(string)` |
| checksum.dfy | `Checksum` | lowercase hex of the HMAC-SHA256 digest and the header comparison |
| checkout_provider.dfy | `CheckoutProvider` | the hosted-checkout provider |
| legacy_provider.dfy | `LegacyProvider` | the earlier provider, with the request's input stream as a class |

In the table below, source paths are under `src/Vendr.Contrib.PaymentProviders.QuickPay/`.

## Model

| member | source | states |
|---|---|---|
| Text.Split | src/Vendr.Contrib.PaymentProviders.QuickPay/QuickPayCheckoutPaymentProvider.cs:55 | joining the pieces with the separator gives the input back; no piece contains the separator |
| Text.SplitJoin | src/Vendr.Contrib.PaymentProviders.QuickPay/QuickPayCheckoutPaymentProvider.cs:135 | splitting a join of separator-free pieces gives the pieces back |
| Text.Trim | src/Vendr.Contrib.PaymentProviders.QuickPay/QuickPayCheckoutPaymentProvider.cs:57 | the result is a slice of the input whose cut-away ends are all white space and which itself neither starts nor ends with white space; it is non-empty for a non-blank input and a trimmed input is kept whole |
| Text.TrimUnique | src/Vendr.Contrib.PaymentProviders.QuickPay/QuickPayCheckoutPaymentProvider.cs:57 | any slice with white-space ends cut away that is itself trimmed is the result of `Trim`, so the two conditions above determine it |
| Text.ReplaceAllWithout | src/Vendr.Contrib.PaymentProviders.QuickPay/QuickPayCheckoutPaymentProvider.cs:134 | a string without the pattern is unchanged by `Replace` |
| Text.ReplaceAllAtFirst | src/Vendr.Contrib.PaymentProviders.QuickPay/QuickPayCheckoutPaymentProvider.cs:134 | `Replace` keeps the text before the first occurrence, puts the replacement in its place and continues after the occurrence: leftmost, non-overlapping replacement |
| Text.NatToString | src/Vendr.Contrib.PaymentProviders.QuickPay/QuickPayPaymentProvider.cs:53 | the minor-unit amount rendered as a non-empty digit string that reads back as the amount |
| Text.IntToStringRoundTrip | src/Vendr.Contrib.PaymentProviders.QuickPay/QuickPayPaymentProviderBase.cs:66 | `Id.ToString()` reads back as the id, so distinct ids render distinctly |
| Utf8.DecodeEncode | src/Vendr.Contrib.PaymentProviders.QuickPay/QuickPayPaymentProvider.cs:392 | decoding the UTF-8 encoding of a string gives the string back |
| Utf8.EncodeInjective | src/Vendr.Contrib.PaymentProviders.QuickPay/QuickPayCheckoutPaymentProvider.cs:435-440 | distinct bodies and keys are distinct byte sequences |
| Base64.DecodeEncodeString | src/Vendr.Contrib.PaymentProviders.QuickPay/QuickPayCheckoutPaymentProvider.cs:144-154 | the link stored with `Base64Encode` is read back unchanged by `Base64Decode` |
| Base64.EncodeStringInjective | src/Vendr.Contrib.PaymentProviders.QuickPay/QuickPayPaymentProviderBase.cs:69-72 | equal encodings come from equal texts |
| Base64.EncodeStringEmpty | src/Vendr.Contrib.PaymentProviders.QuickPay/QuickPayPaymentProviderBase.cs:69-72 | the encoding is empty exactly when the text is |
| QuickPay.Persist | src/Vendr.Contrib.PaymentProviders.QuickPay/QuickPayCheckoutPaymentProvider.cs:159-165 | after the host stores the returned metadata, every metadata key reads back its value (a null value removes the key) and every other property is unchanged |
| QuickPay.CreationRequests | src/Vendr.Contrib.PaymentProviders.QuickPay/QuickPayCheckoutPaymentProvider.cs:119-124 | the number of create-payment calls in a log is at most the number of calls |
| QuickPay.CreationRequestsAppend | src/Vendr.Contrib.PaymentProviders.QuickPay/QuickPayCheckoutPaymentProvider.cs:119-124 | create-payment calls of two log segments add up |
| QuickPay.Gateway.Send | src/Vendr.Contrib.PaymentProviders.QuickPay/QuickPayCheckoutPaymentProvider.cs:119-139 | each call is appended to the log with its reply; a payment reply answers only a payment request, a link reply only a link request, and any call may fail |
| ProviderBase.ConfiguredUrl | src/Vendr.Contrib.PaymentProviders.QuickPay/QuickPayPaymentProviderBase.cs:23-45 | null settings fail the guard on `settings`, a null URL fails the guard on `settings.<Name>Url`, otherwise the configured URL is returned unchanged |
| ProviderBase.OperationStatus | src/Vendr.Contrib.PaymentProviders.QuickPay/QuickPayPaymentProviderBase.cs:47-62 | the status is `Initialized` exactly when the operation type is none of authorize, capture, refund and cancel, and otherwise the status whose type the operation has |
| ProviderBase.OperationStatusOfType | src/Vendr.Contrib.PaymentProviders.QuickPay/QuickPayPaymentProviderBase.cs:47-62 | each of the four recognised types maps to its own status and none maps to `Initialized` |
| ProviderBase.TransactionId | src/Vendr.Contrib.PaymentProviders.QuickPay/QuickPayPaymentProviderBase.cs:64-67 | null exactly for a null payment; otherwise the decimal rendering of the payment id |
| ProviderBase.TransactionIdInjective | src/Vendr.Contrib.PaymentProviders.QuickPay/QuickPayPaymentProviderBase.cs:64-67 | the transaction id reads back as the payment id, and payments with different ids get different transaction ids |
| ProviderBase.PaymentHash | src/Vendr.Contrib.PaymentProviders.QuickPay/QuickPayPaymentProviderBase.cs:69-72 | the hash decodes to the concatenation of id (null as empty), order number, currency and amount; it is non-empty when the amount is |
| ProviderBase.PaymentHashInjective | src/Vendr.Contrib.PaymentProviders.QuickPay/QuickPayPaymentProviderBase.cs:69-72 | equal hashes mean equal concatenations |
| ProviderBase.ConcatPieces | src/Vendr.Contrib.PaymentProviders.QuickPay/QuickPayPaymentProviderBase.cs:71 | equal four-part concatenations with equal part lengths have equal parts |
| ProviderBase.PaymentHashDetectsSingleChange | src/Vendr.Contrib.PaymentProviders.QuickPay/QuickPayPaymentProviderBase.cs:69-72 | changing exactly one of the four inputs changes the hash |
| ProviderBase.PaymentHashCollision | src/Vendr.Contrib.PaymentProviders.QuickPay/QuickPayPaymentProvider.cs:376-379 | with no delimiter, payment id "12" with order number "3" hashes like id "1" with order number "23" |
| ProviderBase.NoCachedHashIsNotCurrent | src/Vendr.Contrib.PaymentProviders.QuickPay/QuickPayCheckoutPaymentProvider.cs:65-68 | an order that has never stored a hash never reuses a session |
| ProviderBase.AmountChangeInvalidates | src/Vendr.Contrib.PaymentProviders.QuickPay/QuickPayCheckoutPaymentProvider.cs:53-68 | a session cached for one amount is not reused for a different amount |
| ProviderBase.CurrencyChangeInvalidates | src/Vendr.Contrib.PaymentProviders.QuickPay/QuickPayCheckoutPaymentProvider.cs:43-68 | a session cached for one currency is not reused for a different currency |
| ProviderBase.ActionRequest | src/Vendr.Contrib.PaymentProviders.QuickPay/QuickPayCheckoutPaymentProvider.cs:253-374 | fetch, cancel, capture and refund address the order's transaction id; capture and refund send the authorised amount and make no call when it is null; none of them creates a payment or link |
| ProviderBase.QuickPayClientConfig | src/Vendr.Contrib.PaymentProviders.QuickPay/QuickPayPaymentProviderBase.cs:74-83 | the base URL is `https://api.quickpay.net`; the authorisation starts with `Basic ` and the rest decodes to `:` followed by the API key (a null key as empty) |
| OrderReference.Normalize | src/Vendr.Contrib.PaymentProviders.QuickPay/QuickPayCheckoutPaymentProvider.cs:77-107 | numbers of at most 20 characters and the template `{0}` leave the number unchanged; a null template or one without `{0}` throws; otherwise a template starting with `{0}` keeps all but the last suffix-length characters, one ending with `{0}` drops the prefix length, and any other drops both; `Substring` throws out of range exactly when the number is shorter than the prefix (template ending with `{0}`) or than prefix and suffix together (otherwise) |
| OrderReference.PlaceholderOccurrencesApart | src/Vendr.Contrib.PaymentProviders.QuickPay/QuickPayCheckoutPaymentProvider.cs:88-90 | two occurrences of `{0}` in a template do not overlap |
| OrderReference.EndingPlaceholderHasEmptySuffix | src/Vendr.Contrib.PaymentProviders.QuickPay/QuickPayCheckoutPaymentProvider.cs:97-100 | a template ending with its only `{0}` has an empty suffix |
| OrderReference.NormalizeDecorated | src/Vendr.Contrib.PaymentProviders.QuickPay/QuickPayCheckoutPaymentProvider.cs:80-106 | a long order number generated from a template with one `{0}` is shortened back to the generated number |
| OrderReference.NoPlaceholderAt | src/Vendr.Contrib.PaymentProviders.QuickPay/QuickPayCheckoutPaymentProvider.cs:88 | a position whose character is not `{` holds no placeholder |
| OrderReference.NormalizeExample | src/Vendr.Contrib.PaymentProviders.QuickPay/QuickPayCheckoutPaymentProvider.cs:97-101 | `INV-00000000000012345` under `INV-{0}` becomes `00000000000012345` |
| OrderReference.NormalizeNotIdempotent | src/Vendr.Contrib.PaymentProviders.QuickPay/QuickPayCheckoutPaymentProvider.cs:80-106 | shortening is not bounded to 20 characters and shortening twice can differ from shortening once |
| PaymentMethods.Clean | src/Vendr.Contrib.PaymentProviders.QuickPay/QuickPayCheckoutPaymentProvider.cs:55-58 | entries are non-empty and trimmed, no more numerous than the pieces, comma-free when the pieces are, and none exist exactly when every piece is blank |
| PaymentMethods.CleanSelects | src/Vendr.Contrib.PaymentProviders.QuickPay/QuickPayCheckoutPaymentProvider.cs:55-58 | the entries are exactly the non-blank pieces, in their original order, each trimmed: an increasing list of positions covers every non-blank piece and entry `k` is the trimmed piece at position `k` of that list |
| PaymentMethods.Entries | src/Vendr.Contrib.PaymentProviders.QuickPay/QuickPayCheckoutPaymentProvider.cs:55-58 | the setting split on commas, with exactly the non-blank pieces kept in order and trimmed; the entries are non-empty, trimmed and comma-free |
| PaymentMethods.PaymentMethodsField | src/Vendr.Contrib.PaymentProviders.QuickPay/QuickPayCheckoutPaymentProvider.cs:135 | null exactly when the setting is null or has no entries; otherwise a text that splits on commas into exactly the entries |
| PaymentMethods.CleanClean | src/Vendr.Contrib.PaymentProviders.QuickPay/QuickPayCheckoutPaymentProvider.cs:56-57 | cleaning already clean entries changes nothing |
| PaymentMethods.PaymentMethodsFieldIdempotent | src/Vendr.Contrib.PaymentProviders.QuickPay/QuickPayCheckoutPaymentProvider.cs:135 | using the field as the setting yields the same field |
| PaymentMethods.BlankSettingSendsNothing | src/Vendr.Contrib.PaymentProviders.QuickPay/QuickPayCheckoutPaymentProvider.cs:55-58 | a setting of commas and white space sends no payment methods |
| StringExtensions.StripLeading | src/Vendr.Contrib.PaymentProviders.QuickPay/Extensions/StringExtensions.cs:15-19 | the result is a suffix of the value, what was removed is whole case-insensitive copies of the text, and the result does not start with the text |
| StringExtensions.StripTrailing | src/Vendr.Contrib.PaymentProviders.QuickPay/Extensions/StringExtensions.cs:29-33 | the result is a prefix of the value, what was removed is whole case-insensitive copies of the text, and the result does not end with the text |
| StringExtensions.TrimStart | src/Vendr.Contrib.PaymentProviders.QuickPay/Extensions/StringExtensions.cs:10-22 | a null or empty value or text returns the value; otherwise the loop's result is the value with its leading copies removed |
| StringExtensions.TrimEnd | src/Vendr.Contrib.PaymentProviders.QuickPay/Extensions/StringExtensions.cs:24-36 | a null or empty value or text returns the value; otherwise the loop's result is the value with its trailing copies removed |
| StringExtensions.IsCopiesAppend | src/Vendr.Contrib.PaymentProviders.QuickPay/Extensions/StringExtensions.cs:30-32 | copies followed by one more copy are copies |
| StringExtensions.CopyThenCopies | src/Vendr.Contrib.PaymentProviders.QuickPay/Extensions/StringExtensions.cs:16-18 | one copy followed by copies is copies |
| StringExtensions.IsCopiesSplitLast | src/Vendr.Contrib.PaymentProviders.QuickPay/Extensions/StringExtensions.cs:30-32 | non-empty copies end with a copy after copies |
| StringExtensions.StripLeadingCopies | src/Vendr.Contrib.PaymentProviders.QuickPay/Extensions/StringExtensions.cs:15-19 | putting copies in front of a string that does not start with the text and trimming gives the string back |
| StringExtensions.StripTrailingCopies | src/Vendr.Contrib.PaymentProviders.QuickPay/Extensions/StringExtensions.cs:29-33 | appending copies to a string that does not end with the text and trimming gives the string back |
| StringExtensions.StripLeadingIdempotent | src/Vendr.Contrib.PaymentProviders.QuickPay/Extensions/StringExtensions.cs:10-22 | trimming the start twice is trimming it once |
| StringExtensions.StripTrailingIdempotent | src/Vendr.Contrib.PaymentProviders.QuickPay/Extensions/StringExtensions.cs:24-36 | trimming the end twice is trimming it once |
| StringExtensions.StripLeadingExample | src/Vendr.Contrib.PaymentProviders.QuickPay/Extensions/StringExtensions.cs:16 | `INV-inv-12` trimmed of `INV-` is `12`: matching ignores case |
| Checksum.HexDigit | src/Vendr.Contrib.PaymentProviders.QuickPay/QuickPayCheckoutPaymentProvider.cs:444 | every digit `x2` emits is a lowercase hexadecimal digit |
| Checksum.HexValue | src/Vendr.Contrib.PaymentProviders.QuickPay/QuickPayCheckoutPaymentProvider.cs:444 | a digit's value maps back to the digit |
| Checksum.HexLower | src/Vendr.Contrib.PaymentProviders.QuickPay/QuickPayCheckoutPaymentProvider.cs:442-445 | two lowercase hexadecimal digits per byte |
| Checksum.ParseHexLower | src/Vendr.Contrib.PaymentProviders.QuickPay/QuickPayCheckoutPaymentProvider.cs:442-445 | the hex text reads back as the bytes, in order |
| Checksum.HexLowerInjective | src/Vendr.Contrib.PaymentProviders.QuickPay/QuickPayCheckoutPaymentProvider.cs:442-445 | distinct digests render distinctly |
| Checksum.ComputeChecksum | src/Vendr.Contrib.PaymentProviders.QuickPay/QuickPayCheckoutPaymentProvider.cs:432-449 | the loop builds the lowercase hex of HMAC-SHA256 over the UTF-8 content keyed by the UTF-8 private key: 64 lowercase digits |
| Checksum.UppercaseHeaderRejected | src/Vendr.Contrib.PaymentProviders.QuickPay/QuickPayCheckoutPaymentProvider.cs:429 | a header with an uppercase hex digit never matches, since the comparison is ordinal |
| Checksum.DigestChangeChangesChecksum | src/Vendr.Contrib.PaymentProviders.QuickPay/QuickPayCheckoutPaymentProvider.cs:432-449 | bodies whose digests differ have different checksums |
| CheckoutProvider.CallbackUrlAsWritten | src/Vendr.Contrib.PaymentProviders.QuickPay/QuickPayCheckoutPaymentProvider.cs:134 | a callback URL not naming the development host is sent unchanged; otherwise its first occurrence becomes the tunnel host and the rest is rewritten the same way |
| CheckoutProvider.CallbackUrlAsWrittenRedirects | src/Vendr.Contrib.PaymentProviders.QuickPay/QuickPayCheckoutPaymentProvider.cs:134 | a callback URL on the development host is sent to the tunnelling host instead |
| CheckoutProvider.LinkRequestFor | src/Vendr.Contrib.PaymentProviders.QuickPay/QuickPayCheckoutPaymentProvider.cs:128-139 | the link request carries the order amount, the host's continue, cancel and callback URLs unchanged, the payment-methods field of the setting (null when there are no entries; otherwise text that splits into the setting's entries), the auto-fee and auto-capture settings, and the framed setting |
| CheckoutProvider.GenerateFormAsync | src/Vendr.Contrib.PaymentProviders.QuickPay/QuickPayCheckoutPaymentProvider.cs:41-168 | an unknown currency throws with no call; a current session returns the decoded cached link and cached metadata with no call, or throws on a malformed link; otherwise the exchanges and result follow the try block step by step (a failure keeps the cached hash and gives an empty form); at most one payment is created; any link handed out is reused on the next request |
| CheckoutProvider.CreatedSessionReusable | src/Vendr.Contrib.PaymentProviders.QuickPay/QuickPayCheckoutPaymentProvider.cs:141-164 | a newly created session, once stored, is current and yields the same link and metadata |
| CheckoutProvider.CachedSessionReusable | src/Vendr.Contrib.PaymentProviders.QuickPay/QuickPayCheckoutPaymentProvider.cs:151-165 | a reused session, stored again, stays current and yields the same link and metadata |
| CheckoutProvider.StaleOutcomeCreatesAtMostOnce | src/Vendr.Contrib.PaymentProviders.QuickPay/QuickPayCheckoutPaymentProvider.cs:117-144 | a request with no current session makes at most two calls and at most one creation, and hands out a link only after a successful link call |
| CheckoutProvider.GenerateFormTwice | src/Vendr.Contrib.PaymentProviders.QuickPay/QuickPayCheckoutPaymentProvider.cs:63-68 | once a form request hands out a link and its metadata is stored, a second request for the unchanged order returns the same result, with at most one payment created in all |
| CheckoutProvider.ValidateChecksum | src/Vendr.Contrib.PaymentProviders.QuickPay/QuickPayCheckoutPaymentProvider.cs:420-445 | throws when the header is absent, or when it is non-empty and the private key is null; the result is true exactly when the key is set, the header is non-empty and it equals the checksum of the body |
| CheckoutProvider.VerifyOrder | src/Vendr.Contrib.PaymentProviders.QuickPay/QuickPayCheckoutPaymentProvider.cs:226-245 | null variables throw; with an `orderReference` variable the result is whether it is the order's reference, with no fallback; otherwise whether the stored QuickPay order id equals the payment's |
| CheckoutProvider.CreatedPaymentVerifies | src/Vendr.Contrib.PaymentProviders.QuickPay/QuickPayCheckoutPaymentProvider.cs:110-124 | a payment carrying the variables form generation sent verifies against its order |
| CheckoutProvider.ForeignPaymentRejected | src/Vendr.Contrib.PaymentProviders.QuickPay/QuickPayCheckoutPaymentProvider.cs:228-235 | a payment created for an order with another reference is rejected |
| CheckoutProvider.NullOrderIdsVerify | src/Vendr.Contrib.PaymentProviders.QuickPay/QuickPayCheckoutPaymentProvider.cs:236-241 | the fallback compares nullable values, so a payment without order id verifies against an order that stored none |
| CheckoutProvider.ProcessCallbackAsync | src/Vendr.Contrib.PaymentProviders.QuickPay/QuickPayCheckoutPaymentProvider.cs:170-224 | a callback is accepted exactly when the private key is set, the checksum matches, the order verifies and the last operation is approved (qp `20000` or acquirer `000`); it then reports that operation's amount, the transaction id and the operation-type status; every other case, thrown ones included, is empty |
| CheckoutProvider.LastCompleted | src/Vendr.Contrib.PaymentProviders.QuickPay/QuickPayCheckoutPaymentProvider.cs:260 | the index of a completed operation (not pending, qp `20000`) after which none is completed; none exactly when no operation is completed |
| CheckoutProvider.LastCompletedIgnoresIncomplete | src/Vendr.Contrib.PaymentProviders.QuickPay/QuickPayCheckoutPaymentProvider.cs:260 | appending incomplete operations does not move the selection |
| CheckoutProvider.CompletedOperationResult | src/Vendr.Contrib.PaymentProviders.QuickPay/QuickPayCheckoutPaymentProvider.cs:260-274 | an update exactly when the payment has a completed operation; its status is that of the last completed one and its id is the payment's transaction id |
| CheckoutProvider.IncompleteOperationsIgnored | src/Vendr.Contrib.PaymentProviders.QuickPay/QuickPayCheckoutPaymentProvider.cs:297 | pending or unsuccessful operations (an acquirer `000` alone among them) do not change the reported status |
| CheckoutProvider.PerformApiAction | src/Vendr.Contrib.PaymentProviders.QuickPay/QuickPayCheckoutPaymentProvider.cs:247-399 | one call for the order's transaction, reported through the last completed operation, or empty on failure; a missing authorised amount makes no call; no payment is created |
| LegacyProvider.InputStream.Read | src/Vendr.Contrib.PaymentProviders.QuickPay/QuickPayPaymentProvider.cs:390 | copies the available bytes, up to the count, from the position into the buffer at the offset, leaves the rest of the buffer alone, and advances the position by the number copied |
| LegacyProvider.InputStream.ReadToEnd | src/Vendr.Contrib.PaymentProviders.QuickPay/QuickPayPaymentProvider.cs:368 | the UTF-8 text from the position on; the position ends at the end |
| LegacyProvider.ValidateChecksum | src/Vendr.Contrib.PaymentProviders.QuickPay/QuickPayPaymentProvider.cs:381-411 | false for a null or empty header, leaving the stream alone; otherwise the stream is read and rewound, a null private key throws, and the result is true exactly when the header equals the checksum of the whole body |
| LegacyProvider.ReadCallbackBody | src/Vendr.Contrib.PaymentProviders.QuickPay/QuickPayPaymentProvider.cs:360-374 | the whole body, wherever the stream stood, is deserialised and the stream is left rewound |
| LegacyProvider.StateStatus | src/Vendr.Contrib.PaymentProviders.QuickPay/QuickPayPaymentProvider.cs:320-342 | `new`, `processed`, `rejected` and `pending` map to Authorized, Captured, Error and PendingExternalSystem; every other state is Initialized; Refunded and Cancelled never occur |
| LegacyProvider.StateStatusOfName | src/Vendr.Contrib.PaymentProviders.QuickPay/QuickPayPaymentProvider.cs:320-342 | each status with a state name is read back from it |
| LegacyProvider.StateResult | src/Vendr.Contrib.PaymentProviders.QuickPay/QuickPayPaymentProvider.cs:208-216 | empty exactly for a null payment; otherwise the decimal payment id and the status `StateStatus` gives the payment's state |
| LegacyProvider.LegacyLinkRequest | src/Vendr.Contrib.PaymentProviders.QuickPay/QuickPayPaymentProvider.cs:84-94 | the amount and the continue, cancel and callback URLs as given, the payment-methods field of the setting, the auto-fee and auto-capture settings, and no framing flag |
| LegacyProvider.GenerateForm | src/Vendr.Contrib.PaymentProviders.QuickPay/QuickPayPaymentProvider.cs:41-122 | as in the checkout provider, but the payment's order id is the order number verbatim, no variables are sent and no QuickPay order id is stored; at most one payment is created and any link handed out is reused |
| LegacyProvider.CreatedLegacySessionReusable | src/Vendr.Contrib.PaymentProviders.QuickPay/QuickPayPaymentProvider.cs:96-99 | a newly created session, once stored, is current and yields the same link |
| LegacyProvider.CachedLegacySessionReusable | src/Vendr.Contrib.PaymentProviders.QuickPay/QuickPayPaymentProvider.cs:106-110 | a reused session, stored again, stays current and yields the same link |
| LegacyProvider.ProcessCallback | src/Vendr.Contrib.PaymentProviders.QuickPay/QuickPayPaymentProvider.cs:147-192 | accepted exactly when the private key is set, the checksum matches and the last operation is approved, with no order verification; the status comes from the payment's state |
| LegacyProvider.PerformApiAction | src/Vendr.Contrib.PaymentProviders.QuickPay/QuickPayPaymentProvider.cs:194-318 | one call for the order's transaction, reported through the payment's state with no operation filtering; a failed call or a null payment is empty |

## Left out

- HTTP transport, JSON serialisation and the QuickPay REST client. Each call is one exchange with a `Gateway` whose reply is unconstrained except by kind. Deserialising a callback body is a function parameter.
- HMAC-SHA256 is a function parameter returning 32 bytes; only the hex rendering and the comparison are modelled.
- `AmountToMinorUnits` / `AmountFromMinorUnits`: amounts are taken as minor units (`nat`, or `int` for an operation). The order's authorised amount is already in minor units.
- `GenerateOrderReference`, the currency service, the store service and `Order.Id.ToString("D")` are fields of the `Order` datatype. The ISO 4217 table is a set parameter.
- `Enum.TryParse` of the language and the `language` field of the link request are not modelled. The setting cannot make any call fail.
- Culture-sensitive comparisons are modelled as ordinal, with ASCII case folding. String lengths count Unicode scalar values, not UTF-16 code units.
- `Base64Decode` of malformed text: decoding accepts only canonical, padded RFC 4648 text, so lenient white-space handling is not modelled.
- `Utf8.Decode` maps a malformed sequence to U+FFFD one byte at a time. This is simpler than .NET's maximal-subpart replacement.
- The checkout provider's callback body is given as bytes. The stream seeking in `ParseCallbackAsync` is not modelled, since both reads see the whole body.
- Logging, `async`/`await`, and concurrent form requests for one order.
- A null link URL from the gateway is not modelled; a link reply always carries a string.
- LegacyProvider.InputStream.Read: always copies every available byte up to the count. A real stream may return fewer.
- The legacy provider passes the integer payment id where a string is expected. It is modelled as its decimal rendering.
- ProviderBase.ConfiguredUrl: the legacy provider's own URL getters (`QuickPayPaymentProvider.cs` lines 123-145) behave identically and are not modelled separately.
- CheckoutProvider.LinkRequestFor: passes the host's callback URL unchanged. It does not apply the development-host rewrite the source performs; see Findings.

Where the code and its surrounding description differ, the model follows the code:

- A template with no `{0}` makes `Substring(0, -1)` throw inside the try block. The form request then returns the cached metadata and an empty form; it does not send the number unshortened.
- Shortening does not bound the reference to 20 characters, and it is not idempotent (`OrderReference.NormalizeNotIdempotent`).

## Findings

| source | as written | input that shows it | evidently intended | confidence | as-written member | corrected member |
|---|---|---|---|---|---|---|
| src/Vendr.Contrib.PaymentProviders.QuickPay/QuickPayCheckoutPaymentProvider.cs:134 | the callback URL has `https://localhost:44360` replaced by a fixed ngrok tunnelling host | a store served at `https://localhost:44360` with callback `https://localhost:44360/callback`: QuickPay is told to call the tunnelling host instead | the host's callback URL is sent unchanged | not executed | CheckoutProvider.CallbackUrlAsWrittenRedirects | CheckoutProvider.LinkRequestFor |
