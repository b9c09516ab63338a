/**
 * The Netgíró API client (version 5.1 of the plugin): request building for
 * the v1 checkout API and the Partner API, and the classification of each
 * reply into the envelope {success, message, data, wp_error,
 * api_level_success} that the gateway reads.
 *
 * Sending is not modelled: each call takes the reply the provider gave as a
 * parameter and returns the request it would have sent, if any, together
 * with the envelope.
 */
module Api {
  import opened Wrappers
  import Php
  import Json
  import Signature

  datatype WpError = WpError(code: string, message: string)

  /** What the WordPress HTTP API returned: a WP_Error (also used for a reply
    * without a status code) or an HTTP response with status, reason phrase
    * and body. */
  datatype Reply = Failed(error: WpError) | Http(code: int, reason: string, body: Json.Body)

  /** The array every API method returns. `apiLevelSuccess` is absent from
    * success envelopes. */
  datatype Envelope = Envelope(
    success: bool,
    message: string,
    data: Option<Json.JVal>,
    wpError: Option<WpError>,
    apiLevelSuccess: Option<bool>)

  datatype Verb = Get | Post

  datatype Request = Request(
    verb: Verb,
    url: string,
    headers: seq<(string, string)>,
    body: Option<string>,
    timeout: nat)

  /** One provider call: the request sent (None when none was sent) and the
    * envelope handed back to the caller. */
  datatype Call = Call(sent: Option<Request>, envelope: Envelope)

  type Payload = seq<(string, Json.JVal)>

  /** `wp_json_encode`: the JSON text of a payload, or None when encoding fails. */
  type Encoder = Payload -> Option<string>

  /** The configuration fixed by the constructor, plus the digest and JSON
    * encoding functions the client calls. */
  datatype Client = Client(
    secretKey: string,
    appKey: string,
    apiUrl: string,
    partnerApiUrl: string,
    hash: Signature.Hasher,
    encode: Encoder)

  const RequestTimeout: nat := 25
  const TestApiUrl := "https://api.test.netgiro.is/v1/"
  const TestPartnerApiUrl := "https://partner-api.test.netgiro.is/"
  const LiveApiUrl := "https://api.netgiro.is/v1/"
  const LivePartnerApiUrl := "https://api.netgiro.is/partner/"

  const InvalidJsonMessage := "Invalid JSON response from Netgíró."
  const DefaultFailureMessage := "API request failed."
  const DefaultSuccessMessage := "Operation successful."
  const RefundSuccessMessage := "Refund processed successfully (HTTP 200 OK received)."
  const StatusSuccessMessage := "Transaction status retrieved successfully."
  const StatusFalseMessage := "Netgíró returned Success=false."
  const EncodeFailure := WpError("json_encode_failed", "Failed to JSON-encode request payload.")

  /** The constructor: test mode selects the sandbox hosts. */
  function NewClient(testMode: bool, secretKey: string, appKey: string,
                     hash: Signature.Hasher, encode: Encoder): (c: Client)
    ensures c.secretKey == secretKey && c.appKey == appKey
    ensures testMode ==> c.apiUrl == TestApiUrl && c.partnerApiUrl == TestPartnerApiUrl
    ensures !testMode ==> c.apiUrl == LiveApiUrl && c.partnerApiUrl == LivePartnerApiUrl
  {
    if testMode then Client(secretKey, appKey, TestApiUrl, TestPartnerApiUrl, hash, encode)
    else Client(secretKey, appKey, LiveApiUrl, LivePartnerApiUrl, hash, encode)
  }

  function FormatSuccess(message: string, data: Option<Json.JVal>): (r: Envelope)
    ensures r.success && r.message == message && r.data == data
    ensures r.wpError.None? && r.apiLevelSuccess.None?
  {
    Envelope(true, message, data, None, None)
  }

  function FormatError(message: string, data: Option<Json.JVal>, wpError: Option<WpError>,
                       apiLevelSuccess: bool): (r: Envelope)
    ensures !r.success && r.message == message && r.data == data
    ensures r.wpError == wpError && r.apiLevelSuccess == Some(apiLevelSuccess)
  {
    Envelope(false, message, data, wpError, Some(apiLevelSuccess))
  }

  /** The decoded body as the `data` of an envelope: null becomes absent. */
  function AsData(v: Json.JVal): Option<Json.JVal>
  {
    if v == Json.JNull then None else Some(v)
  }

  /** The envelope for a WP_Error: its message, no data, the error attached. */
  function TransportFailure(e: WpError): (r: Envelope)
    ensures !r.success && r.message == e.message && r.data.None? && r.wpError == Some(e)
  {
    FormatError(e.message, None, Some(e), true)
  }

  predicate Is2xx(code: int)
  {
    200 <= code < 300
  }

  /** The body asserts `Success === true`. */
  predicate SaysSuccess(data: Json.JVal)
  {
    Json.Field(data, "Success") == Some(Json.JBool(true))
  }

  /** `$data['Message'] ?? $data['message']`: the first present of the two. */
  function BodyMessage(data: Json.JVal): (r: Option<Json.JVal>)
    ensures Json.Field(data, "Message").Some? ==> r == Json.Field(data, "Message")
    ensures Json.Field(data, "Message").None? ==> r == Json.Field(data, "message")
  {
    if Json.Field(data, "Message").Some? then Json.Field(data, "Message") else Json.Field(data, "message")
  }

  /** The failure message of a confirm-style call. */
  function ApiFailureMessage(data: Json.JVal, code: int, reason: string): (msg: string)
    ensures BodyMessage(data).Some? && Json.Text(BodyMessage(data).value) != DefaultFailureMessage
            ==> msg == Json.Text(BodyMessage(data).value)
    ensures Is2xx(code) && BodyMessage(data).None? ==> msg == DefaultFailureMessage
    ensures !Is2xx(code) && BodyMessage(data).None? && !Php.EmptyString(reason) ==> msg == reason
    ensures !Is2xx(code) && BodyMessage(data).None? && Php.EmptyString(reason)
            ==> msg == "HTTP " + Php.IntToString(code) + " error."
  {
    var m := BodyMessage(data);
    var text := if m.Some? then Json.Text(m.value) else DefaultFailureMessage;
    if !Is2xx(code) && text == DefaultFailureMessage then
      if Php.EmptyString(reason) then "HTTP " + Php.IntToString(code) + " error." else reason
    else text
  }

  /**
   * `handle_api_response`: a confirm-style call succeeds exactly when the
   * status is 2xx and the body decodes with `Success === true`.
   */
  function HandleApiResponse(reply: Reply): (r: Envelope)
    ensures r.success <==> reply.Http? && Is2xx(reply.code) && reply.body.Decoded? && SaysSuccess(reply.body.value)
    ensures reply.Failed? ==> r == TransportFailure(reply.error)
    ensures reply.Http? && reply.body.InvalidJson? ==> r == FormatError(InvalidJsonMessage, None, None, true)
    ensures reply.Http? && reply.body.Decoded? && !r.success ==>
              r.message == ApiFailureMessage(reply.body.value, reply.code, reply.reason)
              && r.apiLevelSuccess == Some(SaysSuccess(reply.body.value))
              && r.data == AsData(reply.body.value) && r.wpError.None?
    ensures r.success ==> r.data == Some(reply.body.value) && r.apiLevelSuccess.None?
    ensures r.success && Json.Field(reply.body.value, "Message").Some? ==>
              r.message == Json.Text(Json.Field(reply.body.value, "Message").value)
    ensures r.success && Json.Field(reply.body.value, "Message").None? ==> r.message == DefaultSuccessMessage
  {
    match reply
    case Failed(e) => TransportFailure(e)
    case Http(code, reason, body) =>
      match body
      case InvalidJson => FormatError(InvalidJsonMessage, None, None, true)
      case Decoded(data) =>
        var apiOk := SaysSuccess(data);
        if !Is2xx(code) || !apiOk then
          FormatError(ApiFailureMessage(data, code, reason), AsData(data), None, apiOk)
        else
          var m := Json.Field(data, "Message");
          FormatSuccess(if m.Some? then Json.Text(m.value) else DefaultSuccessMessage, AsData(data))
  }

  /** The failure message of a refund call with a non-200 status. */
  function RefundFailureMessage(code: int, reason: string, body: Json.Body): (msg: string)
    ensures body.Decoded? && Json.Field(body.value, "Message").Some? ==>
              msg == Json.Text(Json.Field(body.value, "Message").value)
    ensures body.Decoded? && Json.Field(body.value, "Message").None? && Json.Field(body.value, "message").Some? ==>
              msg == Json.Text(Json.Field(body.value, "message").value)
    ensures (body.InvalidJson? || BodyMessage(body.value).None?) && !Php.EmptyString(reason) ==> msg == reason
    ensures (body.InvalidJson? || BodyMessage(body.value).None?) && Php.EmptyString(reason) ==>
              msg == "Refund failed with HTTP status " + Php.IntToString(code) + "."
  {
    if body.Decoded? && BodyMessage(body.value).Some? then Json.Text(BodyMessage(body.value).value)
    else if Php.EmptyString(reason) then "Refund failed with HTTP status " + Php.IntToString(code) + "."
    else reason
  }

  /**
   * `handle_refund_response`: a refund succeeds exactly on status 200,
   * whatever the body holds, and the success envelope carries no data.
   */
  function HandleRefundResponse(reply: Reply): (r: Envelope)
    ensures r.success <==> reply.Http? && reply.code == 200
    ensures r.success ==> r.message == RefundSuccessMessage && r.data.None? && r.wpError.None?
    ensures reply.Failed? ==> r == TransportFailure(reply.error)
    ensures reply.Http? && !r.success ==>
              r.message == RefundFailureMessage(reply.code, reply.reason, reply.body)
              && r.wpError.None? && r.apiLevelSuccess == Some(true)
              && (r.data.Some? <==> reply.body.Decoded? && Json.IsArray(reply.body.value))
  {
    match reply
    case Failed(e) => TransportFailure(e)
    case Http(code, reason, body) =>
      if code == 200 then FormatSuccess(RefundSuccessMessage, None)
      else
        var data := if body.Decoded? && Json.IsArray(body.value) then Some(body.value) else None;
        FormatError(RefundFailureMessage(code, reason, body), data, None, true)
  }

  /** The message of a non-200 status reply: `Message`, else `message`, else the
    * reason phrase; an empty one of these gives "HTTP n received from Netgíró.". */
  function StatusErrorMessage(data: Json.JVal, code: int, reason: string): (msg: string)
    ensures BodyMessage(data).Some? && !Json.Empty(BodyMessage(data).value) ==> msg == Json.Text(BodyMessage(data).value)
    ensures BodyMessage(data).None? && !Php.EmptyString(reason) ==> msg == reason
    ensures (if BodyMessage(data).Some? then Json.Empty(BodyMessage(data).value) else Php.EmptyString(reason)) ==>
              msg == "HTTP " + Php.IntToString(code) + " received from Netgíró."
  {
    var chosen := if BodyMessage(data).Some? then BodyMessage(data).value else Json.JStr(reason);
    if Json.Empty(chosen) then "HTTP " + Php.IntToString(code) + " received from Netgíró." else Json.Text(chosen)
  }

  /**
   * The classification half of `get_transaction_status`: invalid JSON fails
   * first, then any status other than 200, then an explicit `Success ===
   * false` (with api_level_success false); anything else succeeds.
   */
  function ClassifyTransactionStatus(reply: Reply): (r: Envelope)
    ensures r.success <==> reply.Http? && reply.body.Decoded? && reply.code == 200
                           && Json.Field(reply.body.value, "Success") != Some(Json.JBool(false))
    ensures reply.Failed? ==> r == TransportFailure(reply.error)
    ensures reply.Http? && reply.body.InvalidJson? ==> r == FormatError(InvalidJsonMessage, None, None, true)
    ensures reply.Http? && reply.body.Decoded? && reply.code != 200 ==>
              r == FormatError(StatusErrorMessage(reply.body.value, reply.code, reply.reason), AsData(reply.body.value), None, true)
    ensures r.apiLevelSuccess == Some(false) <==>
              reply.Http? && reply.body.Decoded? && reply.code == 200
              && Json.Field(reply.body.value, "Success") == Some(Json.JBool(false))
    ensures r.success ==> r.message == StatusSuccessMessage && r.data == AsData(reply.body.value)
  {
    match reply
    case Failed(e) => TransportFailure(e)
    case Http(code, reason, body) =>
      match body
      case InvalidJson => FormatError(InvalidJsonMessage, None, None, true)
      case Decoded(data) =>
        if code != 200 then FormatError(StatusErrorMessage(data, code, reason), AsData(data), None, true)
        else if Json.Field(data, "Success") == Some(Json.JBool(false)) then
          var m := Json.Field(data, "Message");
          FormatError(if m.Some? then Json.Text(m.value) else StatusFalseMessage, AsData(data), None, false)
        else FormatSuccess(StatusSuccessMessage, AsData(data))
  }

  /** `build_v1_request_args`: a signed POST, or the encoding error. */
  function BuildV1RequestArgs(c: Client, url: string, payload: Payload, nonce: string): (r: Result<Request, WpError>)
    ensures c.encode(payload).None? <==> r.Err?
    ensures r.Err? ==> r.error == EncodeFailure
    ensures r.Ok? ==>
              var body := c.encode(payload).value;
              r.value.verb == Post && r.value.url == url && r.value.body == Some(body)
              && r.value.timeout == RequestTimeout
              && ("netgiro_appkey", c.appKey) in r.value.headers
              && ("netgiro_nonce", nonce) in r.value.headers
              && ("netgiro_signature", c.hash(Signature.Concat([c.secretKey, nonce, url, body]))) in r.value.headers
  {
    match c.encode(payload)
    case None => Err(EncodeFailure)
    case Some(body) =>
      var signature := Signature.RequestSignature(c.hash, c.secretKey, nonce, url, body);
      Ok(Request(Post, url,
                 [("Content-Type", "application/json; charset=utf-8"),
                  ("Accept", "application/json"),
                  ("netgiro_appkey", c.appKey),
                  ("netgiro_nonce", nonce),
                  ("netgiro_signature", signature),
                  ("netgiro-api-request", "true")],
                 Some(body), RequestTimeout))
  }

  /** `build_partner_post_request_args`: the secret key travels as the
    * `token` header. */
  function PartnerPostArgs(c: Client, url: string, payload: Payload): (r: Result<Request, WpError>)
    ensures c.encode(payload).None? <==> r.Err?
    ensures r.Ok? ==> r.value.verb == Post && r.value.body == c.encode(payload)
                      && ("token", c.secretKey) in r.value.headers
  {
    match c.encode(payload)
    case None => Err(EncodeFailure)
    case Some(body) =>
      Ok(Request(Post, url,
                 [("Content-Type", "application/json; charset=utf-8"),
                  ("Accept", "application/json"),
                  ("token", c.secretKey)],
                 Some(body), RequestTimeout))
  }

  function PartnerGetArgs(c: Client, url: string): (r: Request)
    ensures r.verb == Get && r.body.None? && ("token", c.secretKey) in r.headers
  {
    Request(Get, url, [("Accept", "application/json"), ("token", c.secretKey)], None, RequestTimeout)
  }

  /** A request that could not be built is reported without sending anything. */
  function Unsent(e: WpError): (r: Call)
    ensures r.sent.None? && !r.envelope.success
  {
    Call(None, FormatError(e.message, None, Some(e), true))
  }

  /** `confirm_cart`: POST checkout/ConfirmCart with the transaction id. */
  function ConfirmCart(c: Client, transactionId: string, nonce: string, reply: Reply): (r: Call)
    ensures var payload := [("transactionId", Json.JStr(transactionId))];
            r.sent.Some? <==> c.encode(payload).Some?
    ensures r.sent.Some? ==>
              r.sent.value.url == c.apiUrl + "checkout/ConfirmCart"
              && r.sent.value.body == c.encode([("transactionId", Json.JStr(transactionId))])
              && r.envelope == HandleApiResponse(reply)
    ensures r.sent.Some? ==>
              var body := c.encode([("transactionId", Json.JStr(transactionId))]).value;
              r.sent.value.verb == Post
              && ("netgiro_appkey", c.appKey) in r.sent.value.headers
              && ("netgiro_nonce", nonce) in r.sent.value.headers
              && ("netgiro_signature", c.hash(Signature.Concat([c.secretKey, nonce, c.apiUrl + "checkout/ConfirmCart", body])))
                 in r.sent.value.headers
    ensures r.envelope.success ==> r.sent.Some? && reply.Http? && Is2xx(reply.code)
  {
    var url := c.apiUrl + "checkout/ConfirmCart";
    match BuildV1RequestArgs(c, url, [("transactionId", Json.JStr(transactionId))], nonce)
    case Err(e) => Unsent(e)
    case Ok(request) => Call(Some(request), HandleApiResponse(reply))
  }

  /** `generate_idempotency_key`: the first 40 characters of a hex digest of
    * a unique id. The digest of `uniqid()` is the input here. */
  function IdempotencyKey(uniqueDigest: string): (key: string)
    ensures |uniqueDigest| >= 40 ==> |key| == 40
    ensures |key| <= |uniqueDigest| && key == uniqueDigest[..|key|]
  {
    Php.Prefix(uniqueDigest, 40)
  }

  /** The refund body: amount rounded, reason only when non-empty and cut to
    * 100 characters. */
  function RefundPayload(transactionId: string, amount: Php.Number, reason: string, key: string): (p: Payload)
    ensures |p| == if Php.EmptyString(reason) then 3 else 4
    ensures p[0] == ("transactionId", Json.JStr(transactionId))
    ensures p[1] == ("refundAmount", Json.JNum(Php.Round(amount)))
    ensures p[2] == ("idempotencyKey", Json.JStr(key))
    ensures |p| == 4 ==> p[3] == ("reason", Json.JStr(Php.Prefix(reason, 100)))
  {
    var base := [("transactionId", Json.JStr(transactionId)),
                 ("refundAmount", Json.JNum(Php.Round(amount))),
                 ("idempotencyKey", Json.JStr(key))];
    if Php.EmptyString(reason) then base else base + [("reason", Json.JStr(Php.Prefix(reason, 100)))]
  }

  /** `refund_payment`: POST refund to the Partner API. */
  function RefundPayment(c: Client, transactionId: string, amount: Php.Number, reason: string,
                         uniqueDigest: string, reply: Reply): (r: Call)
    ensures var payload := RefundPayload(transactionId, amount, reason, IdempotencyKey(uniqueDigest));
            (r.sent.Some? <==> c.encode(payload).Some?)
            && (r.sent.Some? ==> r.sent.value.url == c.partnerApiUrl + "refund"
                                 && r.sent.value.body == c.encode(payload)
                                 && r.envelope == HandleRefundResponse(reply))
    ensures r.envelope.success ==> r.sent.Some? && reply.Http? && reply.code == 200
  {
    var payload := RefundPayload(transactionId, amount, reason, IdempotencyKey(uniqueDigest));
    match PartnerPostArgs(c, c.partnerApiUrl + "refund", payload)
    case Err(e) => Unsent(e)
    case Ok(request) => Call(Some(request), HandleRefundResponse(reply))
  }

  /** `get_transaction_status`: GET transaction/{id} from the Partner API;
    * the request is always sent. */
  function GetTransactionStatus(c: Client, transactionId: string, reply: Reply): (r: Call)
    ensures r.sent == Some(PartnerGetArgs(c, c.partnerApiUrl + "transaction/" + transactionId))
    ensures r.envelope == ClassifyTransactionStatus(reply)
  {
    Call(Some(PartnerGetArgs(c, c.partnerApiUrl + "transaction/" + transactionId)), ClassifyTransactionStatus(reply))
  }

  datatype LogLevel = Debug | Error

  /** The level at which `log_response` records a reply. */
  function ResponseLogLevel(code: int): (level: LogLevel)
    ensures level == Error <==> code >= 400
  {
    if code >= 400 then Error else Debug
  }
}
