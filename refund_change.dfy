/**
 * Refunds in release 4.0.2 (`process_refund` and `postRefundChange` of
 * index.php). A refund that leaves nothing of the order total cancels the
 * payment; any other asks Netgíró to change the payment to the total that
 * remains. The change request is signed like the v1 API calls, and its
 * outcome is read from the body's `ResultCode`, not from the HTTP status.
 */
module RefundChange {
  import opened Wrappers
  import Php
  import Json
  import Api
  import Signature
  import Refund

  /** The one item of a change request. */
  datatype ChangeItem = ChangeItem(amount: Php.Number, quantity: int, unitPrice: Php.Number)

  /** The body of a change request. */
  datatype ChangeBody = ChangeBody(transactionId: string, message: string, totalAmount: Php.Number,
                                   items: seq<ChangeItem>)

  /** `json_encode` of a change body: its text, or None for false. */
  type ChangeEncoder = ChangeBody -> Option<string>

  /** The gateway settings the change request reads, the digest and the encoder. */
  datatype Settings = Settings(apiUrl: string, appId: string, secretKey: string,
                               hash: Signature.Hasher, encode: ChangeEncoder)

  const ChangeMessage := "Order Changed in Magento2 store"
  const ChangeTimeout: nat := 30

  /** The change body: the new total, sent again as a single item of
    * quantity 1000 whose amount and unit price are that total. */
  function ChangeBodyOf(txn: string, amount: Php.Number): (b: ChangeBody)
    ensures b.transactionId == txn && b.message == ChangeMessage && b.totalAmount == amount
    ensures |b.items| == 1 && b.items[0].quantity == 1000
    ensures b.items[0].amount == amount && b.items[0].unitPrice == amount
  {
    ChangeBody(txn, ChangeMessage, amount, [ChangeItem(amount, 1000, amount)])
  }

  /** The body as the signature sees it: false concatenates as "". */
  function BodyText(body: Option<string>): string
  {
    if body.Some? then body.value else ""
  }

  /**
   * The request `postRefundChange` sends: a POST to `payment/change`
   * carrying the application id, the nonce and the signature of secret,
   * nonce, URL and body text, joined without separators.
   */
  function ChangeRequest(s: Settings, txn: string, amount: Php.Number, nonce: string): (req: Api.Request)
    ensures req.verb == Api.Post && req.url == s.apiUrl + "payment/change" && req.timeout == ChangeTimeout
    ensures req.body == s.encode(ChangeBodyOf(txn, amount))
    ensures req.headers ==
              [("Content-Type", "application/json"), ("netgiro_appkey", s.appId), ("netgiro_nonce", nonce),
               ("netgiro_signature",
                s.hash(Signature.Concat([s.secretKey, nonce, s.apiUrl + "payment/change", BodyText(req.body)])))]
  {
    var url := s.apiUrl + "payment/change";
    var body := s.encode(ChangeBodyOf(txn, amount));
    var signature := Signature.RequestSignature(s.hash, s.secretKey, nonce, url, BodyText(body));
    Api.Request(Api.Post, url,
                [("Content-Type", "application/json"), ("netgiro_appkey", s.appId), ("netgiro_nonce", nonce),
                 ("netgiro_signature", signature)],
                body, ChangeTimeout)
  }

  /**
   * What `postRefundChange` returns for a reply: "" when the body's
   * `ResultCode` loosely equals 200, else the body's `Message` (null when
   * absent). A WP_Error has no body to index and ends in a PHP error (None).
   */
  function ChangeReplyMessage(reply: Api.Reply): (r: Option<Json.JVal>)
    ensures r.None? <==> reply.Failed?
    ensures reply.Http? && Json.LooseEqualsInt(Json.Member(reply.body, "ResultCode"), 200) ==> r == Some(Json.JStr(""))
    ensures reply.Http? && !Json.LooseEqualsInt(Json.Member(reply.body, "ResultCode"), 200) ==>
              r == Some(Json.Member(reply.body, "Message"))
  {
    match reply
    case Failed(_) => None
    case Http(_, _, body) =>
      if Json.LooseEqualsInt(Json.Member(body, "ResultCode"), 200) then Some(Json.JStr(""))
      else Some(Json.Member(body, "Message"))
  }

  /** `postRefundChange` as the source runs it, signing through the
    * concatenation loop of `generateSignature`. */
  method PostRefundChange(s: Settings, txn: string, amount: Php.Number, nonce: string, reply: Api.Reply)
    returns (sent: Api.Request, message: Option<Json.JVal>)
    ensures sent == ChangeRequest(s, txn, amount, nonce)
    ensures message == ChangeReplyMessage(reply)
  {
    var url := s.apiUrl + "payment/change";
    var body := s.encode(ChangeBodyOf(txn, amount));
    var signature := Signature.GenerateSignature(s.hash, [s.secretKey, nonce, url, BodyText(body)]);
    sent := Api.Request(Api.Post, url,
                        [("Content-Type", "application/json"), ("netgiro_appkey", s.appId), ("netgiro_nonce", nonce),
                         ("netgiro_signature", signature)],
                        body, ChangeTimeout);
    message := ChangeReplyMessage(reply);
  }

  /** The order's total and the part of it refunded so far. */
  datatype Totals = Totals(total: Php.Number, refunded: Php.Number)

  /** The path a refund takes: cancel the payment, or change it with this request. */
  datatype Path = Cancel | Change(request: Api.Request)

  function Remaining(t: Totals): Php.Number
  {
    Php.Sub(t.total, t.refunded)
  }

  /** `$respMsg !== ''`: only the empty string counts as success; anything
    * else is thrown as the exception's message. */
  function Judge(message: Option<Json.JVal>): (r: Refund.Outcome)
    ensures r.RefundCrashed? <==> message.None?
    ensures r.RefundDone? <==> message == Some(Json.JStr(""))
    ensures r.RefundRejected? ==> r.message == Json.Text(message.value)
  {
    match message
    case None => Refund.RefundCrashed
    case Some(m) => if m == Json.JStr("") then Refund.RefundDone else Refund.RefundRejected(Json.Text(m))
  }

  /**
   * `process_refund` as a function of its inputs. A missing order ends in a
   * PHP error before anything is sent. The refund reason stands in for the
   * transaction id. The cancel path is taken exactly when nothing of the
   * total remains, and `cancelResult` is what that path returns.
   */
  function ChangeStep(s: Settings, order: Option<Totals>, reason: string, nonce: string,
                      reply: Api.Reply, cancelResult: Option<Json.JVal>): (r: (Refund.Outcome, Option<Path>))
    ensures order.None? ==> r == (Refund.RefundCrashed, None)
    ensures order.Some? && Php.IsZero(Remaining(order.value)) ==> r == (Judge(cancelResult), Some(Cancel))
    ensures order.Some? && !Php.IsZero(Remaining(order.value)) ==>
              r == (Judge(ChangeReplyMessage(reply)),
                    Some(Change(ChangeRequest(s, reason, Remaining(order.value), nonce))))
  {
    match order
    case None => (Refund.RefundCrashed, None)
    case Some(t) =>
      if Php.IsZero(Remaining(t)) then (Judge(cancelResult), Some(Cancel))
      else (Judge(ChangeReplyMessage(reply)), Some(Change(ChangeRequest(s, reason, Remaining(t), nonce))))
  }

  /** `process_refund` as the source runs it. */
  method ProcessRefund(s: Settings, order: Option<Totals>, reason: string, nonce: string,
                       reply: Api.Reply, cancelResult: Option<Json.JVal>)
    returns (outcome: Refund.Outcome, path: Option<Path>)
    ensures (outcome, path) == ChangeStep(s, order, reason, nonce, reply, cancelResult)
  {
    if order.None? {
      return Refund.RefundCrashed, None;
    }
    var newTotal := Remaining(order.value);
    var transactionId := reason;
    var respMsg: Option<Json.JVal>;
    if Php.IsZero(newTotal) {
      respMsg := cancelResult;
      path := Some(Cancel);
    } else {
      var sent;
      sent, respMsg := PostRefundChange(s, transactionId, newTotal, nonce, reply);
      path := Some(Change(sent));
    }
    outcome := Judge(respMsg);
  }

  // ------------------------------------------------------------ properties

  /** The payment is cancelled exactly when the refunds so far equal the
    * order total; otherwise it is changed to the difference. */
  lemma CancelExactlyWhenNothingRemains(s: Settings, t: Totals, reason: string, nonce: string,
                                        reply: Api.Reply, cancelResult: Option<Json.JVal>)
    ensures var path := ChangeStep(s, Some(t), reason, nonce, reply, cancelResult).1;
            (path == Some(Cancel) <==> t.total.num * t.refunded.den == t.refunded.num * t.total.den)
            && (path != Some(Cancel) ==>
                  path.value.request.body
                  == s.encode(ChangeBodyOf(reason, Php.Ratio(t.total.num * t.refunded.den - t.refunded.num * t.total.den,
                                                             t.total.den * t.refunded.den))))
  {
  }

  /** On the change path the HTTP status plays no part: two replies with the
    * same body end the same way, and the refund is taken as done exactly
    * when `ResultCode` loosely equals 200 or `Message` is the empty string. */
  lemma ChangeDecidedByBody(s: Settings, t: Totals, reason: string, nonce: string,
                            reply1: Api.Reply, reply2: Api.Reply, cancelResult: Option<Json.JVal>)
    requires !Php.IsZero(Remaining(t))
    requires reply1.Http? && reply2.Http? && reply1.body == reply2.body
    ensures ChangeStep(s, Some(t), reason, nonce, reply1, cancelResult).0
            == ChangeStep(s, Some(t), reason, nonce, reply2, cancelResult).0
    ensures ChangeStep(s, Some(t), reason, nonce, reply1, cancelResult).0.RefundDone?
            <==> Json.LooseEqualsInt(Json.Member(reply1.body, "ResultCode"), 200)
                 || Json.Member(reply1.body, "Message") == Json.JStr("")
  {
  }

  /** The change request carries the same signature header the 5.x client
    * puts on a v1 API call with the same URL, nonce and body. */
  lemma ChangeSignedAsApiClient(s: Settings, txn: string, amount: Php.Number, nonce: string,
                                c: Api.Client, payload: Api.Payload)
    requires c.secretKey == s.secretKey && c.appKey == s.appId && c.hash == s.hash
    requires s.encode(ChangeBodyOf(txn, amount)).Some?
    requires c.encode(payload) == s.encode(ChangeBodyOf(txn, amount))
    ensures var mine := ChangeRequest(s, txn, amount, nonce);
            var theirs := Api.BuildV1RequestArgs(c, s.apiUrl + "payment/change", payload, nonce);
            theirs.Ok? && mine.headers[1..] <= theirs.value.headers[2..] && mine.body == theirs.value.body
  {
  }
}
