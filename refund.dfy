/**
 * Refunds in release 4.1.1 (`process_refund`, `post_refund` and
 * `get_transaction` of `WC_netgiro`, and the same two helpers of
 * `Netgiro_Refund`), and the filter that hides the gateway when the shop
 * does not sell in ISK.
 *
 * A refund posts the order's transaction id and the amount cut to an
 * integer to the refund endpoint; the HTTP status alone decides whether it
 * took place. Orders paid before the transaction id was stored are looked
 * up through the payment note the older return handlers left.
 */
module Refund {
  import opened Wrappers
  import Php
  import Json
  import Api
  import opened Store
  import Gateway
  import LegacyForm
  import LegacyReturn

  // ---------------------------------------------------- transaction lookup

  /** A note left by an accepted payment of an older release. */
  predicate Marked(note: string)
  {
    Php.Contains(note, LegacyReturn.SuccessMarker)
  }

  /** What the lookup reads out of a marked note: the note without the prefix. */
  function Strip(note: string): string
  {
    Php.RemoveAll(note, LegacyReturn.SuccessNotePrefix)
  }

  /**
   * The loop over the order notes. They are listed newest first, and each
   * marked note overwrites the value found so far.
   */
  function Scan(notes: seq<string>, value: string): string
    decreases |notes|
  {
    if notes == [] then value
    else
      var newest := notes[|notes| - 1];
      Scan(notes[..|notes| - 1], if Marked(newest) then Strip(newest) else value)
  }

  /** The reading Scan amounts to: the oldest marked note, stripped, or the
    * fallback when no note is marked. */
  function OldestMarked(notes: seq<string>, fallback: string): (r: string)
    ensures (forall i | 0 <= i < |notes| :: !Marked(notes[i])) ==> r == fallback
  {
    if notes == [] then fallback
    else if Marked(notes[0]) then Strip(notes[0])
    else OldestMarked(notes[1..], fallback)
  }

  /**
   * `get_transaction`: nothing for a missing order, an order without id or
   * an order paid by another method; the stored transaction id when it is
   * not empty; otherwise what the notes give, falling back to the stored
   * (empty) value.
   */
  function TransactionOf(order: Option<OrderState>): (r: Option<string>)
    ensures r.Some? <==> order.Some? && order.value.id != 0 && order.value.paymentMethod == "netgiro"
    ensures r.Some? && !Php.EmptyString(order.value.transactionId) ==> r.value == order.value.transactionId
  {
    match order
    case None => None
    case Some(st) =>
      if st.id == 0 || st.paymentMethod != "netgiro" then None
      else if !Php.EmptyString(st.transactionId) then Some(st.transactionId)
      else Some(Scan(st.notes, st.transactionId))
  }

  /** The lookup as the source runs it, walking the notes newest first. */
  method GetTransaction(order: Order?) returns (value: Option<string>)
    ensures value == TransactionOf(if order == null then None else Some(order.State()))
  {
    if order == null || order.id == 0 || order.paymentMethod != "netgiro" {
      return None;
    }
    var v := order.transactionId;
    if Php.EmptyString(v) {
      var notes := order.notes;
      var i := |notes|;
      assert notes[..i] == notes;
      while i > 0
        invariant 0 <= i <= |notes|
        invariant Scan(notes, order.transactionId) == Scan(notes[..i], v)
      {
        i := i - 1;
        assert notes[..i + 1][..i] == notes[..i];
        var note := notes[i];
        if Marked(note) {
          v := Strip(note);
        }
      }
    }
    return Some(v);
  }

  // ---------------------------------------------------------- the request

  /** The gateway settings a refund reads, and the JSON encoder. */
  datatype Settings = Settings(apiUrl: string, secretKey: string, encode: Api.Encoder)

  const RefundTimeout: nat := 30

  /**
   * The refund body: the transaction id (null when none was found) also
   * serves as idempotency key, and the amount is cut toward zero to an
   * integer.
   */
  function RefundPayload(txn: Option<string>, amount: Php.Number): (p: Api.Payload)
    ensures |p| == 3
    ensures p[0].0 == "transactionId" && p[1].0 == "refundAmount" && p[2].0 == "idempotencyKey"
    ensures p[0].1 == (if txn.Some? then Json.JStr(txn.value) else Json.JNull)
    ensures p[2].1 == p[0].1
    ensures p[1].1.JNum?
    ensures amount.num >= 0 ==> 0 <= p[1].1.n && p[1].1.n * amount.den <= amount.num < (p[1].1.n + 1) * amount.den
    ensures amount.num < 0 ==> p[1].1.n <= 0 && (p[1].1.n - 1) * amount.den < amount.num <= p[1].1.n * amount.den
  {
    Php.TruncateBounds(amount);
    var id := if txn.Some? then Json.JStr(txn.value) else Json.JNull;
    [("transactionId", id), ("refundAmount", Json.JNum(Php.Truncate(amount))), ("idempotencyKey", id)]
  }

  /** `post_refund`'s request: a JSON POST to the refund endpoint that
    * carries the secret key as `token`; a body that fails to encode is sent
    * as false (None). */
  function RefundRequest(s: Settings, txn: Option<string>, amount: Php.Number): (req: Api.Request)
    ensures req.verb == Api.Post && req.url == s.apiUrl + "refund" && req.timeout == RefundTimeout
    ensures req.headers == [("Content-Type", "application/json"), ("token", s.secretKey)]
    ensures req.body == s.encode(RefundPayload(txn, amount))
  {
    Api.Request(Api.Post, s.apiUrl + "refund", [("Content-Type", "application/json"), ("token", s.secretKey)],
                s.encode(RefundPayload(txn, amount)), RefundTimeout)
  }

  /** What `post_refund` returns. */
  datatype Answer = Answer(refunded: bool, message: Json.JVal)

  /**
   * `post_refund`'s reading of the reply: refunded exactly on status 200,
   * the body's `Message` (null when absent) in both cases. A WP_Error has
   * no body to index, which ends the request with an error (None).
   */
  function PostRefund(reply: Api.Reply): (r: Option<Answer>)
    ensures r.None? <==> reply.Failed?
    ensures r.Some? ==> (r.value.refunded <==> reply.code == 200)
    ensures r.Some? ==> r.value.message == Json.Member(reply.body, "Message")
  {
    match reply
    case Failed(_) => None
    case Http(code, _, body) => Some(Answer(code == 200, Json.Member(body, "Message")))
  }

  // ------------------------------------------------------------ the refund

  /** How `process_refund` ends: true, the exception WooCommerce reports, or
    * a PHP error before any note is written. */
  datatype Outcome = RefundDone | RefundRejected(message: string) | RefundCrashed

  const SuccessNoteText := "Refund successful "
  const FailureNoteText := "Refund not successful, reason : "
  const FailureExceptionText := "Refund not successful, reason: "

  /**
   * `process_refund` as a function of the order found and the reply. The
   * request is sent in every case; a WP_Error reply, or an id that loads no
   * order, then ends in a PHP error and changes nothing. Otherwise one note
   * records the outcome and the provider's message.
   */
  function RefundStep(order: Option<OrderState>, reply: Api.Reply): (r: (Outcome, Option<OrderState>))
    ensures r.0.RefundCrashed? <==> reply.Failed? || order.None?
    ensures r.0.RefundDone? <==> order.Some? && reply.Http? && reply.code == 200
    ensures r.0.RefundCrashed? ==> r.1 == order
    ensures r.0.RefundDone? ==>
              r.1 == Some(AddNote(order.value, SuccessNoteText + Json.Text(Json.Member(reply.body, "Message"))))
    ensures r.0.RefundRejected? ==>
              var msg := Json.Text(Json.Member(reply.body, "Message"));
              r.0.message == FailureExceptionText + msg && r.1 == Some(AddNote(order.value, FailureNoteText + msg))
  {
    match PostRefund(reply)
    case None => (RefundCrashed, order)
    case Some(answer) =>
      if order.None? then (RefundCrashed, order)
      else
        var msg := Json.Text(answer.message);
        if answer.refunded then (RefundDone, Some(AddNote(order.value, SuccessNoteText + msg)))
        else (RefundRejected(FailureExceptionText + msg), Some(AddNote(order.value, FailureNoteText + msg)))
  }

  /** The order an id loads, as a value. */
  function Loaded(store: map<nat, Order>, id: nat): Option<OrderState>
    reads store.Values
  {
    if id in store then Some(store[id].State()) else None
  }

  /**
   * `process_refund`: looks the transaction up, sends the request, and
   * records the outcome on that order alone.
   */
  method ProcessRefund(s: Settings, store: map<nat, Order>, orderId: nat, amount: Php.Number, reply: Api.Reply)
    returns (outcome: Outcome, sent: Api.Request)
    requires WellFormed(store)
    modifies store.Values
    ensures sent == RefundRequest(s, TransactionOf(old(Loaded(store, orderId))), amount)
    ensures outcome == RefundStep(old(Loaded(store, orderId)), reply).0
    ensures Loaded(store, orderId) == RefundStep(old(Loaded(store, orderId)), reply).1
    ensures forall o | o in store.Values && (orderId !in store || o != store[orderId]) :: o.State() == old(o.State())
  {
    var order: Order? := if orderId in store then store[orderId] else null;
    var txn := GetTransaction(order);
    sent := RefundRequest(s, txn, amount);
    var answer := PostRefund(reply);
    if answer.None? || order == null {
      return RefundCrashed, sent;
    }
    var msg := Json.Text(answer.value.message);
    if answer.value.refunded {
      order.AddOrderNote(SuccessNoteText + msg);
      outcome := RefundDone;
    } else {
      order.AddOrderNote(FailureNoteText + msg);
      outcome := RefundRejected(FailureExceptionText + msg);
    }
  }

  // ------------------------------------------------------- gateway filter

  /** The list without the entries under `id`. */
  function Without<G(==)>(gateways: seq<(string, G)>, id: string): (r: seq<(string, G)>)
    ensures forall i | 0 <= i < |r| :: r[i].0 != id && r[i] in gateways
    ensures forall i | 0 <= i < |gateways| && gateways[i].0 != id :: gateways[i] in r
    decreases |gateways|
  {
    if gateways == [] then []
    else if gateways[0].0 == id then Without(gateways[1..], id)
    else [gateways[0]] + Without(gateways[1..], id)
  }

  /**
   * `hide_payment_gateway`: on the admin screens, or when the shop's
   * currency is ISK, the available gateways are returned as they are;
   * otherwise the `netgiro` entry is removed.
   */
  function HidePaymentGateway<G(==)>(available: seq<(string, G)>, isAdmin: bool, currency: string)
    : (r: seq<(string, G)>)
    ensures isAdmin || currency == "ISK" ==> r == available
    ensures !isAdmin && currency != "ISK" ==>
              (forall i | 0 <= i < |r| :: r[i].0 != "netgiro" && r[i] in available)
              && (forall i | 0 <= i < |available| && available[i].0 != "netgiro" :: available[i] in r)
  {
    if isAdmin || currency == "ISK" then available else Without(available, "netgiro")
  }

  // ------------------------------------------------------------ properties

  lemma {:induction false} OldestMarkedSnoc(notes: seq<string>, note: string, fallback: string)
    ensures OldestMarked(notes + [note], fallback)
            == OldestMarked(notes, if Marked(note) then Strip(note) else fallback)
    decreases |notes|
  {
    if notes == [] {
      assert [] + [note] == [note];
      assert [note][1..] == [];
    } else {
      assert (notes + [note])[0] == notes[0];
      assert (notes + [note])[1..] == notes[1..] + [note];
      OldestMarkedSnoc(notes[1..], note, fallback);
    }
  }

  /** Walking the notes newest first and letting every marked note overwrite
    * the value leaves the oldest marked note's value. */
  lemma {:induction false} ScanIsOldestMarked(notes: seq<string>, fallback: string)
    ensures Scan(notes, fallback) == OldestMarked(notes, fallback)
    decreases |notes|
  {
    if notes != [] {
      var n := |notes| - 1;
      var newest := notes[n];
      assert notes == notes[..n] + [newest];
      ScanIsOldestMarked(notes[..n], if Marked(newest) then Strip(newest) else fallback);
      OldestMarkedSnoc(notes[..n], newest, fallback);
    }
  }

  /** The marked note with no marked note before it decides the reading. */
  lemma {:induction false} OldestMarkedFound(notes: seq<string>, j: nat, fallback: string)
    requires j < |notes| && Marked(notes[j])
    requires forall i | 0 <= i < j :: !Marked(notes[i])
    ensures OldestMarked(notes, fallback) == Strip(notes[j])
    decreases j
  {
    if j > 0 {
      assert !Marked(notes[0]);
      OldestMarkedFound(notes[1..], j - 1, fallback);
    }
  }

  /** With no stored transaction id, the lookup answers with the oldest
    * marked note, stripped of its prefix, or the empty stored value. */
  lemma TransactionFromOldestNote(st: OrderState)
    requires st.id != 0 && st.paymentMethod == "netgiro" && Php.EmptyString(st.transactionId)
    ensures TransactionOf(Some(st)) == Some(OldestMarked(st.notes, st.transactionId))
  {
    ScanIsOldestMarked(st.notes, st.transactionId);
  }

  /** A marked note holds the letter í, which the marker contains. */
  lemma MarkerLetter(note: string)
    ensures Marked(note) ==> 'í' in note
  {
    if Marked(note) {
      var i :| 0 <= i <= |note| - |LegacyReturn.SuccessMarker| && Php.OccursAt(note, LegacyReturn.SuccessMarker, i);
      assert LegacyReturn.SuccessMarker[4] == 'í';
      assert note[i + 4] == note[i..i + |LegacyReturn.SuccessMarker|][4];
    }
  }

  /** WooCommerce's status-change notes are never taken for payment notes. */
  lemma StatusChangeUnmarked(from: Status, to: Status)
    ensures !Marked(StatusChangeNote("", from, to))
  {
    assert 'í' !in StatusName(from) && 'í' !in StatusName(to) by {
      match from
      case _ =>
      match to
      case _ =>
    }
    MarkerLetter(StatusChangeNote("", from, to));
  }

  /** The note an accepted return writes is read back as the invoice number,
    * unless the invoice number itself holds the prefix. */
  lemma SuccessNoteReadBack(invoice: string)
    requires !Php.Contains(invoice, LegacyReturn.SuccessNotePrefix)
    ensures Marked(LegacyReturn.SuccessNote(invoice))
    ensures Strip(LegacyReturn.SuccessNote(invoice)) == invoice
  {
    var note := LegacyReturn.SuccessNote(invoice);
    var prefix := LegacyReturn.SuccessNotePrefix;
    assert note[..|prefix|] == prefix;
    assert note[|prefix|..] == invoice;
    assert note[0..|LegacyReturn.SuccessMarker|] == LegacyReturn.SuccessMarker;
    assert Php.OccursAt(note, LegacyReturn.SuccessMarker, 0);
    Php.RemoveAllAbsent(invoice, prefix);
  }

  /**
   * After a return accepted by a release before 5.0, on a netgiro order with
   * no transaction id and no earlier payment note, the refund lookup finds
   * what that release left: the transaction id 4.1.1 stores, and for the
   * other releases the invoice number of the payment note.
   */
  lemma RefundFindsPaymentOfReturn(r: LegacyForm.Release, k: LegacyReturn.Keys, q: Gateway.Query, st: OrderState)
    requires LegacyReturn.Acts(r, q) && LegacyReturn.Accepted(r, k, q)
    requires st.id != 0 && st.paymentMethod == "netgiro" && Php.EmptyString(st.transactionId)
    requires forall i | 0 <= i < |st.notes| :: !Marked(st.notes[i])
    requires !Php.Contains(Gateway.Param(q, "ng_invoiceNumber"), LegacyReturn.SuccessNotePrefix)
    ensures TransactionOf(Some(LegacyReturn.CallEffect(r, k, q, st)))
            == Some(if r.V411? then Gateway.Param(q, "ng_transactionid") else Gateway.Param(q, "ng_invoiceNumber"))
  {
    var invoice := Gateway.Param(q, "ng_invoiceNumber");
    var paid := PaymentComplete(st, "");
    var noted := AddNote(paid, LegacyReturn.SuccessNote(invoice));
    var after := LegacyReturn.CallEffect(r, k, q, st);
    if !r.V411? {
      assert paid.transactionId == st.transactionId by {
        if NeedsPayment(st.status) {
          assert paid == UpdateStatus(st, PaidStatus(st), "");
        }
      }
      assert forall i | 0 <= i < |paid.notes| :: !Marked(paid.notes[i]) by {
        if NeedsPayment(st.status) {
          StatusChangeUnmarked(st.status, PaidStatus(st));
          assert paid.notes == st.notes + [StatusChangeNote("", st.status, PaidStatus(st))];
        }
      }
      SuccessNoteReadBack(invoice);
      var j := |paid.notes|;
      assert after.notes[j] == LegacyReturn.SuccessNote(invoice);
      assert after.notes[..j] == paid.notes;
      OldestMarkedFound(after.notes, j, after.transactionId);
      TransactionFromOldestNote(after);
    }
  }

  /** Whatever the reply, a refund changes neither status, transaction id
    * nor flag, and adds at most one note. */
  lemma RefundOnlyNotes(order: Option<OrderState>, reply: Api.Reply)
    ensures var after := RefundStep(order, reply).1;
            after.Some? <==> order.Some?
    ensures var after := RefundStep(order, reply).1;
            after.Some? ==>
              after.value.status == order.value.status && after.value.transactionId == order.value.transactionId
              && after.value.flag == order.value.flag
              && |order.value.notes| <= |after.value.notes| <= |order.value.notes| + 1
              && after.value.notes[..|order.value.notes|] == order.value.notes
  {
  }

  /** The 4.1.1 refund and the 5.x client agree on which replies are refunds:
    * an HTTP reply with status 200 exactly. */
  lemma RefundedAsInApiClient(reply: Api.Reply)
    requires reply.Http?
    ensures PostRefund(reply).value.refunded == Api.HandleRefundResponse(reply).success
  {
  }

  lemma {:induction false} WithoutAbsent<G>(gateways: seq<(string, G)>, id: string)
    requires forall i | 0 <= i < |gateways| :: gateways[i].0 != id
    ensures Without(gateways, id) == gateways
    decreases |gateways|
  {
    if gateways != [] {
      WithoutAbsent(gateways[1..], id);
    }
  }

  /** Hiding the gateway twice hides it once: the filter is idempotent, and it
    * leaves a list without a `netgiro` entry untouched. */
  lemma HidingIdempotent<G>(available: seq<(string, G)>, isAdmin: bool, currency: string)
    ensures var once := HidePaymentGateway(available, isAdmin, currency);
            HidePaymentGateway(once, isAdmin, currency) == once
  {
    if !isAdmin && currency != "ISK" {
      WithoutAbsent(Without(available, "netgiro"), "netgiro");
    }
  }
}
