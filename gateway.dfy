/**
 * The version 5 payment gateway: the signed browser return, confirmation
 * of authorized payments when the merchant moves an order out of on-hold,
 * and refunds, all guarded by the `_netgiro_payment_status` flag.
 *
 * Each handler is a pure step on `OrderState` (ReturnEffect,
 * ConfirmOnStatusChange, RefundStep); the `Gateway` class applies the step
 * to the order it looks up. `Run` replays a sequence of such events on one
 * order, which lets lemmas state what can and cannot happen to the flag.
 */
module Gateway {
  import opened Wrappers
  import Php
  import Json
  import Api
  import Signature
  import opened Store

  const GatewayId := "netgiro"

  /** The gateway settings the handlers read, and the formatting WooCommerce
    * does for them. */
  datatype Config = Config(
    secretKey: string,
    /** `get_option('confirmation_type')`; the settings default is "1". */
    confirmationType: string,
    client: Api.Client,
    hash: Signature.Hasher,
    /** `wc_price(floatval($text))` for the returned total. */
    priceOfText: string -> string,
    /** `wc_price($amount)` for a refunded amount. */
    priceOf: Php.Number -> string)

  /** The query string of a request. */
  type Query = map<string, string>

  /** `isset($_GET[$key]) ? $_GET[$key] : ''`. */
  function Param(q: Query, key: string): string
  {
    if key in q then q[key] else ""
  }

  datatype ReturnParams = ReturnParams(
    ref: string, txn: string, invoice: string, total: string, status: string, signature: string)

  function ReadReturnParams(q: Query): ReturnParams
  {
    ReturnParams(Param(q, "ng_referenceNumber"), Param(q, "ng_transactionid"), Param(q, "ng_invoiceNumber"),
                 Param(q, "ng_totalAmount"), Param(q, "ng_status"), Param(q, "ng_netgiroSignature"))
  }

  /** Reference, transaction id, invoice number and signature are required;
    * total and status are not. */
  predicate MissingRequired(p: ReturnParams)
    ensures !MissingRequired(p) <==>
              p.ref !in {"", "0"} && p.txn !in {"", "0"} && p.invoice !in {"", "0"} && p.signature !in {"", "0"}
  {
    Php.EmptyString(p.ref) || Php.EmptyString(p.txn) || Php.EmptyString(p.invoice) || Php.EmptyString(p.signature)
  }

  /** The return is signed with sha256(secret . reference . transaction .
    * invoice . total . status). */
  predicate SignatureValid(cfg: Config, p: ReturnParams)
    ensures SignatureValid(cfg, p) <==>
              p.signature == cfg.hash(cfg.secretKey + p.ref + p.txn + p.invoice + p.total + p.status)
  {
    Signature.ReturnSignature(cfg.hash, cfg.secretKey, p.ref, p.txn, p.invoice, p.total, p.status) == p.signature
  }

  datatype ReturnOutcome = ToCheckout | ToOrderReceived(orderId: nat)

  const SignatureMismatchNote := "Netgíró signature mismatch."

  const AuthorizedNotePrefix :=
    "Netgíró payment authorized. Please confirm this order by setting its status to Processing or Complete. Transaction ID: "

  function AuthorizedNote(txn: string, amount: string): string
  {
    AuthorizedNotePrefix + txn + ", " + amount
  }

  function ConfirmedNote(txn: string, amount: string): string
  {
    "Netgíró payment authorized and has been confirmed. Transaction ID: " + txn + ", Amount: " + amount
  }

  /** An order's new state and the request sent to the provider on the way. */
  datatype Effect = Effect(state: OrderState, sent: Option<Api.Request>)

  /**
   * What `process_netgiro_return` does to the order it found. A bad
   * signature fails the order and writes neither the transaction id nor
   * the flag. A good one stores the transaction id, then either holds the
   * order as AUTHORIZED (confirmation type "2") or completes the payment as
   * CONFIRMED (any other type). Completing the payment of an on-hold order
   * moves it out of on-hold, so the gateway's own status-change hook runs
   * first, with the flag as it was: an order still AUTHORIZED is confirmed
   * with the provider before the confirmation note and flag are written.
   */
  function ReturnEffect(cfg: Config, p: ReturnParams, st: OrderState, nonce: string, reply: Api.Reply): (r: Effect)
    ensures r.state.id == st.id && r.state.paymentMethod == st.paymentMethod
    ensures r.state.needsProcessing == st.needsProcessing
    ensures !SignatureValid(cfg, p) ==>
              r == Effect(UpdateStatus(st, Failed, SignatureMismatchNote), None)
              && r.state.status == Failed && r.state.flag == st.flag && r.state.transactionId == st.transactionId
    ensures SignatureValid(cfg, p) ==> r.state.transactionId == p.txn
    ensures SignatureValid(cfg, p) && cfg.confirmationType == "2" ==>
              r.state.status == OnHold && r.state.flag == Some(NetgiroAuthorized) && r.sent.None?
              && (st.status == OnHold ==> r.state.notes == st.notes)
              && (st.status != OnHold ==>
                    r.state.notes == st.notes + [StatusChangeNote(AuthorizedNote(p.txn, cfg.priceOfText(p.total)), st.status, OnHold)])
    ensures SignatureValid(cfg, p) && cfg.confirmationType != "2" ==>
              var paid := PaymentComplete(st.(transactionId := p.txn), p.txn);
              var hook := ConfirmOnStatusChange(cfg, paid, nonce, reply);
              r.state.flag == Some(NetgiroConfirmed)
              && (NeedsPayment(st.status) ==> r.state.status == (if st.needsProcessing then Processing else Completed))
              && (!NeedsPayment(st.status) ==> r.state.status == st.status)
              && (st.status == OnHold ==>
                    r.sent == hook.sent && r.state.notes == hook.state.notes + [ConfirmedNote(p.txn, cfg.priceOfText(p.total))])
              && (st.status != OnHold ==>
                    r.sent.None? && r.state.notes == paid.notes + [ConfirmedNote(p.txn, cfg.priceOfText(p.total))])
  {
    if !SignatureValid(cfg, p) then Effect(UpdateStatus(st, Failed, SignatureMismatchNote), None)
    else
      var stored := st.(transactionId := p.txn);
      if cfg.confirmationType == "2" then
        Effect(UpdateStatus(stored, OnHold, AuthorizedNote(p.txn, cfg.priceOfText(p.total))).(flag := Some(NetgiroAuthorized)), None)
      else
        var paid := PaymentComplete(stored, p.txn);
        var hook := if HookFires(stored.status, paid.status) then ConfirmOnStatusChange(cfg, paid, nonce, reply)
                    else Confirmation(paid, false, None);
        Effect(AddNote(hook.state, ConfirmedNote(p.txn, cfg.priceOfText(p.total))).(flag := Some(NetgiroConfirmed)), hook.sent)
  }

  /** The only request a return sends is the hook's ConfirmCart for the
    * returned transaction, and it is sent exactly for a signed return of a
    * type other than "2" that finds the order on hold, paid with Netgíró and
    * still AUTHORIZED. */
  lemma ReturnSendsOnlyHookConfirmation(cfg: Config, p: ReturnParams, st: OrderState, nonce: string, reply: Api.Reply)
    ensures var r := ReturnEffect(cfg, p, st, nonce, reply);
            SignatureValid(cfg, p) && cfg.confirmationType != "2" && st.status == OnHold
            && st.paymentMethod == GatewayId && st.flag == Some(NetgiroAuthorized) && !Php.EmptyString(p.txn) ==>
              r.sent == Api.ConfirmCart(cfg.client, p.txn, nonce, reply).sent
    ensures var r := ReturnEffect(cfg, p, st, nonce, reply);
            r.sent.Some? ==>
              SignatureValid(cfg, p) && cfg.confirmationType != "2" && st.status == OnHold
              && st.paymentMethod == GatewayId && st.flag == Some(NetgiroAuthorized) && !Php.EmptyString(p.txn)
              && r.sent == Api.ConfirmCart(cfg.client, p.txn, nonce, reply).sent
  {
    if SignatureValid(cfg, p) && cfg.confirmationType != "2" {
      var paid := PaymentComplete(st.(transactionId := p.txn), p.txn);
      assert paid.transactionId == p.txn;
      if st.status == OnHold {
        assert HookFires(st.status, paid.status);
      }
    }
  }

  const NoTransactionNote := "Could not attempt Netgíró confirmation: No transaction ID found."
  const ConfirmedOkNote := "Netgíró payment confirmed successfully."

  function ConfirmFailedNote(reason: string): string
  {
    "Netgíró manual confirmation failed. Reason: " + reason
  }

  datatype Confirmation = Confirmation(state: OrderState, confirmed: bool, sent: Option<Api.Request>)

  /**
   * `perform_netgiro_confirmation`: without a transaction id, a note and no
   * call. Otherwise ConfirmCart is called; success adds a note and sets
   * CONFIRMED, failure adds a note with the reason and keeps the flag.
   */
  function PerformConfirmation(cfg: Config, st: OrderState, nonce: string, reply: Api.Reply): (r: Confirmation)
    ensures Php.EmptyString(st.transactionId) ==> r == Confirmation(AddNote(st, NoTransactionNote), false, None)
    ensures !Php.EmptyString(st.transactionId) ==>
              var call := Api.ConfirmCart(cfg.client, st.transactionId, nonce, reply);
              r.sent == call.sent
              && (r.confirmed <==> call.envelope.success)
              && (r.confirmed ==> r.state == AddNote(st, ConfirmedOkNote).(flag := Some(NetgiroConfirmed)))
              && (!r.confirmed ==> r.state == AddNote(st, ConfirmFailedNote(call.envelope.message)))
  {
    if Php.EmptyString(st.transactionId) then Confirmation(AddNote(st, NoTransactionNote), false, None)
    else
      var call := Api.ConfirmCart(cfg.client, st.transactionId, nonce, reply);
      if call.envelope.success then
        Confirmation(AddNote(st, ConfirmedOkNote).(flag := Some(NetgiroConfirmed)), true, call.sent)
      else
        Confirmation(AddNote(st, ConfirmFailedNote(call.envelope.message)), false, call.sent)
  }

  /**
   * `maybe_confirm_payment_on_status_change` for an existing order: only a
   * Netgíró order whose flag is exactly AUTHORIZED is confirmed; any other
   * order is left untouched and nothing is sent.
   */
  function ConfirmOnStatusChange(cfg: Config, st: OrderState, nonce: string, reply: Api.Reply): (r: Confirmation)
    ensures st.paymentMethod != GatewayId || st.flag != Some(NetgiroAuthorized) ==> r == Confirmation(st, false, None)
    ensures st.paymentMethod == GatewayId && st.flag == Some(NetgiroAuthorized) ==> r == PerformConfirmation(cfg, st, nonce, reply)
    ensures r.sent.Some? ==> st.paymentMethod == GatewayId && st.flag == Some(NetgiroAuthorized)
                             && !Php.EmptyString(st.transactionId)
    ensures r.state.status == st.status && r.state.transactionId == st.transactionId
  {
    if st.paymentMethod != GatewayId || st.flag != Some(NetgiroAuthorized) then Confirmation(st, false, None)
    else PerformConfirmation(cfg, st, nonce, reply)
  }

  const OrderNotFound := Api.WpError("netgiro_refund_failed", "Order not found.")
  const MissingTransaction := Api.WpError("netgiro_refund_failed", "Cannot refund: Missing Netgíró transaction ID.")

  function InvalidState(flag: Option<Flag>): Api.WpError
  {
    Api.WpError("netgiro_refund_invalid_state",
                "Cannot refund: Payment is not in an authorized or confirmed state (Current state: "
                + FlagText(flag, "N/A") + ").")
  }

  /** The checks `process_refund` makes on an existing order before calling
    * the API, in order: a transaction id, then an AUTHORIZED or CONFIRMED flag. */
  function RefundGuard(st: OrderState): (r: Option<Api.WpError>)
    ensures Php.EmptyString(st.transactionId) ==> r == Some(MissingTransaction)
    ensures !Php.EmptyString(st.transactionId) && st.flag != Some(NetgiroAuthorized) && st.flag != Some(NetgiroConfirmed)
            ==> r == Some(InvalidState(st.flag))
    ensures r.None? <==> !Php.EmptyString(st.transactionId)
                         && (st.flag == Some(NetgiroAuthorized) || st.flag == Some(NetgiroConfirmed))
  {
    if Php.EmptyString(st.transactionId) then Some(MissingTransaction)
    else if st.flag != Some(NetgiroAuthorized) && st.flag != Some(NetgiroConfirmed) then Some(InvalidState(st.flag))
    else None
  }

  datatype RefundResult = RefundDone | RefundError(error: Api.WpError)

  datatype RefundOutcome = RefundOutcome(state: OrderState, result: RefundResult, sent: Option<Api.Request>)

  function RefundOkNote(amount: string): string
  {
    "Netgíró refund successful. Amount: " + amount
  }

  function RefundFailedNote(reason: string): string
  {
    "Netgíró refund failed. Reason: " + reason
  }

  /**
   * `process_refund` on an existing order. A failed guard returns its error
   * and sends nothing. A successful refund call adds a note and sets
   * REFUNDED; a failed one adds a note, keeps the flag and reports
   * `netgiro_refund_api_failed` with the API's message.
   */
  function RefundStep(cfg: Config, st: OrderState, amount: Php.Number, reason: string,
                      uniqueDigest: string, reply: Api.Reply): (r: RefundOutcome)
    ensures RefundGuard(st).Some? ==> r == RefundOutcome(st, RefundError(RefundGuard(st).value), None)
    ensures RefundGuard(st).None? ==>
              var call := Api.RefundPayment(cfg.client, st.transactionId, amount, reason, uniqueDigest, reply);
              r.sent == call.sent
              && (r.result == RefundDone <==> call.envelope.success)
              && (r.result == RefundDone ==>
                    r.state == AddNote(st, RefundOkNote(cfg.priceOf(amount))).(flag := Some(NetgiroRefunded)))
              && (r.result != RefundDone ==>
                    r.state == AddNote(st, RefundFailedNote(call.envelope.message))
                    && r.result == RefundError(Api.WpError("netgiro_refund_api_failed", call.envelope.message)))
    ensures r.state.status == st.status && r.state.transactionId == st.transactionId
  {
    match RefundGuard(st)
    case Some(e) => RefundOutcome(st, RefundError(e), None)
    case None =>
      var call := Api.RefundPayment(cfg.client, st.transactionId, amount, reason, uniqueDigest, reply);
      if call.envelope.success then
        RefundOutcome(AddNote(st, RefundOkNote(cfg.priceOf(amount))).(flag := Some(NetgiroRefunded)), RefundDone, call.sent)
      else
        RefundOutcome(AddNote(st, RefundFailedNote(call.envelope.message)),
                      RefundError(Api.WpError("netgiro_refund_api_failed", call.envelope.message)), call.sent)
  }

  class Gateway {
    const cfg: Config

    constructor (cfg: Config)
      ensures this.cfg == cfg
    {
      this.cfg := cfg;
    }

    /**
     * `process_netgiro_return`: missing parameters or an unknown order send
     * the customer back to checkout with every order untouched; otherwise
     * the order named by `absint(ng_referenceNumber)` takes ReturnEffect,
     * whose confirmation request, if any, is the one sent, and the customer
     * goes to the order-received page only on a valid signature.
     */
    method ProcessNetgiroReturn(store: map<nat, Order>, query: Query, nonce: string, reply: Api.Reply)
      returns (outcome: ReturnOutcome, sent: Option<Api.Request>)
      requires WellFormed(store)
      modifies store.Values
      ensures var p := ReadReturnParams(query);
              MissingRequired(p) || Php.AbsInt(p.ref) !in store ==>
                outcome == ToCheckout && sent.None? && forall o | o in store.Values :: o.State() == old(o.State())
      ensures var p := ReadReturnParams(query);
              var id := Php.AbsInt(p.ref);
              !MissingRequired(p) && id in store ==>
                var e := ReturnEffect(cfg, p, old(store[id].State()), nonce, reply);
                store[id].State() == e.state && sent == e.sent
                && outcome == (if SignatureValid(cfg, p) then ToOrderReceived(id) else ToCheckout)
                && forall o | o in store.Values && o != store[id] :: o.State() == old(o.State())
    {
      var p := ReadReturnParams(query);
      if MissingRequired(p) {
        return ToCheckout, None;
      }
      var id := Php.AbsInt(p.ref);
      match Lookup(store, id)
      case None =>
        return ToCheckout, None;
      case Some(order) =>
        sent := ApplyReturn(order, p, nonce, reply);
        outcome := if SignatureValid(cfg, p) then ToOrderReceived(id) else ToCheckout;
    }

    /** The part of `process_netgiro_return` that acts on the order found;
      * `payment_complete` fires the status-change hook on its way out of
      * on-hold. */
    method ApplyReturn(order: Order, p: ReturnParams, nonce: string, reply: Api.Reply) returns (sent: Option<Api.Request>)
      modifies order
      ensures var e := ReturnEffect(cfg, p, old(order.State()), nonce, reply);
              order.State() == e.state && sent == e.sent
    {
      if !SignatureValid(cfg, p) {
        order.SetStatus(Failed, SignatureMismatchNote);
        return None;
      }
      order.SetTransactionId(p.txn);
      if cfg.confirmationType == "2" {
        order.SetStatus(OnHold, AuthorizedNote(p.txn, cfg.priceOfText(p.total)));
        order.SetFlag(NetgiroAuthorized);
        sent := None;
      } else {
        var prior := order.status;
        order.CompletePayment(p.txn);
        if HookFires(prior, order.status) {
          sent := OnStatusChange(order, nonce, reply);
        } else {
          sent := None;
        }
        order.AddOrderNote(ConfirmedNote(p.txn, cfg.priceOfText(p.total)));
        order.SetFlag(NetgiroConfirmed);
      }
    }

    /** `maybe_confirm_payment_on_status_change(order_id)`. */
    method MaybeConfirmPaymentOnStatusChange(store: map<nat, Order>, orderId: nat, nonce: string, reply: Api.Reply)
      returns (sent: Option<Api.Request>)
      requires WellFormed(store)
      modifies store.Values
      ensures orderId !in store ==> sent.None? && forall o | o in store.Values :: o.State() == old(o.State())
      ensures orderId in store ==>
                var c := ConfirmOnStatusChange(cfg, old(store[orderId].State()), nonce, reply);
                store[orderId].State() == c.state && sent == c.sent
                && forall o | o in store.Values && o != store[orderId] :: o.State() == old(o.State())
    {
      match Lookup(store, orderId)
      case None =>
        return None;
      case Some(order) =>
        sent := OnStatusChange(order, nonce, reply);
    }

    /** The hook's work on an order that exists: only a Netgíró order flagged
      * AUTHORIZED is confirmed. */
    method OnStatusChange(order: Order, nonce: string, reply: Api.Reply) returns (sent: Option<Api.Request>)
      modifies order
      ensures var c := ConfirmOnStatusChange(cfg, old(order.State()), nonce, reply);
              order.State() == c.state && sent == c.sent
    {
      if order.paymentMethod != GatewayId || order.flag != Some(NetgiroAuthorized) {
        return None;
      }
      var confirmed;
      confirmed, sent := PerformNetgiroConfirmation(order, nonce, reply);
    }

    /** `perform_netgiro_confirmation(order)`. */
    method PerformNetgiroConfirmation(order: Order, nonce: string, reply: Api.Reply)
      returns (confirmed: bool, sent: Option<Api.Request>)
      modifies order
      ensures var c := PerformConfirmation(cfg, old(order.State()), nonce, reply);
              order.State() == c.state && confirmed == c.confirmed && sent == c.sent
    {
      if Php.EmptyString(order.transactionId) {
        order.AddOrderNote(NoTransactionNote);
        return false, None;
      }
      var call := Api.ConfirmCart(cfg.client, order.transactionId, nonce, reply);
      sent := call.sent;
      if call.envelope.success {
        order.AddOrderNote(ConfirmedOkNote);
        order.SetFlag(NetgiroConfirmed);
        confirmed := true;
      } else {
        order.AddOrderNote(ConfirmFailedNote(call.envelope.message));
        confirmed := false;
      }
    }

    /** `process_refund(order_id, amount, reason)`. */
    method ProcessRefund(store: map<nat, Order>, orderId: nat, amount: Php.Number, reason: string,
                         uniqueDigest: string, reply: Api.Reply)
      returns (result: RefundResult, sent: Option<Api.Request>)
      requires WellFormed(store)
      modifies store.Values
      ensures orderId !in store ==>
                result == RefundError(OrderNotFound) && sent.None?
                && forall o | o in store.Values :: o.State() == old(o.State())
      ensures orderId in store ==>
                var r := RefundStep(cfg, old(store[orderId].State()), amount, reason, uniqueDigest, reply);
                store[orderId].State() == r.state && result == r.result && sent == r.sent
                && forall o | o in store.Values && o != store[orderId] :: o.State() == old(o.State())
    {
      match Lookup(store, orderId)
      case None =>
        return RefundError(OrderNotFound), None;
      case Some(order) =>
        var guard := RefundGuard(order.State());
        if guard.Some? {
          return RefundError(guard.value), None;
        }
        var call := Api.RefundPayment(cfg.client, order.transactionId, amount, reason, uniqueDigest, reply);
        sent := call.sent;
        if call.envelope.success {
          order.AddOrderNote(RefundOkNote(cfg.priceOf(amount)));
          order.SetFlag(NetgiroRefunded);
          result := RefundDone;
        } else {
          order.AddOrderNote(RefundFailedNote(call.envelope.message));
          result := RefundError(Api.WpError("netgiro_refund_api_failed", call.envelope.message));
        }
    }
  }

  // ------------------------------------------------------------ event traces

  /** Something that happens to one order: a browser return, the merchant
    * setting a status, or a refund request, each with the provider's reply. */
  datatype Event =
    | Return(query: Query, nonce: string, reply: Api.Reply)
    | StatusChange(to: Status, nonce: string, reply: Api.Reply)
    | RefundRequest(amount: Php.Number, reason: string, uniqueDigest: string, reply: Api.Reply)

  /** The gateway listens to the on-hold to processing and on-hold to
    * completed transitions only. */
  predicate HookFires(from: Status, to: Status)
  {
    from == OnHold && (to == Processing || to == Completed)
  }

  /** One event applied to the order: its new state and the request sent. */
  function Apply(cfg: Config, st: OrderState, e: Event): (OrderState, Option<Api.Request>)
  {
    match e
    case Return(q, nonce, reply) =>
      var p := ReadReturnParams(q);
      if MissingRequired(p) || Php.AbsInt(p.ref) != st.id then (st, None)
      else
        var e := ReturnEffect(cfg, p, st, nonce, reply);
        (e.state, e.sent)
    case StatusChange(to, nonce, reply) =>
      var changed := UpdateStatus(st, to, "");
      if HookFires(st.status, to) then
        var c := ConfirmOnStatusChange(cfg, changed, nonce, reply);
        (c.state, c.sent)
      else (changed, None)
    case RefundRequest(amount, reason, digest, reply) =>
      var r := RefundStep(cfg, st, amount, reason, digest, reply);
      (r.state, r.sent)
  }

  function Run(cfg: Config, st: OrderState, events: seq<Event>): OrderState
    decreases |events|
  {
    if events == [] then st else Run(cfg, Apply(cfg, st, events[0]).0, events[1..])
  }

  /** The requests sent to the provider while the events are applied. */
  function Sent(cfg: Config, st: OrderState, events: seq<Event>): seq<Api.Request>
    decreases |events|
  {
    if events == [] then []
    else
      var (next, sent) := Apply(cfg, st, events[0]);
      (if sent.Some? then [sent.value] else []) + Sent(cfg, next, events[1..])
  }

  predicate NoReturns(events: seq<Event>)
  {
    forall i :: 0 <= i < |events| ==> !events[i].Return?
  }

  /**
   * Once refunded, an order stays refunded and no further confirmation or
   * refund request reaches the provider, as long as no browser return
   * arrives for it.
   */
  lemma {:induction false} RefundedIsFinalWithoutReturns(cfg: Config, st: OrderState, events: seq<Event>)
    requires st.flag == Some(NetgiroRefunded)
    requires NoReturns(events)
    ensures Run(cfg, st, events).flag == Some(NetgiroRefunded)
    ensures Sent(cfg, st, events) == []
    decreases |events|
  {
    if events != [] {
      var next := Apply(cfg, st, events[0]).0;
      assert next.flag == Some(NetgiroRefunded);
      assert Apply(cfg, st, events[0]).1.None?;
      assert NoReturns(events[1..]) by {
        forall i | 0 <= i < |events[1..]| ensures !events[1..][i].Return? {
          assert events[1..][i] == events[i + 1];
        }
      }
      RefundedIsFinalWithoutReturns(cfg, next, events[1..]);
    }
  }

  /** A refund request the provider answered with HTTP 200. */
  predicate RefundAnswered(e: Event)
  {
    e.RefundRequest? && e.reply.Http? && e.reply.code == 200
  }

  /** A return with a valid signature, or a status change whose confirmation
    * the provider answered with a 2xx status. */
  predicate MayConfirm(cfg: Config, e: Event)
  {
    (e.Return? && SignatureValid(cfg, ReadReturnParams(e.query)))
    || (e.StatusChange? && e.reply.Http? && Api.Is2xx(e.reply.code))
  }

  /** The flag only becomes REFUNDED through a refund request the provider
    * answered with HTTP 200. */
  lemma {:induction false} RefundedOnlyAfterRefundReply(cfg: Config, st: OrderState, events: seq<Event>)
    requires st.flag != Some(NetgiroRefunded)
    requires Run(cfg, st, events).flag == Some(NetgiroRefunded)
    ensures exists i :: 0 <= i < |events| && RefundAnswered(events[i])
    decreases |events|
  {
    var e := events[0];
    var next := Apply(cfg, st, e).0;
    if next.flag == Some(NetgiroRefunded) {
      RefundingEvent(cfg, st, e);
      assert RefundAnswered(events[0]);
    } else {
      RefundedOnlyAfterRefundReply(cfg, next, events[1..]);
      var i :| 0 <= i < |events[1..]| && RefundAnswered(events[1..][i]);
      assert events[i + 1] == events[1..][i];
    }
  }

  /** One event that sets REFUNDED is a refund request answered with HTTP 200. */
  lemma RefundingEvent(cfg: Config, st: OrderState, e: Event)
    requires st.flag != Some(NetgiroRefunded)
    requires Apply(cfg, st, e).0.flag == Some(NetgiroRefunded)
    ensures RefundAnswered(e)
  {
    match e
    case Return(q, nonce, reply) =>
      assert false;
    case StatusChange(to, nonce, reply) =>
      assert false;
    case RefundRequest(amount, reason, digest, reply) =>
      var r := RefundStep(cfg, st, amount, reason, digest, reply);
      assert r.result == RefundDone;
  }

  /** The flag only becomes CONFIRMED through a return with a valid signature
    * or a confirmation the provider answered with a 2xx status. */
  lemma {:induction false} ConfirmedOnlyAfterSignedReturnOrConfirmReply(cfg: Config, st: OrderState, events: seq<Event>)
    requires st.flag != Some(NetgiroConfirmed)
    requires Run(cfg, st, events).flag == Some(NetgiroConfirmed)
    ensures exists i :: 0 <= i < |events| && MayConfirm(cfg, events[i])
    decreases |events|
  {
    var e := events[0];
    var next := Apply(cfg, st, e).0;
    if next.flag == Some(NetgiroConfirmed) {
      ConfirmingEvent(cfg, st, e);
    } else {
      ConfirmedOnlyAfterSignedReturnOrConfirmReply(cfg, next, events[1..]);
      var i :| 0 <= i < |events[1..]| && MayConfirm(cfg, events[1..][i]);
      assert events[i + 1] == events[1..][i];
    }
  }

  /** One event that sets CONFIRMED is a signed return or a confirmation
    * answered with a 2xx status. */
  lemma ConfirmingEvent(cfg: Config, st: OrderState, e: Event)
    requires st.flag != Some(NetgiroConfirmed)
    requires Apply(cfg, st, e).0.flag == Some(NetgiroConfirmed)
    ensures MayConfirm(cfg, e)
  {
    match e
    case Return(q, nonce, reply) =>
      var p := ReadReturnParams(q);
      assert !MissingRequired(p) && Php.AbsInt(p.ref) == st.id;
      var r := ReturnEffect(cfg, p, st, nonce, reply);
      assert r.state.flag == Some(NetgiroConfirmed);
    case StatusChange(to, nonce, reply) =>
      var changed := UpdateStatus(st, to, "");
      assert HookFires(st.status, to);
      var c := ConfirmOnStatusChange(cfg, changed, nonce, reply);
      assert c.state.flag == Some(NetgiroConfirmed);
    case RefundRequest(amount, reason, digest, reply) =>
  }

  /**
   * A browser return is not guarded by the flag: a replayed, correctly
   * signed return for a refunded order sets the flag back to CONFIRMED (or
   * AUTHORIZED), after which the refund guard lets a new refund through.
   */
  lemma ReplayedReturnReopensRefund(cfg: Config, st: OrderState, q: Query, nonce: string, reply: Api.Reply)
    requires st.flag == Some(NetgiroRefunded)
    requires !MissingRequired(ReadReturnParams(q)) && Php.AbsInt(ReadReturnParams(q).ref) == st.id
    requires SignatureValid(cfg, ReadReturnParams(q))
    ensures Run(cfg, st, [Return(q, nonce, reply)]).flag != Some(NetgiroRefunded)
    ensures RefundGuard(Run(cfg, st, [Return(q, nonce, reply)])).None?
  {
    assert [Return(q, nonce, reply)][1..] == [];
  }
}
