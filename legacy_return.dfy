/**
 * The return handlers of the releases before 5.0: `handle_netgiro_call` of
 * the 4.x gateway files, `netgiro_response` of the 3.6.1 plugin and
 * `init_process_payment` of 3.3.3 and 2.6.9. Each reads the `ng_*` query
 * parameters, checks a signature and either completes the payment or fails
 * the order, writing order notes as it goes.
 */
module LegacyReturn {
  import opened Wrappers
  import Php
  import Signature
  import opened Store
  import Gateway
  import LegacyForm

  /** A query parameter is truthy when present and neither "" nor "0". */
  predicate Truthy(q: Gateway.Query, key: string)
  {
    !Php.EmptyString(Gateway.Param(q, key))
  }

  /** The order `new WC_Order($id)` and `wc_get_order($id)` load for the raw
    * `ng_orderid`: WooCommerce takes an id only when it is numeric and
    * positive, and then as `absint` reads it; any other text loads no order. */
  function LoadedOrderId(orderId: string): Option<nat>
  {
    if Php.IsNumericString(orderId) && Php.IntVal(orderId) > 0 then Some(Php.AbsInt(orderId)) else None
  }

  /** The order id a form sent comes back as the same order. */
  lemma LoadedOrderIdOfReference(n: nat)
    requires 0 < n <= Php.IntMax
    ensures LoadedOrderId(Php.NatToString(n)) == Some(n)
  {
    Php.DigitsAreNumeric(Php.NatToString(n));
    Php.AbsIntOfNatToString(n);
  }

  /** Where loading by the raw id and looking up by `absint` part: "12abc"
    * loads no order, though `absint` reads it as 12. */
  lemma TrailingTextLoadsNoOrder()
    ensures Php.AbsInt("12abc") == 12 && LoadedOrderId("12abc").None?
  {
    Php.AbsIntReadsLeadingDigits();
    Php.TrailingTextNotNumeric();
  }

  /** Likewise "-5" loads no order, though `absint` reads it as 5. */
  lemma NegativeIdLoadsNoOrder()
    ensures Php.AbsInt("-5") == 5 && LoadedOrderId("-5").None?
  {
    var s := "-5";
    assert Php.TrimLeft(s) == s;
    assert s[1..] == "5";
    assert Php.IntegerPart("5", 0, false) == Php.IntegerPart("", 5, true) by {
      assert "5"[1..] == "";
    }
    assert Php.LeadingNumber(s) == Some(Php.Ratio(-5, 1));
    assert Php.IntVal(s) == -5;
  }

  /** Text that is not numeric, such as "12abc", or a number that is not
    * positive, such as "-5", names no order, whatever `absint` makes of it. */
  lemma LoadedOrderIdNeedsPositiveNumber(orderId: string)
    requires !Php.IsNumericString(orderId) || Php.IntVal(orderId) <= 0
    ensures LoadedOrderId(orderId).None?
  {
  }

  /** The handler acts only when these parameters are truthy; 3.3.3 and
    * 2.6.9 do not ask for `ng_signature`. */
  predicate Acts(r: LegacyForm.Release, q: Gateway.Query)
  {
    Truthy(q, "ng_netgiroSignature") && Truthy(q, "ng_orderid") && Truthy(q, "ng_transactionid")
    && (r.V333? || r.V269? || Truthy(q, "ng_signature"))
  }

  /** The gateway settings a handler reads. */
  datatype Keys = Keys(secretKey: string, hash: Signature.Hasher)

  /**
   * Whether the payment is taken as made. The 4.x gateway files check the
   * signature over order id, transaction, invoice, total and status; the
   * older releases check only a signature of the order id. 3.6.1, 4.0.2 and 4.1.1
   * all require a numeric invoice number.
   */
  predicate Accepted(r: LegacyForm.Release, k: Keys, q: Gateway.Query)
    ensures r.V333? || r.V269? ==>
              (Accepted(r, k, q) <==> Gateway.Param(q, "ng_signature") == k.hash(k.secretKey + Gateway.Param(q, "ng_orderid")))
  {
    var orderId := Gateway.Param(q, "ng_orderid");
    var invoice := Gateway.Param(q, "ng_invoiceNumber");
    match r
    case V411 | V402 =>
      Signature.ReturnSignature(k.hash, k.secretKey, orderId, Gateway.Param(q, "ng_transactionid"), invoice,
                                Gateway.Param(q, "ng_totalAmount"), Gateway.Param(q, "ng_status"))
        == Gateway.Param(q, "ng_netgiroSignature")
      && Php.IsNumericString(invoice)
    case V361 =>
      Signature.OrderSignature(k.hash, k.secretKey, orderId) == Gateway.Param(q, "ng_signature")
      && Php.IsNumericString(invoice)
    case _ =>
      Signature.OrderSignature(k.hash, k.secretKey, orderId) == Gateway.Param(q, "ng_signature")
  }

  /** The words that mark a payment note; later releases search the notes for them. */
  const SuccessMarker := "Netgíró greiðsla tókst"
  const SuccessNotePrefix := SuccessMarker + "<br/>Tilvísunarnúmer frá Netgíró: "

  function SuccessNote(invoice: string): string
  {
    SuccessNotePrefix + invoice
  }

  function FailedNote(orderId: string, invoice: string, signature: string): string
  {
    "Netgiro payment failed. Woocommerce order id: " + orderId + " and Netgiro reference no.: " + invoice
    + " does relate to signature: " + signature
  }

  /** The signature parameter a failure note quotes. */
  function QuotedSignature(r: LegacyForm.Release, q: Gateway.Query): string
  {
    if r.V411? || r.V402? then Gateway.Param(q, "ng_netgiroSignature") else Gateway.Param(q, "ng_signature")
  }

  /**
   * What a handler that acts does to the order. An accepted payment is
   * completed without a transaction id and the invoice number noted; only
   * 4.1.1 then stores the transaction id, and 2.6.9 adds the message it
   * never set, an empty note. A rejected one fails the order and notes why;
   * 2.6.9 notes "Failed" and the empty message instead.
   */
  function CallEffect(r: LegacyForm.Release, k: Keys, q: Gateway.Query, st: OrderState): (after: OrderState)
    ensures after.id == st.id && after.paymentMethod == st.paymentMethod && after.needsProcessing == st.needsProcessing
    ensures after.flag == st.flag
    ensures |after.notes| > |st.notes|
  {
    var invoice := Gateway.Param(q, "ng_invoiceNumber");
    if Accepted(r, k, q) then
      var paid := AddNote(PaymentComplete(st, ""), SuccessNote(invoice));
      if r.V411? then paid.(transactionId := Gateway.Param(q, "ng_transactionid"))
      else if r.V269? then AddNote(paid, "")
      else paid
    else
      var failed := UpdateStatus(st, Failed, "");
      if r.V269? then AddNote(AddNote(failed, "Failed"), "")
      else AddNote(failed, FailedNote(Gateway.Param(q, "ng_orderid"), invoice, QuotedSignature(r, q)))
  }

  /** Whether the customer is redirected: the 4.x gateway files as their
    * entry point asks, 2.6.9 only after a payment, the others always. */
  predicate Redirects(r: LegacyForm.Release, doRedirect: bool, accepted: bool)
  {
    match r
    case V411 | V402 => doRedirect
    case V269 => accepted
    case _ => true
  }

  datatype CallOutcome = Ignored | UnknownOrder | Handled(accepted: bool, redirected: bool)

  class LegacyGateway {
    const release: LegacyForm.Release
    const keys: Keys

    constructor (release: LegacyForm.Release, keys: Keys)
      ensures this.release == release && this.keys == keys
    {
      this.release := release;
      this.keys := keys;
    }

    /**
     * The return handler of the release: without the required parameters
     * it does nothing; for an order id that names no order the order
     * cannot be loaded and nothing changes; otherwise that order, and no
     * other, takes CallEffect.
     */
    method HandleNetgiroCall(store: map<nat, Order>, q: Gateway.Query, doRedirect: bool) returns (outcome: CallOutcome)
      requires WellFormed(store)
      modifies store.Values
      ensures !Acts(release, q) ==> outcome == Ignored
      ensures var id := LoadedOrderId(Gateway.Param(q, "ng_orderid"));
              !Acts(release, q) || id.None? || id.value !in store ==> forall o | o in store.Values :: o.State() == old(o.State())
      ensures var id := LoadedOrderId(Gateway.Param(q, "ng_orderid"));
              Acts(release, q) && (id.None? || id.value !in store) ==> outcome == UnknownOrder
      ensures var id := LoadedOrderId(Gateway.Param(q, "ng_orderid"));
              Acts(release, q) && id.Some? && id.value in store ==>
                store[id.value].State() == CallEffect(release, keys, q, old(store[id.value].State()))
                && outcome == Handled(Accepted(release, keys, q), Redirects(release, doRedirect, Accepted(release, keys, q)))
                && forall o | o in store.Values && o != store[id.value] :: o.State() == old(o.State())
    {
      if !Acts(release, q) {
        return Ignored;
      }
      var id := LoadedOrderId(Gateway.Param(q, "ng_orderid"));
      if id.None? {
        return UnknownOrder;
      }
      match Lookup(store, id.value)
      case None =>
        return UnknownOrder;
      case Some(order) =>
        ApplyCall(order, q);
        var accepted := Accepted(release, keys, q);
        outcome := Handled(accepted, Redirects(release, doRedirect, accepted));
    }

    /** The part of the handler that acts on the order found. */
    method ApplyCall(order: Order, q: Gateway.Query)
      modifies order
      ensures order.State() == CallEffect(release, keys, q, old(order.State()))
    {
      var invoice := Gateway.Param(q, "ng_invoiceNumber");
      if Accepted(release, keys, q) {
        order.CompletePayment("");
        order.AddOrderNote(SuccessNote(invoice));
        if release.V411? {
          order.SetTransactionId(Gateway.Param(q, "ng_transactionid"));
        } else if release.V269? {
          order.AddOrderNote("");
        }
      } else {
        order.SetStatus(Failed, "");
        if release.V269? {
          order.AddOrderNote("Failed");
          order.AddOrderNote("");
        } else {
          order.AddOrderNote(FailedNote(Gateway.Param(q, "ng_orderid"), invoice, QuotedSignature(release, q)));
        }
      }
    }
  }

  // ------------------------------------------------------------ properties

  /** An accepted payment moves an order awaiting payment to processing, or
    * to completed when it needs no processing, and leaves any other status alone; the invoice number is noted; only 4.1.1
    * records the transaction id, and the Netgíró flag is never touched. */
  lemma AcceptedCallPays(r: LegacyForm.Release, k: Keys, q: Gateway.Query, st: OrderState)
    requires Accepted(r, k, q)
    ensures var after := CallEffect(r, k, q, st);
            (NeedsPayment(st.status) ==> after.status == (if st.needsProcessing then Processing else Completed))
            && (!NeedsPayment(st.status) ==> after.status == st.status)
            && SuccessNote(Gateway.Param(q, "ng_invoiceNumber")) in after.notes
            && after.notes[..|st.notes|] == st.notes
            && (r.V411? ==> after.transactionId == Gateway.Param(q, "ng_transactionid"))
            && (!r.V411? ==> after.transactionId == st.transactionId)
            && after.flag == st.flag && after.id == st.id
  {
    PaidThenNoted(st, SuccessNote(Gateway.Param(q, "ng_invoiceNumber")));
  }

  /** Completing the payment and adding a note, with or without the empty
    * note 2.6.9 adds after it, keeps the old notes in front and holds the note. */
  lemma PaidThenNoted(st: OrderState, note: string)
    ensures var noted := AddNote(PaymentComplete(st, ""), note);
            note in noted.notes && noted.notes[..|st.notes|] == st.notes
            && note in AddNote(noted, "").notes && AddNote(noted, "").notes[..|st.notes|] == st.notes
  {
    var paid := PaymentComplete(st, "");
    var noted := AddNote(paid, note);
    assert noted.notes[|paid.notes|] == note;
    assert paid.notes[..|st.notes|] == st.notes;
    assert noted.notes[..|st.notes|] == st.notes;
    var after := AddNote(noted, "");
    assert after.notes[|paid.notes|] == note;
    assert after.notes[..|st.notes|] == st.notes;
  }

  /** A rejected payment fails the order and keeps its transaction id and
    * flag; every release but 2.6.9 notes the order id, invoice and the
    * signature it was given. */
  lemma RejectedCallFails(r: LegacyForm.Release, k: Keys, q: Gateway.Query, st: OrderState)
    requires !Accepted(r, k, q)
    ensures var after := CallEffect(r, k, q, st);
            after.status == Failed && after.transactionId == st.transactionId && after.flag == st.flag
            && after.notes[..|st.notes|] == st.notes
            && (!r.V269? ==> after.notes[|after.notes| - 1]
                             == FailedNote(Gateway.Param(q, "ng_orderid"), Gateway.Param(q, "ng_invoiceNumber"), QuotedSignature(r, q)))
  {
    var failed := UpdateStatus(st, Failed, "");
    assert failed.notes[..|st.notes|] == st.notes;
    if r.V269? {
      assert AddNote(AddNote(failed, "Failed"), "").notes[..|st.notes|] == st.notes;
    } else {
      assert AddNote(failed, FailedNote(Gateway.Param(q, "ng_orderid"), Gateway.Param(q, "ng_invoiceNumber"), QuotedSignature(r, q))).notes[..|st.notes|] == st.notes;
    }
  }

  /** 3.6.1, 4.0.2 and 4.1.1 never accept a payment whose invoice number is not
    * numeric, whatever the signature. */
  lemma NonNumericInvoiceRejected(r: LegacyForm.Release361, k: Keys, q: Gateway.Query)
    requires !Php.IsNumericString(Gateway.Param(q, "ng_invoiceNumber"))
    ensures !Accepted(r, k, q)
  {
  }

  /** The older signature covers the order id alone: once a signature of an
    * order id is accepted, it is accepted with any transaction id, total and
    * status, and, before 3.6.1, with any invoice number. */
  lemma OrderSignatureReplayable(r: LegacyForm.Release, k: Keys, q1: Gateway.Query, q2: Gateway.Query)
    requires r.V361? || r.V333? || r.V269?
    requires Gateway.Param(q1, "ng_orderid") == Gateway.Param(q2, "ng_orderid")
    requires Gateway.Param(q1, "ng_signature") == Gateway.Param(q2, "ng_signature")
    requires r.V361? ==> Php.IsNumericString(Gateway.Param(q2, "ng_invoiceNumber"))
    requires Accepted(r, k, q1)
    ensures Accepted(r, k, q2)
  {
  }

  /** The 4.x gateway files accept only the signature over exactly the
    * order id, transaction, invoice, total and status they were sent. */
  lemma ReturnSignatureChecked(r: LegacyForm.Release, k: Keys, q: Gateway.Query)
    requires r.V411? || r.V402?
    requires Accepted(r, k, q)
    ensures Gateway.Param(q, "ng_netgiroSignature")
            == k.hash(k.secretKey + Gateway.Param(q, "ng_orderid") + Gateway.Param(q, "ng_transactionid")
                      + Gateway.Param(q, "ng_invoiceNumber") + Gateway.Param(q, "ng_totalAmount") + Gateway.Param(q, "ng_status"))
    ensures Php.IsNumericString(Gateway.Param(q, "ng_invoiceNumber"))
  {
  }
}
