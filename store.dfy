/**
 * The WooCommerce order as the gateway sees it: status, transaction id,
 * notes, payment method and the `_netgiro_payment_status` meta flag. The
 * order methods the plugin calls (`update_status`, `payment_complete`,
 * `add_order_note`, `set_transaction_id`, `update_post_meta`) are modelled
 * as their effect on these fields.
 */
module Store {
  import opened Wrappers
  import Php

  datatype Status = Pending | OnHold | Processing | Completed | Cancelled | Refunded | Failed

  /** The values the v5 gateway writes under `_netgiro_payment_status`. */
  datatype Flag = NetgiroAuthorized | NetgiroConfirmed | NetgiroRefunded

  const MetaKeyNetgiroStatus := "_netgiro_payment_status"

  /** The stored meta string of a flag. */
  function FlagValue(f: Flag): string
  {
    match f
    case NetgiroAuthorized => "NETGIRO_AUTHORIZED"
    case NetgiroConfirmed => "NETGIRO_CONFIRMED"
    case NetgiroRefunded => "NETGIRO_REFUNDED"
  }

  /** `$netgiro_status ?: $fallback`: the stored value, or the fallback when unset. */
  function FlagText(f: Option<Flag>, fallback: string): string
  {
    if f.Some? then FlagValue(f.value) else fallback
  }

  /** WooCommerce's label for a status, as used in its status-change note. */
  function StatusName(s: Status): string
  {
    match s
    case Pending => "Pending payment"
    case OnHold => "On hold"
    case Processing => "Processing"
    case Completed => "Completed"
    case Cancelled => "Cancelled"
    case Refunded => "Refunded"
    case Failed => "Failed"
  }

  /** The order's state as a value. `needsProcessing` is WooCommerce's
    * `needs_processing()`: false when every item is virtual and downloadable. */
  datatype OrderState = OrderState(
    id: nat,
    paymentMethod: string,
    needsProcessing: bool,
    status: Status,
    transactionId: string,
    notes: seq<string>,
    flag: Option<Flag>)

  function AddNote(st: OrderState, note: string): (r: OrderState)
    ensures r == st.(notes := st.notes + [note])
  {
    st.(notes := st.notes + [note])
  }

  /** The note WooCommerce adds for a status change, after the caller's note. */
  function StatusChangeNote(note: string, from: Status, to: Status): string
  {
    var change := "Order status changed from " + StatusName(from) + " to " + StatusName(to) + ".";
    if note == "" then change else note + " " + change
  }

  /** `update_status($to, $note)`: a change of status records one note that
    * carries the caller's note; setting the current status again does
    * nothing, the caller's note included. */
  function UpdateStatus(st: OrderState, to: Status, note: string): (r: OrderState)
    ensures r.id == st.id && r.paymentMethod == st.paymentMethod && r.needsProcessing == st.needsProcessing
    ensures r.status == to && r.transactionId == st.transactionId && r.flag == st.flag
    ensures st.status == to ==> r == st
    ensures st.status != to ==> r.notes == st.notes + [StatusChangeNote(note, st.status, to)]
  {
    if st.status == to then st
    else st.(status := to, notes := st.notes + [StatusChangeNote(note, st.status, to)])
  }

  /** The statuses from which `payment_complete` acts. */
  predicate NeedsPayment(s: Status)
  {
    s == Pending || s == OnHold || s == Failed || s == Cancelled
  }

  /** The status `payment_complete` gives a paid order: processing when it
    * needs processing, completed otherwise. */
  function PaidStatus(st: OrderState): Status
  {
    if st.needsProcessing then Processing else Completed
  }

  /** `payment_complete($txn)`: from a status that awaits payment, store the
    * transaction id (unless it is empty: "" or "0") and move to processing, or straight
    * to completed for an order that needs no processing; otherwise leave
    * the order alone. */
  function PaymentComplete(st: OrderState, txn: string): (r: OrderState)
    ensures r.id == st.id && r.paymentMethod == st.paymentMethod && r.needsProcessing == st.needsProcessing
    ensures r.flag == st.flag
    ensures NeedsPayment(st.status) ==> r.status == (if st.needsProcessing then Processing else Completed)
    ensures NeedsPayment(st.status) ==> r.notes == st.notes + [StatusChangeNote("", st.status, r.status)]
    ensures NeedsPayment(st.status) && !Php.EmptyString(txn) ==> r.transactionId == txn
    ensures NeedsPayment(st.status) && Php.EmptyString(txn) ==> r.transactionId == st.transactionId
    ensures !NeedsPayment(st.status) ==> r == st
  {
    if NeedsPayment(st.status) then
      UpdateStatus(st.(transactionId := if !Php.EmptyString(txn) then txn else st.transactionId), PaidStatus(st), "")
    else st
  }

  class Order {
    const id: nat
    const paymentMethod: string
    const needsProcessing: bool
    var status: Status
    var transactionId: string
    var notes: seq<string>
    var flag: Option<Flag>

    function State(): OrderState
      reads this
    {
      OrderState(id, paymentMethod, needsProcessing, status, transactionId, notes, flag)
    }

    constructor (st: OrderState)
      ensures State() == st
    {
      id := st.id;
      paymentMethod := st.paymentMethod;
      needsProcessing := st.needsProcessing;
      status := st.status;
      transactionId := st.transactionId;
      notes := st.notes;
      flag := st.flag;
    }

    /** Replaces the mutable part of the order by that of `st`. */
    method Assign(st: OrderState)
      requires st.id == id && st.paymentMethod == paymentMethod && st.needsProcessing == needsProcessing
      modifies this
      ensures State() == st
    {
      status := st.status;
      transactionId := st.transactionId;
      notes := st.notes;
      flag := st.flag;
    }

    method AddOrderNote(note: string)
      modifies this
      ensures State() == AddNote(old(State()), note)
    {
      notes := notes + [note];
    }

    method SetTransactionId(txn: string)
      modifies this
      ensures State() == old(State()).(transactionId := txn)
    {
      transactionId := txn;
    }

    method SetStatus(to: Status, note: string)
      modifies this
      ensures State() == UpdateStatus(old(State()), to, note)
    {
      if status != to {
        notes := notes + [StatusChangeNote(note, status, to)];
        status := to;
      }
    }

    method CompletePayment(txn: string)
      modifies this
      ensures State() == PaymentComplete(old(State()), txn)
    {
      if NeedsPayment(status) {
        if !Php.EmptyString(txn) {
          transactionId := txn;
        }
        SetStatus(if needsProcessing then Processing else Completed, "");
      }
    }

    method SetFlag(f: Flag)
      modifies this
      ensures State() == old(State()).(flag := Some(f))
    {
      flag := Some(f);
    }
  }

  /** Every order is stored under its own, non-zero id. */
  ghost predicate WellFormed(store: map<nat, Order>)
  {
    forall id | id in store :: id != 0 && store[id].id == id
  }

  /** `wc_get_order($id)`. */
  function Lookup(store: map<nat, Order>, id: nat): Option<Order>
  {
    if id in store then Some(store[id]) else None
  }
}
