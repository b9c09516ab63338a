/**
 * The version 5 redirect form: the signed fields and item blocks posted to
 * Netgíró's payment page when the customer reaches the receipt page.
 *
 * `Args`, `ItemsOf` and `ItemInputs` say what the form holds;
 * `GenerateNetgiroForm` builds it the way the plugin does, with the same
 * loops, and is proved to produce `FormSpec`.
 */
module PaymentForm {
  import opened Wrappers
  import Php
  import Signature
  import opened Fields

  /** A line item of the order as the form reads it: the product, and the
    * item and line subtotals including tax, unrounded. */
  datatype LineItem = LineItem(
    productId: nat, name: string, itemSubtotal: Php.Number, lineSubtotal: Php.Number, quantity: int)

  datatype OrderSnapshot = OrderSnapshot(id: nat, total: Php.Number, lineItems: seq<LineItem>)

  /** The gateway settings and site values the form reads. */
  datatype Settings = Settings(
    applicationId: string,
    secretKey: string,
    /** `confirmation_type`, None when unset. */
    confirmationType: Option<string>,
    /** `send_order_items`, None when unset. */
    sendOrderItems: Option<string>,
    cancelPageId: string,
    /** `home_url('/')`. */
    homeUrl: string,
    /** `get_bloginfo('name')`. */
    blogName: string,
    paymentGatewayUrl: string,
    hash: Signature.Hasher,
    /** `get_permalink($page_id)`. */
    permalink: int -> string)

  const ClientInfo := "WooCommerce 5.0.0"

  /** `add_query_arg($key, $value, $url)` for a URL without a query string
    * of its own or with one that lacks the key. */
  function AddQueryArg(key: string, value: string, url: string): (r: string)
    ensures |r| > |url| && r[..|url|] == url
  {
    url + (if Php.Contains(url, "?") then "&" else "?") + key + "=" + value
  }

  /** The defaults the settings form declares for the two options the form reads. */
  const ConfirmationTypeDefault := "1"
  const SendOrderItemsDefault := "yes"

  /** WooCommerce's `get_option($key, $empty_value)`: an unset key reads as
    * the field's default, and a stored empty string as `$empty_value`. */
  function GetOption(stored: Option<string>, fieldDefault: string, emptyValue: string): (r: string)
    ensures stored.None? && fieldDefault != "" ==> r == fieldDefault
    ensures stored == Some("") ==> r == emptyValue
    ensures stored.Some? && stored.value != "" ==> r == stored.value
  {
    var v := if stored.Some? then stored.value else fieldDefault;
    if v == "" then emptyValue else v
  }

  /** `get_option('confirmation_type', '0')`: unset is the default "1", a
    * stored empty value is "0". */
  function ConfirmationType(s: Settings): (r: string)
    ensures s.confirmationType.None? ==> r == "1"
    ensures s.confirmationType == Some("") ==> r == "0"
    ensures s.confirmationType.Some? && s.confirmationType.value != "" ==> r == s.confirmationType.value
  {
    GetOption(s.confirmationType, ConfirmationTypeDefault, "0")
  }

  /** `'yes' === get_option('send_order_items', 'yes')`: items are sent
    * unless a value other than "yes" or "" is stored. */
  predicate SendItems(s: Settings)
    ensures SendItems(s) <==> s.sendOrderItems.None? || s.sendOrderItems.value == "" || s.sendOrderItems.value == "yes"
  {
    GetOption(s.sendOrderItems, SendOrderItemsDefault, "yes") == "yes"
  }

  /** The cancel page's permalink when one is configured, the home page otherwise. */
  function CancelUrl(s: Settings): (r: string)
    ensures !Php.EmptyString(s.cancelPageId) ==> r == s.permalink(Php.IntVal(s.cancelPageId))
    ensures Php.EmptyString(s.cancelPageId) ==> r == s.homeUrl
  {
    if !Php.EmptyString(s.cancelPageId) then s.permalink(Php.IntVal(s.cancelPageId)) else s.homeUrl
  }

  function SuccessUrl(s: Settings): string
  {
    AddQueryArg("wc-api", "WC_netgiro", s.homeUrl)
  }

  function CallbackUrl(s: Settings): string
  {
    AddQueryArg("wc-api", "WC_netgiro_callback", s.homeUrl)
  }

  /** `(int) round($order->get_total())`. */
  function TotalAmount(o: OrderSnapshot): int
  {
    Php.Round(o.total)
  }

  function Description(orderId: nat, blogName: string): string
  {
    "Order #" + Php.NatToString(orderId) + " from " + blogName
  }

  /** One item block as sent to Netgíró. */
  datatype NetgiroItem = NetgiroItem(productNo: string, name: string, unitPrice: int, amount: int, quantity: int)

  const ItemKeys := ["ProductNo", "Name", "UnitPrice", "Amount", "Quantity"]

  function ItemOf(li: LineItem): (r: NetgiroItem)
    ensures r.quantity == li.quantity
    ensures -(li.itemSubtotal.den as int) <= 2 * (r.unitPrice * li.itemSubtotal.den - li.itemSubtotal.num) <= li.itemSubtotal.den
  {
    Php.RoundBounds(li.itemSubtotal);
    NetgiroItem(Php.NatToString(li.productId), li.name, Php.Round(li.itemSubtotal), Php.Round(li.lineSubtotal), li.quantity)
  }

  /** The fields of an item block, in the order they are emitted. */
  function ItemFields(it: NetgiroItem): (r: Pairs)
    ensures |r| == |ItemKeys| && forall j :: 0 <= j < |r| ==> r[j].0 == ItemKeys[j]
  {
    [("ProductNo", it.productNo), ("Name", it.name), ("UnitPrice", Php.IntToString(it.unitPrice)),
     ("Amount", Php.IntToString(it.amount)), ("Quantity", Php.IntToString(it.quantity))]
  }

  /** One item block per line item, in order. */
  function ItemsOf(lines: seq<LineItem>): (r: seq<NetgiroItem>)
    ensures |r| == |lines|
    ensures forall i :: 0 <= i < |lines| ==> r[i] == ItemOf(lines[i])
  {
    if lines == [] then [] else ItemsOf(lines[..|lines| - 1]) + [ItemOf(lines[|lines| - 1])]
  }

  /** The keys of the fields every form carries, in order. */
  const BaseKeys := ["ApplicationID", "Iframe", "PaymentSuccessfulURL", "PaymentCancelledURL", "ConfirmationType",
                     "ReferenceNumber", "TotalAmount", "Signature", "PrefixUrlParameters", "ClientInfo"]

  /** The fields every form carries: the signature is computed over the
    * reference number, total and application id sent beside it. */
  function BaseArgs(s: Settings, o: OrderSnapshot): (r: Pairs)
    ensures |r| == |BaseKeys| && forall i :: 0 <= i < |r| ==> r[i].0 == BaseKeys[i]
  {
    var total := Php.IntToString(TotalAmount(o));
    var reference := Php.NatToString(o.id);
    [("ApplicationID", s.applicationId),
     ("Iframe", "false"),
     ("PaymentSuccessfulURL", SuccessUrl(s)),
     ("PaymentCancelledURL", CancelUrl(s)),
     ("ConfirmationType", ConfirmationType(s)),
     ("ReferenceNumber", reference),
     ("TotalAmount", total),
     ("Signature", Signature.PaymentSignature(s.hash, s.secretKey, reference, total, s.applicationId)),
     ("PrefixUrlParameters", "true"),
     ("ClientInfo", ClientInfo)]
  }

  /** The form's top-level fields, in insertion order: the callback URL is
    * added for confirmation type "1", the description when items are not sent. */
  function Args(s: Settings, o: OrderSnapshot): Pairs
  {
    var base := BaseArgs(s, o);
    var withCallback := if ConfirmationType(s) == "1" then Put(base, "PaymentConfirmedURL", CallbackUrl(s)) else base;
    if SendItems(s) then withCallback else Put(withCallback, "Description", Description(o.id, s.blogName))
  }

  /** `Items[i].Key` */
  function ItemInputName(index: nat, key: string): string
  {
    "Items[" + Php.NatToString(index) + "]." + key
  }

  /** The inputs of item block `index`. */
  function FieldInputs(index: nat, fields: Pairs): (r: Pairs)
    ensures |r| == |fields|
    ensures forall j :: 0 <= j < |fields| ==> r[j] == (ItemInputName(index, fields[j].0), fields[j].1)
  {
    seq(|fields|, j requires 0 <= j < |fields| => (ItemInputName(index, fields[j].0), fields[j].1))
  }

  /** The input blocks of the items: block `i` holds item `i`'s fields. */
  function Blocks(items: seq<NetgiroItem>): (r: seq<Pairs>)
    ensures |r| == |items|
    ensures forall i :: 0 <= i < |items| ==> r[i] == FieldInputs(i, ItemFields(items[i])) && |r[i]| == 5
  {
    seq(|items|, i requires 0 <= i < |items| => FieldInputs(i, ItemFields(items[i])))
  }

  /** The blocks one after another. */
  function Flatten<T>(blocks: seq<seq<T>>): seq<T>
  {
    if blocks == [] then [] else Flatten(blocks[..|blocks| - 1]) + blocks[|blocks| - 1]
  }

  /** Flattening one block more appends that block. */
  lemma FlattenSnoc<T>(blocks: seq<seq<T>>, i: nat)
    requires i < |blocks|
    ensures Flatten(blocks[..i + 1]) == Flatten(blocks[..i]) + blocks[i]
  {
    assert blocks[..i + 1][..i] == blocks[..i];
  }

  /** The inputs of all item blocks, block after block. */
  function ItemInputs(items: seq<NetgiroItem>): Pairs
  {
    Flatten(Blocks(items))
  }

  datatype Form = InvalidOrder | Form(action: string, inputs: Pairs)

  /** What the receipt page emits for an order id: nothing but an error
    * notice for an unknown order, otherwise the form posting to the gateway. */
  function FormSpec(s: Settings, order: Option<OrderSnapshot>): (r: Form)
    ensures r.Form? <==> order.Some?
    ensures order.Some? && SendItems(s) ==> r.inputs == Args(s, order.value) + ItemInputs(ItemsOf(order.value.lineItems))
    ensures order.Some? && !SendItems(s) ==> r.inputs == Args(s, order.value)
    ensures r.Form? ==> r.action == s.paymentGatewayUrl
  {
    match order
    case None => InvalidOrder
    case Some(o) =>
      var items := if SendItems(s) then ItemsOf(o.lineItems) else [];
      Form(s.paymentGatewayUrl, Args(s, o) + (if SendItems(s) && |items| > 0 then ItemInputs(items) else []))
  }

  /** `generate_netgiro_form`. */
  method GenerateNetgiroForm(s: Settings, order: Option<OrderSnapshot>) returns (form: Form)
    ensures form == FormSpec(s, order)
  {
    if order.None? {
      return InvalidOrder;
    }
    var o := order.value;
    var confirmationType := ConfirmationType(s);
    var sendItems := SendItems(s);
    var totalAmount := Php.IntToString(Php.Round(o.total));
    var reference := Php.NatToString(o.id);
    var signature := s.hash(s.secretKey + reference + totalAmount + s.applicationId);
    var args := [
      ("ApplicationID", s.applicationId),
      ("Iframe", "false"),
      ("PaymentSuccessfulURL", SuccessUrl(s)),
      ("PaymentCancelledURL", CancelUrl(s)),
      ("ConfirmationType", confirmationType),
      ("ReferenceNumber", reference),
      ("TotalAmount", totalAmount),
      ("Signature", signature),
      ("PrefixUrlParameters", "true"),
      ("ClientInfo", ClientInfo)];
    assert args == BaseArgs(s, o);
    if confirmationType == "1" {
      args := Put(args, "PaymentConfirmedURL", CallbackUrl(s));
    }
    var items: seq<NetgiroItem> := [];
    if sendItems {
      items := CollectItems(o.lineItems);
    } else {
      args := Put(args, "Description", Description(o.id, s.blogName));
    }
    var inputs := EmitInputs(args, items, sendItems && |items| > 0);
    form := Form(s.paymentGatewayUrl, inputs);
  }

  /** The `foreach` over the order's line items. */
  method CollectItems(lines: seq<LineItem>) returns (items: seq<NetgiroItem>)
    ensures items == ItemsOf(lines)
  {
    items := [];
    for i := 0 to |lines|
      invariant items == ItemsOf(lines[..i])
    {
      assert lines[..i + 1][..i] == lines[..i];
      items := items + [ItemOf(lines[i])];
    }
    assert lines[..|lines|] == lines;
  }

  /** The hidden inputs: every field, then, when asked, every item block. */
  method EmitInputs(args: Pairs, items: seq<NetgiroItem>, withItems: bool) returns (inputs: Pairs)
    ensures inputs == args + (if withItems then ItemInputs(items) else [])
  {
    inputs := [];
    for i := 0 to |args|
      invariant inputs == args[..i]
    {
      inputs := inputs + [args[i]];
    }
    assert args[..|args|] == args;
    if withItems {
      var blocks := Blocks(items);
      for i := 0 to |items|
        invariant inputs == args + Flatten(blocks[..i])
      {
        FlattenSnoc(blocks, i);
        inputs := EmitItem(inputs, i, ItemFields(items[i]));
      }
      assert blocks[..|items|] == blocks;
    }
  }

  /** The inner `foreach` over one item's fields. */
  method EmitItem(prefix: Pairs, index: nat, fields: Pairs) returns (inputs: Pairs)
    ensures inputs == prefix + FieldInputs(index, fields)
  {
    inputs := prefix;
    for j := 0 to |fields|
      invariant inputs == prefix + FieldInputs(index, fields[..j])
    {
      assert FieldInputs(index, fields[..j + 1]) == FieldInputs(index, fields[..j]) + [(ItemInputName(index, fields[j].0), fields[j].1)];
      inputs := inputs + [(ItemInputName(index, fields[j].0), fields[j].1)];
    }
    assert fields[..|fields|] == fields;
  }

  // ------------------------------------------------------------ properties

  /** Blocks of five inputs each: block `i` sits at positions 5i to 5i+4. */
  lemma {:induction false} FlattenFives<T>(blocks: seq<seq<T>>, i: nat)
    requires forall k :: 0 <= k < |blocks| ==> |blocks[k]| == 5
    requires i < |blocks|
    ensures |Flatten(blocks)| == 5 * |blocks|
    ensures Flatten(blocks)[5 * i .. 5 * i + 5] == blocks[i]
    decreases |blocks|
  {
    var n := |blocks| - 1;
    var prefix := Flatten(blocks[..n]);
    if i < n {
      FlattenFives(blocks[..n], i);
      assert blocks[..n][i] == blocks[i];
      assert (prefix + blocks[n])[5 * i .. 5 * i + 5] == prefix[5 * i .. 5 * i + 5];
    } else if n > 0 {
      FlattenFives(blocks[..n], 0);
      assert (prefix + blocks[n])[|prefix|..] == blocks[n];
    } else {
      assert blocks[..n] == [];
      assert Flatten(blocks) == blocks[0];
      assert blocks[0][0..5] == blocks[0];
    }
  }

  /** Item block `i` sits at positions 5i to 5i+4 of the item inputs and
    * names its fields `Items[i].ProductNo` … `Items[i].Quantity`. */
  lemma ItemInputsBlock(items: seq<NetgiroItem>, i: nat)
    requires i < |items|
    ensures |ItemInputs(items)| == 5 * |items|
    ensures ItemInputs(items)[5 * i .. 5 * i + 5] == FieldInputs(i, ItemFields(items[i]))
  {
    FlattenFives(Blocks(items), i);
  }

  lemma NotBaseKey(s: Settings, o: OrderSnapshot, k: string)
    requires k !in BaseKeys
    ensures !HasKey(BaseArgs(s, o), k)
  {
    var base := BaseArgs(s, o);
    forall i | 0 <= i < |base| ensures base[i].0 != k {
      assert base[i].0 == BaseKeys[i];
    }
  }

  /** The fields in insertion order: the fixed ones, then the callback URL
    * when confirmation type is "1", then the description when items are
    * not sent. */
  lemma ArgsLayout(s: Settings, o: OrderSnapshot)
    ensures Args(s, o) == BaseArgs(s, o)
                          + (if ConfirmationType(s) == "1" then [("PaymentConfirmedURL", CallbackUrl(s))] else [])
                          + (if SendItems(s) then [] else [("Description", Description(o.id, s.blogName))])
  {
    var base := BaseArgs(s, o);
    var callback: Pairs := if ConfirmationType(s) == "1" then [("PaymentConfirmedURL", CallbackUrl(s))] else [];
    NotBaseKey(s, o, "PaymentConfirmedURL");
    NotBaseKey(s, o, "Description");
    HasKeyAppend(base, callback, "Description");
    forall i | 0 <= i < |callback| ensures callback[i].0 != "Description" {
    }
  }

  /** The signature covers exactly the reference number, total amount and
    * application id the form sends, and those are the order id, the
    * rounded total and the configured application id. */
  lemma SignatureMatchesSentFields(s: Settings, o: OrderSnapshot)
    ensures Lookup(Args(s, o), "ReferenceNumber") == Some(Php.NatToString(o.id))
    ensures Lookup(Args(s, o), "TotalAmount") == Some(Php.IntToString(TotalAmount(o)))
    ensures Lookup(Args(s, o), "ApplicationID") == Some(s.applicationId)
    ensures Lookup(Args(s, o), "Signature") == Some(Signature.PaymentSignature(
              s.hash, s.secretKey, Lookup(Args(s, o), "ReferenceNumber").value,
              Lookup(Args(s, o), "TotalAmount").value, Lookup(Args(s, o), "ApplicationID").value))
    ensures Lookup(Args(s, o), "ConfirmationType") == Some(ConfirmationType(s))
    ensures Lookup(Args(s, o), "PaymentCancelledURL") == Some(CancelUrl(s))
  {
    LookupBase(s, o, 0);
    LookupBase(s, o, 3);
    LookupBase(s, o, 4);
    LookupBase(s, o, 5);
    LookupBase(s, o, 6);
    LookupBase(s, o, 7);
  }

  /** Each fixed field reads as listed, whatever follows it. */
  lemma LookupBase(s: Settings, o: OrderSnapshot, i: nat)
    requires i < |BaseKeys|
    ensures Lookup(Args(s, o), BaseKeys[i]) == Some(BaseArgs(s, o)[i].1)
  {
    var base := BaseArgs(s, o);
    ArgsLayout(s, o);
    var tail := Args(s, o)[|base|..];
    assert Args(s, o) == base + tail;
    LookupListed(base, i);
    assert base[i].0 == BaseKeys[i];
    LookupAppend(base, tail, BaseKeys[i]);
  }

  /** The server callback URL is sent exactly for confirmation type "1", and
    * the description exactly when items are not sent. */
  lemma OptionalFields(s: Settings, o: OrderSnapshot)
    ensures HasKey(Args(s, o), "PaymentConfirmedURL") <==> ConfirmationType(s) == "1"
    ensures HasKey(Args(s, o), "Description") <==> !SendItems(s)
  {
    var base := BaseArgs(s, o);
    var callback: Pairs := if ConfirmationType(s) == "1" then [("PaymentConfirmedURL", CallbackUrl(s))] else [];
    var description: Pairs := if SendItems(s) then [] else [("Description", Description(o.id, s.blogName))];
    ArgsLayout(s, o);
    NotBaseKey(s, o, "PaymentConfirmedURL");
    NotBaseKey(s, o, "Description");
    HasKeyAppend(base + callback, description, "PaymentConfirmedURL");
    HasKeyAppend(base, callback, "PaymentConfirmedURL");
    HasKeyAppend(base + callback, description, "Description");
    HasKeyAppend(base, callback, "Description");
    if ConfirmationType(s) == "1" {
      assert callback[0].0 == "PaymentConfirmedURL";
    }
    if !SendItems(s) {
      assert description[0].0 == "Description";
    }
    forall i | 0 <= i < |callback| ensures callback[i].0 != "Description" {
    }
    forall i | 0 <= i < |description| ensures description[i].0 != "PaymentConfirmedURL" {
    }
  }

  /** Block `i` carries line item `i`'s fields, its raw quantity last. */
  lemma ItemBlock(lines: seq<LineItem>, i: nat)
    requires i < |lines|
    ensures var inputs := ItemInputs(ItemsOf(lines));
            |inputs| == 5 * |lines|
            && inputs[5 * i .. 5 * i + 5] == FieldInputs(i, ItemFields(ItemOf(lines[i])))
            && inputs[5 * i + 4] == (ItemInputName(i, "Quantity"), Php.IntToString(lines[i].quantity))
  {
    var items := ItemsOf(lines);
    var rest := ItemInputs(items);
    ItemInputsBlock(items, i);
    var block := FieldInputs(i, ItemFields(items[i]));
    assert block[4] == (ItemInputName(i, "Quantity"), Php.IntToString(lines[i].quantity));
    assert rest[5 * i + 4] == rest[5 * i .. 5 * i + 5][4];
  }
}
