/**
 * The redirect forms of the releases before 5.0: the 4.x gateway class
 * (4.1.1 and the 4.0.2 plugin file), the 3.6.1 plugin, and the
 * 3.3.3 and 2.6.9 plugins. They share the field list, the optional
 * shipping and discount amounts and the emission of item blocks; they
 * differ in the guards, the URLs and the item prices.
 */
module LegacyForm {
  import opened Wrappers
  import Php
  import Signature
  import opened Fields
  import PaymentForm

  /** The release a form or handler comes from. */
  datatype Release = V411 | V402 | V361 | V333 | V269

  /** The releases from 3.6.1 on, which validate the order before building the form. */
  type Release361 = r: Release | r.V411? || r.V402? || r.V361? witness V411

  /** The gateway settings and the WordPress functions the forms call. */
  datatype Site = Site(
    applicationId: string,
    secretKey: string,
    /** The `cancel_page_id` setting. */
    cancelPageId: string,
    /** The payment gateway URL the test setting selects. */
    gatewayUrl: string,
    /** `get_site_url()`. */
    siteUrl: string,
    /** `home_url('/')`. */
    homeUrl: string,
    /** The `Version` header of the plugin file. */
    pluginVersion: string,
    hash: Signature.Hasher,
    /** `get_permalink($page_id)`. */
    permalink: string -> string,
    /** `wp_http_validate_url($url) !== false`. */
    validUrl: string -> bool,
    /** How PHP prints a float that is not a whole number. */
    show: Php.Number -> string)

  const ErrorText :=
    "Villa kom upp við vinnslu beiðni þinnar. Vinsamlega reyndu aftur eða hafðu samband við þjónustuver Netgíró með tölvupósti á netgiro@netgiro.is"

  /**
   * What a form generator returns: the error text, a PHP error that ends
   * the request (`count()` of the never-assigned item list, a division by
   * a zero quantity), or the form posting its hidden inputs to the gateway.
   */
  datatype Form = ErrorMessage | TypeError | DivisionByZero | Form(action: string, inputs: Pairs)

  // ------------------------------------------------------------ items

  /** A WooCommerce order item read as an array; a missing key reads as null. */
  type Item = map<string, Php.Value>

  function Get(item: Item, key: string): Php.Value
  {
    if key in item then item[key] else Php.Null
  }

  /**
   * `validate_item_array`: a product id, a non-empty string name and a
   * non-empty numeric quantity are required; the line total must be numeric
   * unless it is empty, which counts as 0.
   */
  function ValidateItemArray(item: Item): bool
  {
    var lineTotal := if Php.Empty(Get(item, "line_total")) then Php.Int(0) else Get(item, "line_total");
    if Php.Empty(Get(item, "product_id")) || Php.Empty(Get(item, "name")) || Php.Empty(Get(item, "qty")) then false
    else if !Get(item, "name").Str? || !Php.IsNumeric(lineTotal) || !Php.IsNumeric(Get(item, "qty")) then false
    else true
  }

  /** The rules `validate_item_array` enforces, one by one. */
  lemma ValidationRules(item: Item)
    ensures ValidateItemArray(item) <==>
              !Php.Empty(Get(item, "product_id"))
              && Get(item, "name").Str? && !Php.EmptyString(Get(item, "name").s)
              && !Php.Empty(Get(item, "qty")) && Php.NumberOf(Get(item, "qty")).Some?
              && (Php.Empty(Get(item, "line_total")) || Php.NumberOf(Get(item, "line_total")).Some?)
  {
  }

  /** A number as PHP prints it: a whole number as its digits, anything else
    * as the float formatter prints it. */
  function Render(show: Php.Number -> string, x: Php.Number): string
  {
    if x.num % x.den == 0 then Php.IntToString(x.num / x.den) else show(x)
  }

  /** The inputs of item block `i`, for every block. */
  function BlockInputs(blocks: seq<Pairs>): (r: seq<Pairs>)
    ensures |r| == |blocks|
    ensures forall i :: 0 <= i < |blocks| ==> r[i] == PaymentForm.FieldInputs(i, blocks[i])
  {
    seq(|blocks|, i requires 0 <= i < |blocks| => PaymentForm.FieldInputs(i, blocks[i]))
  }

  /** `Items[i].Key` for every key of every item, block after block. */
  function ItemInputs(blocks: seq<Pairs>): Pairs
  {
    PaymentForm.Flatten(BlockInputs(blocks))
  }

  /** Item block `i` of five fields sits at positions 5i to 5i+4. */
  lemma ItemInputsBlock(blocks: seq<Pairs>, i: nat)
    requires forall k :: 0 <= k < |blocks| ==> |blocks[k]| == 5
    requires i < |blocks|
    ensures |ItemInputs(blocks)| == 5 * |blocks|
    ensures ItemInputs(blocks)[5 * i .. 5 * i + 5] == PaymentForm.FieldInputs(i, blocks[i])
  {
    PaymentForm.FlattenFives(BlockInputs(blocks), i);
  }

  /** Field `j` of item block `i` is input 5i+j, named after its block. */
  lemma ItemInputAt(blocks: seq<Pairs>, i: nat, j: nat)
    requires forall k :: 0 <= k < |blocks| ==> |blocks[k]| == 5
    requires i < |blocks| && j < 5
    ensures |ItemInputs(blocks)| == 5 * |blocks|
    ensures ItemInputs(blocks)[5 * i + j] == (PaymentForm.ItemInputName(i, blocks[i][j].0), blocks[i][j].1)
  {
    ItemInputsBlock(blocks, i);
    var inputs := ItemInputs(blocks);
    assert inputs[5 * i + j] == inputs[5 * i .. 5 * i + 5][j];
  }

  /** The `foreach` turning the fields into inputs, then the nested loops
    * over the item blocks. */
  method EmitInputs(args: Pairs, blocks: seq<Pairs>) returns (inputs: Pairs)
    ensures inputs == args + ItemInputs(blocks)
  {
    inputs := [];
    for i := 0 to |args|
      invariant inputs == args[..i]
    {
      inputs := inputs + [args[i]];
    }
    assert args[..|args|] == args;
    var all := BlockInputs(blocks);
    for i := 0 to |blocks|
      invariant inputs == args + PaymentForm.Flatten(all[..i])
    {
      ghost var before := inputs;
      inputs := PaymentForm.EmitItem(inputs, i, blocks[i]);
      assert inputs == before + all[i];
      assert all[..i + 1][..i] == all[..i];
    }
    assert all[..|blocks|] == all;
  }

  // ------------------------------------------------------------ fields

  /** The cancel page's permalink, or the site root when none is set. 4.1.1
    * compares strictly with '' and 0; the others compare loosely. */
  function CancelUrl(r: Release, s: Site): string
  {
    var unset := if r.V411? then s.cancelPageId == "" else s.cancelPageId == "" || Php.NumericStringEquals(s.cancelPageId, 0);
    if unset then s.siteUrl + "/" else s.permalink(s.cancelPageId)
  }

  /** The fields before the total. Only the 4.x gateway files send the
    * callback URL. */
  function Head(r: Release, s: Site): Pairs
  {
    [("ApplicationID", s.applicationId),
     ("Iframe", "false"),
     ("PaymentSuccessfulURL", PaymentForm.AddQueryArg("wc-api", "WC_netgiro", s.homeUrl)),
     ("PaymentCancelledURL", CancelUrl(r, s))]
    + (if r.V411? || r.V402? then [("PaymentConfirmedURL", PaymentForm.AddQueryArg("wc-api", "WC_netgiro_callback", s.homeUrl))]
       else [])
  }

  /** The reference, the total and the signature over them. */
  function Signed(s: Site, orderId: string, totalText: string): Pairs
  {
    [("ConfirmationType", "0"),
     ("ReferenceNumber", orderId),
     ("TotalAmount", totalText),
     ("Signature", Signature.PaymentSignature(s.hash, s.secretKey, orderId, totalText, s.applicationId)),
     ("PrefixUrlParameters", "true")]
  }

  function ClientInfo(r: Release, s: Site): Pairs
  {
    match r
    case V269 => []
    case V333 => [("ClientInfo", "System: Woocommerce 3.3.3")]
    case _ => [("ClientInfo", "System: Woocommerce " + s.pluginVersion)]
  }

  /** `$netgiro_args` before the optional amounts. */
  function Args(r: Release, s: Site, orderId: string, total: int): Pairs
  {
    Head(r, s) + Signed(s, orderId, Php.IntToString(total)) + ClientInfo(r, s)
  }

  /** The shipping and discount amounts, each rounded up and present only
    * when positive; None stands for a value `is_numeric` rejects. */
  function Charges(shipping: Option<Php.Number>, discount: Option<Php.Number>): (r: Pairs)
    ensures HasKey(r, "ShippingAmount") <==> shipping.Some? && Php.IsPositive(shipping.value)
    ensures HasKey(r, "DiscountAmount") <==> discount.Some? && Php.IsPositive(discount.value)
    ensures shipping.Some? && Php.IsPositive(shipping.value) ==>
              Lookup(r, "ShippingAmount") == Some(Php.IntToString(Php.Ceil(shipping.value)))
    ensures discount.Some? && Php.IsPositive(discount.value) ==>
              Lookup(r, "DiscountAmount") == Some(Php.IntToString(Php.Ceil(discount.value)))
  {
    var s := if shipping.Some? && Php.IsPositive(shipping.value) then [("ShippingAmount", Php.IntToString(Php.Ceil(shipping.value)))] else [];
    var d := if discount.Some? && Php.IsPositive(discount.value) then [("DiscountAmount", Php.IntToString(Php.Ceil(discount.value)))] else [];
    HasKeyAppend(s, d, "ShippingAmount");
    HasKeyAppend(s, d, "DiscountAmount");
    assert |s| == 1 ==> Lookup(s + d, "ShippingAmount") == Lookup(s, "ShippingAmount") by {
      if |s| == 1 {
        LookupAppend(s, d, "ShippingAmount");
      }
    }
    assert |d| == 1 ==> Lookup(s + d, "DiscountAmount") == Lookup(d, "DiscountAmount") by {
      if |d| == 1 {
        LookupSkip(s, d, "DiscountAmount");
      }
    }
    s + d
  }

  const SignedKeys := ["ConfirmationType", "ReferenceNumber", "TotalAmount", "Signature", "PrefixUrlParameters"]

  /** The names of the fields before the total, and of the signed ones. */
  lemma FieldNames(r: Release, s: Site, orderId: string, totalText: string)
    ensures |Signed(s, orderId, totalText)| == 5
    ensures forall i :: 0 <= i < 5 ==> Signed(s, orderId, totalText)[i].0 == SignedKeys[i]
    ensures forall j :: 0 <= j < |Head(r, s)| ==> |Head(r, s)[j].0| in {6, 13, 19, 20}
  {
  }

  /** The fields are sent as they are built, so each reads as the form set
    * it: the reference, the whole-number total, and the signature over the
    * very values sent. */
  lemma SignedFieldsSent(r: Release, s: Site, orderId: string, total: int, rest: Pairs)
    ensures var inputs := Args(r, s, orderId, total) + rest;
            Lookup(inputs, "ReferenceNumber") == Some(orderId)
            && Lookup(inputs, "TotalAmount") == Some(Php.IntToString(total))
            && Lookup(inputs, "ApplicationID") == Some(s.applicationId)
            && Lookup(inputs, "ConfirmationType") == Some("0")
            && Lookup(inputs, "Signature")
               == Some(Signature.PaymentSignature(s.hash, s.secretKey, Lookup(inputs, "ReferenceNumber").value,
                                                  Lookup(inputs, "TotalAmount").value, Lookup(inputs, "ApplicationID").value))
  {
    var totalText := Php.IntToString(total);
    var head := Head(r, s);
    var tail := ClientInfo(r, s) + rest;
    assert Args(r, s, orderId, total) + rest == head + (Signed(s, orderId, totalText) + tail);
    HeadKeyLengths(r, s);
    SignedLayout(head, orderId, totalText,
                 Signature.PaymentSignature(s.hash, s.secretKey, orderId, totalText, s.applicationId), tail);
    assert head[0].0 == "ApplicationID";
    LookupAppend(head, Signed(s, orderId, totalText) + tail, "ApplicationID");
  }

  lemma HeadKeyLengths(r: Release, s: Site)
    ensures |Head(r, s)| >= 1 && Head(r, s)[0] == ("ApplicationID", s.applicationId)
    ensures forall j :: 0 <= j < |Head(r, s)| ==> |Head(r, s)[j].0| in {6, 13, 19, 20}
  {
  }

  /** Whatever comes before, when no earlier name is as long as a signed
    * one, and whatever comes after, the signed fields read as built. */
  lemma SignedLayout(head: Pairs, orderId: string, totalText: string, signature: string, tail: Pairs)
    requires forall j :: 0 <= j < |head| ==> |head[j].0| in {6, 13, 19, 20}
    ensures var inputs := head + ([("ConfirmationType", "0"), ("ReferenceNumber", orderId), ("TotalAmount", totalText),
                                   ("Signature", signature), ("PrefixUrlParameters", "true")] + tail);
            Lookup(inputs, "ConfirmationType") == Some("0")
            && Lookup(inputs, "ReferenceNumber") == Some(orderId)
            && Lookup(inputs, "TotalAmount") == Some(totalText)
            && Lookup(inputs, "Signature") == Some(signature)
  {
    var signed := [("ConfirmationType", "0"), ("ReferenceNumber", orderId), ("TotalAmount", totalText),
                   ("Signature", signature), ("PrefixUrlParameters", "true")];
    assert DistinctKeys(signed) by {
      forall a, b | 0 <= a < b < 5 ensures signed[a].0 != signed[b].0 {
        assert |signed[a].0| != |signed[b].0|;
      }
    }
    SignedFieldSent(head, signed, tail, 0);
    SignedFieldSent(head, signed, tail, 1);
    SignedFieldSent(head, signed, tail, 2);
    SignedFieldSent(head, signed, tail, 3);
  }

  /** Field `i` of the signed part reads as built, whatever comes before or after. */
  lemma SignedFieldSent(head: Pairs, signed: Pairs, tail: Pairs, i: nat)
    requires DistinctKeys(signed) && i < |signed|
    requires forall j :: 0 <= j < |head| ==> head[j].0 != signed[i].0
    ensures Lookup(head + (signed + tail), signed[i].0) == Some(signed[i].1)
  {
    var k := signed[i].0;
    LookupSkip(head, signed + tail, k);
    LookupAppend(signed, tail, k);
    LookupListed(signed, i);
  }

  /** The client information is sent by every release but 2.6.9, and reads
    * as the release set it. */
  lemma ClientInfoSent(r: Release, s: Site, orderId: string, total: int, rest: Pairs)
    ensures r.V269? ==> !HasKey(Args(r, s, orderId, total), "ClientInfo")
    ensures r.V333? ==> Lookup(Args(r, s, orderId, total) + rest, "ClientInfo") == Some("System: Woocommerce 3.3.3")
    ensures r.V411? || r.V402? || r.V361? ==>
              Lookup(Args(r, s, orderId, total) + rest, "ClientInfo") == Some("System: Woocommerce " + s.pluginVersion)
  {
    var totalText := Php.IntToString(total);
    var fixed := Head(r, s) + Signed(s, orderId, totalText);
    var info := ClientInfo(r, s);
    FieldNames(r, s, orderId, totalText);
    assert !HasKey(fixed, "ClientInfo") by {
      forall j | 0 <= j < |fixed| ensures fixed[j].0 != "ClientInfo" {
        if j < |Head(r, s)| {
          assert fixed[j] == Head(r, s)[j];
        } else {
          assert fixed[j] == Signed(s, orderId, totalText)[j - |Head(r, s)|];
        }
      }
    }
    HasKeyAppend(fixed, info, "ClientInfo");
    assert Args(r, s, orderId, total) + rest == fixed + (info + rest);
    LookupSkip(fixed, info + rest, "ClientInfo");
  }

  /** The callback URL is sent exactly by the 4.x gateway files. */
  lemma CallbackUrlSent(r: Release, s: Site, orderId: string, total: int)
    ensures HasKey(Args(r, s, orderId, total), "PaymentConfirmedURL") <==> r.V411? || r.V402?
  {
    var head := Head(r, s);
    var signed := Signed(s, orderId, Php.IntToString(total));
    HasKeyAppend(head, signed, "PaymentConfirmedURL");
    HasKeyAppend(head + signed, ClientInfo(r, s), "PaymentConfirmedURL");
    HeadCallback(r, s);
    SignedNoCallback(s, orderId, Php.IntToString(total));
    ClientInfoNoCallback(r, s);
  }

  lemma HeadCallback(r: Release, s: Site)
    ensures HasKey(Head(r, s), "PaymentConfirmedURL") <==> r.V411? || r.V402?
  {
    var head := Head(r, s);
    if r.V411? || r.V402? {
      assert head[4].0 == "PaymentConfirmedURL";
    } else {
      forall i | 0 <= i < |head| ensures head[i].0 != "PaymentConfirmedURL" {
      }
    }
  }

  lemma SignedNoCallback(s: Site, orderId: string, totalText: string)
    ensures !HasKey(Signed(s, orderId, totalText), "PaymentConfirmedURL")
  {
    var signed := Signed(s, orderId, totalText);
    forall i | 0 <= i < |signed| ensures signed[i].0 != "PaymentConfirmedURL" {
    }
  }

  lemma ClientInfoNoCallback(r: Release, s: Site)
    ensures !HasKey(ClientInfo(r, s), "PaymentConfirmedURL")
  {
    var info := ClientInfo(r, s);
    forall i | 0 <= i < |info| ensures info[i].0 != "PaymentConfirmedURL" {
    }
  }

  // ------------------------------------------------------------ the form from 3.6.1 on

  /** A line item of the order, with the unit price and line subtotal
    * WooCommerce computes for it including tax. */
  datatype Line = Line(item: Item, itemSubtotal: Php.Number, lineSubtotal: Php.Number)

  /** The order as the forms from 3.6.1 on read it. A shipping or discount total of
    * None is one `is_numeric` rejects. */
  datatype Order = Order(
    total: Php.Value,
    shipping: Option<Php.Number>,
    discount: Option<Php.Number>,
    lines: seq<Line>,
    /** `$order->get_cancel_order_url()`. */
    cancelOrderUrl: string)

  predicate AllValid(lines: seq<Line>)
  {
    forall i :: 0 <= i < |lines| ==> ValidateItemArray(lines[i].item)
  }

  /** One item block: prices rounded to whole numbers and the quantity in
    * thousandths. */
  function ItemFields361(show: Php.Number -> string, line: Line): (r: Pairs)
    requires ValidateItemArray(line.item)
    ensures |r| == 5 && forall j :: 0 <= j < 5 ==> r[j].0 == PaymentForm.ItemKeys[j]
    ensures r[4].1 == Render(show, Php.MulInt(Php.NumberOf(Get(line.item, "qty")).value, 1000))
  {
    ValidationRules(line.item);
    [("ProductNo", Php.ToString(Get(line.item, "product_id"))),
     ("Name", Get(line.item, "name").s),
     ("UnitPrice", Php.IntToString(Php.Round(line.itemSubtotal))),
     ("Amount", Php.IntToString(Php.Round(line.lineSubtotal))),
     ("Quantity", Render(show, Php.MulInt(Php.NumberOf(Get(line.item, "qty")).value, 1000)))]
  }

  /** One block per line, in order. */
  function Blocks361(show: Php.Number -> string, lines: seq<Line>): (r: seq<Pairs>)
    requires AllValid(lines)
    ensures |r| == |lines|
    ensures forall i :: 0 <= i < |lines| ==> r[i] == ItemFields361(show, lines[i])
  {
    seq(|lines|, i requires 0 <= i < |lines| => ItemFields361(show, lines[i]))
  }

  /** One line that fails validation fails them all. */
  lemma InvalidLine(lines: seq<Line>, i: nat)
    requires i < |lines| && !ValidateItemArray(lines[i].item)
    ensures !AllValid(lines)
  {
  }

  /** Adding a valid line adds its block. */
  lemma Blocks361Snoc(show: Php.Number -> string, lines: seq<Line>, i: nat)
    requires i < |lines| && AllValid(lines[..i]) && ValidateItemArray(lines[i].item)
    ensures AllValid(lines[..i + 1])
    ensures Blocks361(show, lines[..i + 1]) == Blocks361(show, lines[..i]) + [ItemFields361(show, lines[i])]
  {
    AllValidSnoc(lines, i);
    var before := Blocks361(show, lines[..i]);
    var after := Blocks361(show, lines[..i + 1]);
    var block := ItemFields361(show, lines[i]);
    forall j | 0 <= j < |after| ensures after[j] == (before + [block])[j] {
      if j < i {
        assert lines[..i + 1][j] == lines[..i][j];
      }
    }
  }

  /** A valid line keeps a valid prefix valid. */
  lemma AllValidSnoc(lines: seq<Line>, i: nat)
    requires i < |lines| && AllValid(lines[..i]) && ValidateItemArray(lines[i].item)
    ensures AllValid(lines[..i + 1])
  {
    var upTo := lines[..i + 1];
    forall j | 0 <= j < |upTo| ensures ValidateItemArray(upTo[j].item) {
      if j < i {
        assert upTo[j] == lines[..i][j];
      }
    }
  }

  /** The total sent: the order total rounded to a whole number. */
  function Total361(o: Order): int
    requires Php.IsNumeric(o.total)
  {
    Php.Round(Php.NumberOf(o.total).value)
  }

  /**
   * `generate_netgiro_form` of 3.6.1, 4.0.2 and 4.1.1. The error text for an
   * empty order id, a total that is not numeric or an invalid item; the
   * item list of an order without items is never assigned and counting it
   * fails; the URL check fails only when both the gateway URL and the
   * cancel URL are invalid.
   */
  function FormSpec361(r: Release361, s: Site, orderId: string, o: Order): (f: Form)
    ensures f.ErrorMessage? <==>
              Php.EmptyString(orderId) || !Php.IsNumeric(o.total) || !AllValid(o.lines)
              || (o.lines != [] && !s.validUrl(s.gatewayUrl) && !s.validUrl(o.cancelOrderUrl))
    ensures f.TypeError? <==> !Php.EmptyString(orderId) && Php.IsNumeric(o.total) && o.lines == []
    ensures !f.DivisionByZero?
    ensures f.Form? ==> f.action == s.gatewayUrl
  {
    if Php.EmptyString(orderId) || !Php.IsNumeric(o.total) then ErrorMessage
    else if !AllValid(o.lines) then ErrorMessage
    else if o.lines == [] then TypeError
    else if !s.validUrl(s.gatewayUrl) && !s.validUrl(o.cancelOrderUrl) then ErrorMessage
    else Form(s.gatewayUrl, Args(r, s, orderId, Total361(o)) + Charges(o.shipping, o.discount) + ItemInputs(Blocks361(s.show, o.lines)))
  }

  /** `generate_netgiro_form` of 3.6.1, 4.0.2 and 4.1.1, step by step. */
  method GenerateNetgiroForm361(r: Release361, s: Site, orderId: string, o: Order) returns (form: Form)
    ensures form == FormSpec361(r, s, orderId, o)
  {
    if Php.EmptyString(orderId) {
      return ErrorMessage;
    }
    if !Php.IsNumeric(o.total) {
      return ErrorMessage;
    }
    var total := Php.Round(Php.NumberOf(o.total).value);
    var args := Args(r, s, orderId, total) + Charges(o.shipping, o.discount);
    var blocks := CollectBlocks361(s.show, o.lines);
    if blocks.None? {
      return ErrorMessage;
    }
    if |blocks.value| == 0 {
      return TypeError;
    }
    var inputs := EmitInputs(args, blocks.value);
    if !s.validUrl(s.gatewayUrl) && !s.validUrl(o.cancelOrderUrl) {
      return ErrorMessage;
    }
    form := Form(s.gatewayUrl, inputs);
  }

  /** The `foreach` over the order's items, which gives up at the first
    * item `validate_item_array` rejects. */
  method CollectBlocks361(show: Php.Number -> string, lines: seq<Line>) returns (blocks: Option<seq<Pairs>>)
    ensures blocks.Some? <==> AllValid(lines)
    ensures blocks.Some? ==> blocks.value == Blocks361(show, lines)
  {
    var collected: seq<Pairs> := [];
    for i := 0 to |lines|
      invariant AllValid(lines[..i])
      invariant collected == Blocks361(show, lines[..i])
    {
      if !ValidateItemArray(lines[i].item) {
        InvalidLine(lines, i);
        return None;
      }
      Blocks361Snoc(show, lines, i);
      collected := collected + [ItemFields361(show, lines[i])];
    }
    assert lines[..|lines|] == lines;
    blocks := Some(collected);
  }

  /** A form from 3.6.1 on signs the reference and the rounded total it sends, and
    * sends the callback URL except in the 3.6.1 plugin. */
  lemma FormSigned361(r: Release361, s: Site, orderId: string, o: Order)
    requires FormSpec361(r, s, orderId, o).Form?
    ensures var inputs := FormSpec361(r, s, orderId, o).inputs;
            Lookup(inputs, "ReferenceNumber") == Some(orderId)
            && Lookup(inputs, "TotalAmount") == Some(Php.IntToString(Total361(o)))
            && Lookup(inputs, "Signature")
               == Some(Signature.PaymentSignature(s.hash, s.secretKey, orderId, Php.IntToString(Total361(o)), s.applicationId))
            && (HasKey(inputs, "PaymentConfirmedURL") <==> r != V361)
  {
    FormInputs361(r, s, orderId, o);
    var rest := Charges(o.shipping, o.discount) + ItemInputs(Blocks361(s.show, o.lines));
    NoCallbackAfterArgs(o.shipping, o.discount, Blocks361(s.show, o.lines));
    ArgsSent(r, s, orderId, Total361(o), rest);
  }

  /** What the fields make of any inputs that follow them without a callback URL. */
  lemma ArgsSent(r: Release, s: Site, orderId: string, total: int, rest: Pairs)
    requires !HasKey(rest, "PaymentConfirmedURL")
    ensures var inputs := Args(r, s, orderId, total) + rest;
            Lookup(inputs, "ReferenceNumber") == Some(orderId)
            && Lookup(inputs, "TotalAmount") == Some(Php.IntToString(total))
            && Lookup(inputs, "Signature")
               == Some(Signature.PaymentSignature(s.hash, s.secretKey, orderId, Php.IntToString(total), s.applicationId))
            && (HasKey(inputs, "PaymentConfirmedURL") <==> r.V411? || r.V402?)
  {
    SignedFieldsSent(r, s, orderId, total, rest);
    CallbackUrlSent(r, s, orderId, total);
    HasKeyAppend(Args(r, s, orderId, total), rest, "PaymentConfirmedURL");
  }

  /** Neither the charges nor the item inputs carry a callback URL. */
  lemma NoCallbackAfterArgs(shipping: Option<Php.Number>, discount: Option<Php.Number>, blocks: seq<Pairs>)
    ensures !HasKey(Charges(shipping, discount) + ItemInputs(blocks), "PaymentConfirmedURL")
  {
    HasKeyAppend(Charges(shipping, discount), ItemInputs(blocks), "PaymentConfirmedURL");
    ItemInputsNamed(blocks, "PaymentConfirmedURL");
  }

  /** The inputs of a form from 3.6.1 on: the fields, the charges, the item blocks. */
  lemma FormInputs361(r: Release361, s: Site, orderId: string, o: Order)
    requires FormSpec361(r, s, orderId, o).Form?
    ensures AllValid(o.lines) && Php.IsNumeric(o.total)
    ensures FormSpec361(r, s, orderId, o).inputs
            == Args(r, s, orderId, Total361(o)) + (Charges(o.shipping, o.discount) + ItemInputs(Blocks361(s.show, o.lines)))
  {
  }

  /** Item inputs are all named `Items[…`, so no plain field name is among them. */
  lemma ItemInputsNamed(blocks: seq<Pairs>, k: string)
    requires |k| == 0 || k[0] != 'I'
    ensures !HasKey(ItemInputs(blocks), k)
  {
    var all: seq<Pairs> := BlockInputs(blocks);
    forall b: nat, j: nat | b < |all| && j < |all[b]| ensures |all[b][j].0| > 0 && all[b][j].0[0] == 'I' {
      assert all[b][j].0 == PaymentForm.ItemInputName(b, blocks[b][j].0);
    }
    FlattenNamed(all, k);
  }

  lemma {:induction false} FlattenNamed(blocks: seq<Pairs>, k: string)
    requires forall b :: 0 <= b < |blocks| ==> forall j :: 0 <= j < |blocks[b]| ==> |blocks[b][j].0| > 0 && blocks[b][j].0[0] == 'I'
    requires |k| == 0 || k[0] != 'I'
    ensures !HasKey(PaymentForm.Flatten(blocks), k)
    decreases |blocks|
  {
    if blocks != [] {
      var n := |blocks| - 1;
      FlattenNamed(blocks[..n], k);
      HasKeyAppend(PaymentForm.Flatten(blocks[..n]), blocks[n], k);
      forall j | 0 <= j < |blocks[n]| ensures blocks[n][j].0 != k {
        assert blocks[n][j].0[0] == 'I';
      }
    }
  }

  /** Block `i` of a form from 3.6.1 on carries line `i`, its quantity times 1000. */
  lemma ItemBlock361(show: Php.Number -> string, lines: seq<Line>, i: nat)
    requires AllValid(lines) && i < |lines|
    ensures var inputs := ItemInputs(Blocks361(show, lines));
            |inputs| == 5 * |lines|
            && inputs[5 * i + 4] == (PaymentForm.ItemInputName(i, "Quantity"),
                                     Render(show, Php.MulInt(Php.NumberOf(Get(lines[i].item, "qty")).value, 1000)))
  {
    var blocks := Blocks361(show, lines);
    assert blocks[i] == ItemFields361(show, lines[i]);
    ItemInputAt(blocks, i, 4);
  }
}
