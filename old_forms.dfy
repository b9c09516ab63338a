/**
 * The redirect forms of the 3.3.3 and 2.6.9 plugins. Neither validates the
 * order; both price the items by the `rounding` setting, and 2.6.9 works
 * the unit price out itself and lists the payment options the shop offers.
 */
module OldForms {
  import opened Wrappers
  import Php
  import Signature
  import opened Fields
  import PaymentForm
  import LegacyForm

  /** An amount printed as the rounding setting asks: rounded to a whole
    * number when it is 'yes', as PHP prints the number otherwise. */
  function Price(rounding: string, show: Php.Number -> string, x: Php.Number): string
  {
    if rounding == "yes" then Php.IntToString(Php.Round(x)) else LegacyForm.Render(show, x)
  }

  /** The quantity in thousandths, as PHP prints `$item['qty'] * 1000`. */
  function Thousandths(show: Php.Number -> string, qty: Php.Number): string
  {
    LegacyForm.Render(show, Php.MulInt(qty, 1000))
  }

  // ------------------------------------------------------------ 3.3.3

  /** A line item with the item and line subtotals WooCommerce computes. */
  datatype Line333 = Line333(
    productId: Php.Value, name: Php.Value, qty: Php.Number, itemSubtotal: Php.Number, lineSubtotal: Php.Number)

  datatype Order333 = Order333(total: Php.Number, shipping: Php.Number, discount: Php.Number, lines: seq<Line333>)

  function ItemFields333(show: Php.Number -> string, rounding: string, line: Line333): (r: Pairs)
    ensures |r| == 5 && forall j :: 0 <= j < 5 ==> r[j].0 == PaymentForm.ItemKeys[j]
  {
    [("ProductNo", Php.ToString(line.productId)),
     ("Name", Php.ToString(line.name)),
     ("UnitPrice", Price(rounding, show, line.itemSubtotal)),
     ("Amount", Price(rounding, show, line.lineSubtotal)),
     ("Quantity", Thousandths(show, line.qty))]
  }

  function Blocks333(show: Php.Number -> string, rounding: string, lines: seq<Line333>): (r: seq<Pairs>)
    ensures |r| == |lines|
    ensures forall i :: 0 <= i < |lines| ==> r[i] == ItemFields333(show, rounding, lines[i])
  {
    seq(|lines|, i requires 0 <= i < |lines| => ItemFields333(show, rounding, lines[i]))
  }

  /**
   * `generate_netgiro_form` of 3.3.3: no guard at all, so an order without
   * items fails on counting the never-assigned item list; otherwise the
   * fields, the positive charges and one block per item.
   */
  function FormSpec333(s: LegacyForm.Site, rounding: string, orderId: string, o: Order333): (f: LegacyForm.Form)
    ensures f.TypeError? <==> o.lines == []
    ensures f.Form? <==> o.lines != []
    ensures f.Form? ==> f.action == s.gatewayUrl
  {
    if o.lines == [] then LegacyForm.TypeError
    else
      LegacyForm.Form(s.gatewayUrl,
        LegacyForm.Args(LegacyForm.V333, s, orderId, Php.Round(o.total))
        + LegacyForm.Charges(Some(o.shipping), Some(o.discount))
        + LegacyForm.ItemInputs(Blocks333(s.show, rounding, o.lines)))
  }

  /** Adding a line adds its block. */
  lemma Blocks333Snoc(show: Php.Number -> string, rounding: string, lines: seq<Line333>, i: nat)
    requires i < |lines|
    ensures Blocks333(show, rounding, lines[..i + 1]) == Blocks333(show, rounding, lines[..i]) + [ItemFields333(show, rounding, lines[i])]
  {
    var upTo := lines[..i + 1];
    assert upTo[..i] == lines[..i] && upTo[i] == lines[i];
  }

  /** `generate_netgiro_form` of 3.3.3, step by step. */
  method GenerateNetgiroForm333(s: LegacyForm.Site, rounding: string, orderId: string, o: Order333)
    returns (form: LegacyForm.Form)
    ensures form == FormSpec333(s, rounding, orderId, o)
  {
    var args := LegacyForm.Args(LegacyForm.V333, s, orderId, Php.Round(o.total))
                + LegacyForm.Charges(Some(o.shipping), Some(o.discount));
    var blocks: seq<Pairs> := [];
    for i := 0 to |o.lines|
      invariant blocks == Blocks333(s.show, rounding, o.lines[..i])
    {
      Blocks333Snoc(s.show, rounding, o.lines, i);
      blocks := blocks + [ItemFields333(s.show, rounding, o.lines[i])];
    }
    assert o.lines[..|o.lines|] == o.lines;
    if |blocks| == 0 {
      return LegacyForm.TypeError;
    }
    var inputs := LegacyForm.EmitInputs(args, blocks);
    form := LegacyForm.Form(s.gatewayUrl, inputs);
  }

  /** A 3.3.3 form signs the reference and rounded total it sends, names the
    * plugin release, and sends no callback URL. */
  lemma FormSigned333(s: LegacyForm.Site, rounding: string, orderId: string, o: Order333)
    requires o.lines != []
    ensures var inputs := FormSpec333(s, rounding, orderId, o).inputs;
            Lookup(inputs, "ReferenceNumber") == Some(orderId)
            && Lookup(inputs, "TotalAmount") == Some(Php.IntToString(Php.Round(o.total)))
            && Lookup(inputs, "Signature")
               == Some(Signature.PaymentSignature(s.hash, s.secretKey, orderId, Php.IntToString(Php.Round(o.total)), s.applicationId))
            && Lookup(inputs, "ClientInfo") == Some("System: Woocommerce 3.3.3")
            && !HasKey(inputs, "PaymentConfirmedURL")
  {
    var blocks := Blocks333(s.show, rounding, o.lines);
    var rest := LegacyForm.Charges(Some(o.shipping), Some(o.discount)) + LegacyForm.ItemInputs(blocks);
    FormInputs333(s, rounding, orderId, o);
    LegacyForm.NoCallbackAfterArgs(Some(o.shipping), Some(o.discount), blocks);
    LegacyForm.ArgsSent(LegacyForm.V333, s, orderId, Php.Round(o.total), rest);
    LegacyForm.ClientInfoSent(LegacyForm.V333, s, orderId, Php.Round(o.total), rest);
  }

  lemma FormInputs333(s: LegacyForm.Site, rounding: string, orderId: string, o: Order333)
    requires o.lines != []
    ensures FormSpec333(s, rounding, orderId, o).inputs
            == LegacyForm.Args(LegacyForm.V333, s, orderId, Php.Round(o.total))
               + (LegacyForm.Charges(Some(o.shipping), Some(o.discount))
                  + LegacyForm.ItemInputs(Blocks333(s.show, rounding, o.lines)))
  {
  }

  /** Block `i` of a 3.3.3 form carries line `i`: its prices rounded
    * exactly when the rounding setting is 'yes', its quantity times 1000. */
  lemma ItemBlock333(show: Php.Number -> string, rounding: string, lines: seq<Line333>, i: nat)
    requires i < |lines|
    ensures var inputs := LegacyForm.ItemInputs(Blocks333(show, rounding, lines));
            |inputs| == 5 * |lines|
            && inputs[5 * i + 2].0 == PaymentForm.ItemInputName(i, "UnitPrice")
            && (rounding == "yes" ==> inputs[5 * i + 2].1 == Php.IntToString(Php.Round(lines[i].itemSubtotal))
                                      && inputs[5 * i + 3].1 == Php.IntToString(Php.Round(lines[i].lineSubtotal)))
            && (rounding != "yes" ==> inputs[5 * i + 2].1 == LegacyForm.Render(show, lines[i].itemSubtotal)
                                      && inputs[5 * i + 3].1 == LegacyForm.Render(show, lines[i].lineSubtotal))
            && inputs[5 * i + 4] == (PaymentForm.ItemInputName(i, "Quantity"), Thousandths(show, lines[i].qty))
  {
    var blocks := Blocks333(show, rounding, lines);
    assert blocks[i] == ItemFields333(show, rounding, lines[i]);
    LegacyForm.ItemInputAt(blocks, i, 2);
    LegacyForm.ItemInputAt(blocks, i, 3);
    LegacyForm.ItemInputAt(blocks, i, 4);
  }

  // ------------------------------------------------------------ 2.6.9

  /** A line item with its line total and line tax. */
  datatype Line269 = Line269(
    productId: Php.Value, name: Php.Value, qty: Php.Number, lineTotal: Php.Number, lineTax: Php.Number)

  datatype Order269 = Order269(total: Php.Number, shipping: Php.Number, discount: Php.Number, lines: seq<Line269>)

  /** The line total with tax. */
  function Gross(line: Line269): Php.Number
  {
    Php.Add(line.lineTotal, line.lineTax)
  }

  predicate NoZeroQuantity(lines: seq<Line269>)
  {
    forall i :: 0 <= i < |lines| ==> !Php.IsZero(lines[i].qty)
  }

  /** One block: the unit price is the gross line total over the quantity. */
  function ItemFields269(show: Php.Number -> string, rounding: string, line: Line269): (r: Pairs)
    requires !Php.IsZero(line.qty)
    ensures |r| == 5 && forall j :: 0 <= j < 5 ==> r[j].0 == PaymentForm.ItemKeys[j]
  {
    [("ProductNo", Php.ToString(line.productId)),
     ("Name", Php.ToString(line.name)),
     ("UnitPrice", Price(rounding, show, Php.Div(Gross(line), line.qty).value)),
     ("Amount", Price(rounding, show, Gross(line))),
     ("Quantity", Thousandths(show, line.qty))]
  }

  function Blocks269(show: Php.Number -> string, rounding: string, lines: seq<Line269>): (r: seq<Pairs>)
    requires NoZeroQuantity(lines)
    ensures |r| == |lines|
    ensures forall i :: 0 <= i < |lines| ==> r[i] == ItemFields269(show, rounding, lines[i])
  {
    seq(|lines|, i requires 0 <= i < |lines| && !Php.IsZero(lines[i].qty) => ItemFields269(show, rounding, lines[i]))
  }

  /**
   * `generate_netgiro_form` of 2.6.9: the unit price divides by the
   * quantity whatever the rounding setting, so an item of quantity zero
   * ends the request; an order without items fails on counting the item
   * list; otherwise the fields without client information, the positive
   * charges and one block per item.
   */
  function FormSpec269(s: LegacyForm.Site, rounding: string, orderId: string, o: Order269): (f: LegacyForm.Form)
    ensures f.DivisionByZero? <==> exists i :: 0 <= i < |o.lines| && Php.IsZero(o.lines[i].qty)
    ensures f.TypeError? <==> o.lines == []
    ensures f.Form? <==> o.lines != [] && NoZeroQuantity(o.lines)
    ensures f.Form? ==> f.action == s.gatewayUrl
  {
    if !NoZeroQuantity(o.lines) then LegacyForm.DivisionByZero
    else if o.lines == [] then LegacyForm.TypeError
    else
      LegacyForm.Form(s.gatewayUrl,
        LegacyForm.Args(LegacyForm.V269, s, orderId, Php.Round(o.total))
        + LegacyForm.Charges(Some(o.shipping), Some(o.discount))
        + LegacyForm.ItemInputs(Blocks269(s.show, rounding, o.lines)))
  }

  /** `generate_netgiro_form` of 2.6.9, step by step. */
  method GenerateNetgiroForm269(s: LegacyForm.Site, rounding: string, orderId: string, o: Order269)
    returns (form: LegacyForm.Form)
    ensures form == FormSpec269(s, rounding, orderId, o)
  {
    var args := LegacyForm.Args(LegacyForm.V269, s, orderId, Php.Round(o.total))
                + LegacyForm.Charges(Some(o.shipping), Some(o.discount));
    var blocks := CollectBlocks269(s.show, rounding, o.lines);
    if blocks.None? {
      return LegacyForm.DivisionByZero;
    }
    if |blocks.value| == 0 {
      return LegacyForm.TypeError;
    }
    var inputs := LegacyForm.EmitInputs(args, blocks.value);
    form := LegacyForm.Form(s.gatewayUrl, inputs);
  }

  /** The `foreach` over the items, which stops at the first division by a
    * zero quantity. */
  method CollectBlocks269(show: Php.Number -> string, rounding: string, lines: seq<Line269>)
    returns (blocks: Option<seq<Pairs>>)
    ensures blocks.Some? <==> NoZeroQuantity(lines)
    ensures blocks.Some? ==> blocks.value == Blocks269(show, rounding, lines)
  {
    var collected: seq<Pairs> := [];
    for i := 0 to |lines|
      invariant NoZeroQuantity(lines[..i])
      invariant collected == Blocks269(show, rounding, lines[..i])
    {
      if Php.IsZero(lines[i].qty) {
        assert !NoZeroQuantity(lines);
        return None;
      }
      ghost var upTo := lines[..i + 1];
      assert upTo[..i] == lines[..i] && upTo[i] == lines[i];
      assert NoZeroQuantity(upTo) by {
        forall j | 0 <= j < |upTo| ensures !Php.IsZero(upTo[j].qty) {
          if j < i {
            assert upTo[j] == lines[..i][j];
          }
        }
      }
      collected := collected + [ItemFields269(show, rounding, lines[i])];
    }
    assert lines[..|lines|] == lines;
    blocks := Some(collected);
  }

  /** A 2.6.9 form signs the reference and rounded total it sends and sends
    * neither client information nor a callback URL. */
  lemma FormSigned269(s: LegacyForm.Site, rounding: string, orderId: string, o: Order269)
    requires FormSpec269(s, rounding, orderId, o).Form?
    ensures var inputs := FormSpec269(s, rounding, orderId, o).inputs;
            Lookup(inputs, "ReferenceNumber") == Some(orderId)
            && Lookup(inputs, "TotalAmount") == Some(Php.IntToString(Php.Round(o.total)))
            && Lookup(inputs, "Signature")
               == Some(Signature.PaymentSignature(s.hash, s.secretKey, orderId, Php.IntToString(Php.Round(o.total)), s.applicationId))
            && !HasKey(LegacyForm.Args(LegacyForm.V269, s, orderId, Php.Round(o.total)), "ClientInfo")
            && !HasKey(inputs, "PaymentConfirmedURL")
  {
    var blocks := Blocks269(s.show, rounding, o.lines);
    var rest := LegacyForm.Charges(Some(o.shipping), Some(o.discount)) + LegacyForm.ItemInputs(blocks);
    FormInputs269(s, rounding, orderId, o);
    LegacyForm.NoCallbackAfterArgs(Some(o.shipping), Some(o.discount), blocks);
    LegacyForm.ArgsSent(LegacyForm.V269, s, orderId, Php.Round(o.total), rest);
    LegacyForm.ClientInfoSent(LegacyForm.V269, s, orderId, Php.Round(o.total), rest);
  }

  lemma FormInputs269(s: LegacyForm.Site, rounding: string, orderId: string, o: Order269)
    requires FormSpec269(s, rounding, orderId, o).Form?
    ensures NoZeroQuantity(o.lines)
    ensures FormSpec269(s, rounding, orderId, o).inputs
            == LegacyForm.Args(LegacyForm.V269, s, orderId, Php.Round(o.total))
               + (LegacyForm.Charges(Some(o.shipping), Some(o.discount))
                  + LegacyForm.ItemInputs(Blocks269(s.show, rounding, o.lines)))
  {
  }

  /**
   * With rounding 'yes', the unit price a 2.6.9 block sends is the gross
   * line total over the quantity rounded to a whole number, so the unit
   * price times the quantity misses the gross total by at most half the
   * quantity: |u × qty − gross| ≤ |qty| / 2, written over a common
   * denominator.
   */
  lemma SentUnitPriceNearGross269(show: Php.Number -> string, line: Line269)
    requires !Php.IsZero(line.qty)
    ensures var u := Php.Round(Php.Div(Gross(line), line.qty).value);
            ItemFields269(show, "yes", line)[2] == ("UnitPrice", Php.IntToString(u))
            && RoundedQuotientClose(Gross(line), line.qty, u)
  {
    RoundedQuotientBound(Gross(line), line.qty);
  }

  /** |u × q − g| ≤ |q| / 2, over the common denominator 2 × q.den × g.den. */
  predicate RoundedQuotientClose(g: Php.Number, q: Php.Number, u: int)
  {
    var bound := (if q.num < 0 then -q.num else q.num) * g.den;
    -bound <= 2 * (u * q.num * g.den - g.num * q.den) <= bound
  }

  lemma RoundedQuotientBound(g: Php.Number, q: Php.Number)
    requires !Php.IsZero(q)
    ensures RoundedQuotientClose(g, q, Php.Round(Php.Div(g, q).value))
  {
    var x := Php.Div(g, q).value;
    Php.RoundBounds(x);
    QuotientWithinHalf(g, q, x, Php.Round(x));
  }

  /** Any u within half a unit of g / q is within half of q of g once
    * multiplied back. */
  lemma QuotientWithinHalf(g: Php.Number, q: Php.Number, x: Php.Number, u: int)
    requires !Php.IsZero(q) && x == Php.Div(g, q).value
    requires -(x.den as int) <= 2 * (u * x.den - x.num) <= x.den
    ensures RoundedQuotientClose(g, q, u)
  {
    var a := u * q.num * g.den;
    var b := g.num * q.den;
    var ux := u * x.den;
    assert x.den == (if q.num < 0 then -q.num else q.num) * g.den;
    if q.num > 0 {
      assert x.num == b && ux == a;
      HalfUnitMiss(ux, x.num, x.den, a, b);
    } else {
      assert x.num == -b && ux == -a;
      HalfUnitMiss(ux, x.num, x.den, -a, -b);
    }
  }

  lemma HalfUnitMiss(ux: int, xnum: int, xden: int, a: int, b: int)
    requires -xden <= 2 * (ux - xnum) <= xden
    requires ux == a && xnum == b
    ensures -xden <= 2 * (a - b) <= xden && -xden <= 2 * (b - a) <= xden
  {
  }

  /** Block `i` of a 2.6.9 form: the unit price is the gross line total
    * over the quantity, and both are rounded exactly when the rounding
    * setting is 'yes'. */
  lemma ItemBlock269(show: Php.Number -> string, rounding: string, lines: seq<Line269>, i: nat)
    requires NoZeroQuantity(lines) && i < |lines|
    ensures var inputs := LegacyForm.ItemInputs(Blocks269(show, rounding, lines));
            |inputs| == 5 * |lines|
            && inputs[5 * i + 2] == (PaymentForm.ItemInputName(i, "UnitPrice"),
                                     Price(rounding, show, Php.Div(Gross(lines[i]), lines[i].qty).value))
            && inputs[5 * i + 3] == (PaymentForm.ItemInputName(i, "Amount"), Price(rounding, show, Gross(lines[i])))
            && inputs[5 * i + 4] == (PaymentForm.ItemInputName(i, "Quantity"), Thousandths(show, lines[i].qty))
  {
    var blocks := Blocks269(show, rounding, lines);
    assert blocks[i] == ItemFields269(show, rounding, lines[i]);
    LegacyForm.ItemInputAt(blocks, i, 2);
    LegacyForm.ItemInputAt(blocks, i, 3);
    LegacyForm.ItemInputAt(blocks, i, 4);
  }

  // ------------------------------------------------------------ payment options

  /** The three payment option settings of 2.6.9. */
  datatype OptionSettings = OptionSettings(fourteenDays: string, partialPayments: string, partialPaymentsWithoutInterests: string)

  /** The `PaymentOption` radio values offered, in the order they are listed. */
  function PaymentOptions(o: OptionSettings): (r: seq<int>)
    ensures 1 in r <==> o.fourteenDays == "yes"
    ensures 2 in r <==> o.partialPayments == "yes"
    ensures 3 in r <==> o.partialPaymentsWithoutInterests == "yes"
    ensures forall i, j :: 0 <= i < j < |r| ==> r[i] < r[j]
  {
    (if o.fourteenDays == "yes" then [1] else [])
    + (if o.partialPayments == "yes" then [2] else [])
    + (if o.partialPaymentsWithoutInterests == "yes" then [3] else [])
  }

  /** The branding script's flag for a payment option; only the last one
    * has no trailing comma. */
  function ShowFlag(option: int): string
  {
    if option == 1 then "showP1: true," else if option == 2 then "showP2: true," else "showP3: true"
  }

  function ShowFlags(options: seq<int>): string
  {
    if options == [] then "" else ShowFlag(options[0]) + ShowFlags(options[1..])
  }

  const BrandingOpen := "netgiro.branding.options = { "
  const BrandingClose := " } "

  /** `$methods_init`, built by appending a flag per offered option. */
  function BrandingOptions(o: OptionSettings): string
  {
    BrandingOpen
    + (if o.fourteenDays == "yes" then "showP1: true," else "")
    + (if o.partialPayments == "yes" then "showP2: true," else "")
    + (if o.partialPaymentsWithoutInterests == "yes" then "showP3: true" else "")
    + BrandingClose
  }

  /** The branding script shows exactly the options the form lists, in the
    * same order. */
  lemma BrandingMatchesOptions(o: OptionSettings)
    ensures BrandingOptions(o) == BrandingOpen + ShowFlags(PaymentOptions(o)) + BrandingClose
  {
    var a: seq<int> := if o.fourteenDays == "yes" then [1] else [];
    var b: seq<int> := if o.partialPayments == "yes" then [2] else [];
    var c: seq<int> := if o.partialPaymentsWithoutInterests == "yes" then [3] else [];
    var x := if o.fourteenDays == "yes" then "showP1: true," else "";
    var y := if o.partialPayments == "yes" then "showP2: true," else "";
    var z := if o.partialPaymentsWithoutInterests == "yes" then "showP3: true" else "";
    assert ShowFlags(a) == x by { ShowFlagsOne(a); }
    assert ShowFlags(b) == y by { ShowFlagsOne(b); }
    assert ShowFlags(c) == z by { ShowFlagsOne(c); }
    ShowFlagsAppend(a, b + c);
    ShowFlagsAppend(b, c);
    assert PaymentOptions(o) == a + (b + c);
    assert ShowFlags(PaymentOptions(o)) == x + (y + z);
    var open, close := BrandingOpen, BrandingClose;
    assert BrandingOptions(o) == open + x + y + z + close;
    Regroup(open, x, y, z, close);
  }

  lemma Regroup(open: string, x: string, y: string, z: string, close: string)
    ensures open + x + y + z + close == open + (x + (y + z)) + close
  {
  }

  lemma ShowFlagsOne(a: seq<int>)
    requires |a| <= 1
    ensures ShowFlags(a) == if a == [] then "" else ShowFlag(a[0])
  {
    if a != [] {
      assert a[1..] == [];
    }
  }

  lemma {:induction false} ShowFlagsAppend(a: seq<int>, b: seq<int>)
    ensures ShowFlags(a + b) == ShowFlags(a) + ShowFlags(b)
    decreases |a|
  {
    if a == [] {
      assert a + b == b;
    } else {
      assert (a + b)[1..] == a[1..] + b;
      ShowFlagsAppend(a[1..], b);
    }
  }
}
