/**
  Assembly and totals of an imported order: the line builders of
  multichannel_order/utils/order_processing_helper.py, the unit conversion of the product lines and
  `_amount_all` (multichannel_order/models/sale_order.py). Amounts are exact reals.
*/
module OrderTotals {
  import opened Wrappers

  datatype FeeKind = Shipping | Handling | Wrapping | OtherFees

  const FEE_KINDS := [Shipping, Handling, Wrapping, OtherFees]

  /** What an order line is; sections and notes carry neither a quantity nor a price. */
  datatype Kind = Section | Note | Discount | Coupon(code: string) | Fee(fee: FeeKind) | Tax | Item(product: nat)

  datatype Line = Line(kind: Kind, qty: real, price: real, subtotal: real, priceTax: real)

  /** A line as the builders write it, with every tax cleared. */
  function Untaxed(kind: Kind, qty: real, price: real): Line {
    Line(kind, qty, price, qty * price, 0.0)
  }

  /** How the product of a channel line was found; `Unknown` stands for the two validation errors. */
  datatype Match = Unknown | Plain(product: nat) | Mapped(product: nat, mappingQuantity: real)

  datatype ChannelLine = ChannelLine(found: Match, quantity: real, price: real)

  datatype CouponUse = CouponUse(code: string, amount: real)

  datatype OrderData = OrderData(
    discount: real, discountNotes: seq<string>, coupons: seq<CouponUse>,
    shipping: real, handling: real, wrapping: real, otherFees: real,
    taxes: seq<real>, taxNotes: seq<string>, items: seq<ChannelLine>)
  {
    function Cost(k: FeeKind): real {
      match k
      case Shipping => shipping
      case Handling => handling
      case Wrapping => wrapping
      case OtherFees => otherFees
    }
  }

  datatype Error = NoProduct | DivisionByZero

  /** `float_round(x, precision_digits=2)`: to the nearest cent, halves away from zero. */
  function Round2(x: real): real { Cents(x) as real / 100.0 }

  function Cents(x: real): int {
    if x >= 0.0 then (x * 100.0 + 0.5).Floor else -(-x * 100.0 + 0.5).Floor
  }

  /** `float_compare(x, 0, precision_digits=2) > 0`. */
  predicate Positive(x: real) { Cents(x) > 0 }

  function Abs(x: real): real { if x < 0.0 then -x else x }

  function Heading(): Line { Untaxed(Section, 0.0, 0.0) }

  function CouponLines(coupons: seq<CouponUse>): seq<Line> {
    if coupons == [] then []
    else
      var c := coupons[|coupons| - 1];
      CouponLines(coupons[..|coupons| - 1]) + [Untaxed(Coupon(c.code), 1.0, -c.amount)]
  }

  function DiscountHead(any: bool): seq<Line> {
    if any then [Heading()] else []
  }

  function DiscountBody(has: bool, amount: real, notes: bool): seq<Line> {
    if has then [Untaxed(Discount, 1.0, -amount)] + (if notes then [Untaxed(Note, 0.0, 0.0)] else []) else []
  }

  function DiscountLines(data: OrderData): seq<Line> {
    var has := Positive(data.discount);
    DiscountHead(has || data.coupons != []) + DiscountBody(has, data.discount, data.discountNotes != [])
      + CouponLines(data.coupons)
  }

  function FeesOf(data: OrderData, kinds: seq<FeeKind>): seq<Line> {
    if kinds == [] then []
    else
      var k := kinds[|kinds| - 1];
      FeesOf(data, kinds[..|kinds| - 1]) + if Positive(data.Cost(k)) then [Untaxed(Fee(k), 1.0, data.Cost(k))] else []
  }

  function FeeLines(data: OrderData): seq<Line> {
    var fees := FeesOf(data, FEE_KINDS);
    fees + if fees != [] then [Heading()] else []
  }

  function TaxesOf(taxes: seq<real>): seq<Line> {
    if taxes == [] then []
    else
      var t := taxes[|taxes| - 1];
      TaxesOf(taxes[..|taxes| - 1]) + if Positive(t) then [Untaxed(Tax, 1.0, t)] else []
  }

  function TaxLines(data: OrderData): seq<Line> {
    if data.taxes == [] then []
    else
      (if TaxesOf(data.taxes) != [] then [Heading()] + TaxesOf(data.taxes) else [])
      + (if data.taxNotes != [] then [Untaxed(Note, 0.0, 0.0)] else [])
  }

  /** A line of a listing that packs `mq` units: more units, each at its rounded share of the price. */
  function Converted(p: nat, quantity: real, price: real, mq: real): Line
    requires mq != 0.0
  {
    Untaxed(Item(p), quantity * mq, Round2(price / mq))
  }

  function ItemLine(c: ChannelLine): Result<Line, Error> {
    match c.found
    case Unknown => Err(NoProduct)
    case Plain(p) => Ok(Untaxed(Item(p), c.quantity, c.price))
    case Mapped(p, mq) =>
      if mq == 0.0 then Err(DivisionByZero)
      else Ok(Converted(p, c.quantity, c.price, mq))
  }

  function ItemLines(items: seq<ChannelLine>): Result<seq<Line>, Error> {
    if items == [] then Ok([])
    else
      match ItemLines(items[..|items| - 1])
      case Err(e) => Err(e)
      case Ok(front) =>
        match ItemLine(items[|items| - 1])
        case Err(e) => Err(e)
        case Ok(l) => Ok(front + [l])
  }

  /** The lines an import gives the order, or the error that stops it. */
  function Imported(data: OrderData): Result<seq<Line>, Error> {
    match ItemLines(data.items)
    case Err(e) => Err(e)
    case Ok(items) => Ok(DiscountLines(data) + FeeLines(data) + TaxLines(data) + items)
  }

  method ProcessDiscountLines(data: OrderData) returns (lines: seq<Line>)
    ensures lines == DiscountLines(data)
  {
    lines := [];
    var hasDiscount := Positive(data.discount);
    if hasDiscount || data.coupons != [] {
      lines := lines + [Heading()];
    }
    if hasDiscount {
      lines := lines + [Untaxed(Discount, 1.0, -data.discount)];
      if data.discountNotes != [] {
        lines := lines + [Untaxed(Note, 0.0, 0.0)];
      }
    }
    ghost var head := lines;
    assert head + CouponLines([]) == head;
    for i := 0 to |data.coupons|
      invariant lines == head + CouponLines(data.coupons[..i])
    {
      var c := data.coupons[i];
      assert data.coupons[..i + 1][..i] == data.coupons[..i];
      lines := lines + [Untaxed(Coupon(c.code), 1.0, -c.amount)];
    }
    assert data.coupons[..|data.coupons|] == data.coupons;
  }

  method ProcessFeeLines(data: OrderData) returns (lines: seq<Line>)
    ensures lines == FeeLines(data)
  {
    lines := [];
    for i := 0 to |FEE_KINDS|
      invariant lines == FeesOf(data, FEE_KINDS[..i])
    {
      var key := FEE_KINDS[i];
      assert FEE_KINDS[..i + 1][..i] == FEE_KINDS[..i];
      if Positive(data.Cost(key)) {
        lines := lines + [Untaxed(Fee(key), 1.0, data.Cost(key))];
      }
    }
    assert FEE_KINDS[..|FEE_KINDS|] == FEE_KINDS;
    if lines != [] {
      lines := lines + [Heading()];
    }
  }

  method ProcessTaxLines(data: OrderData) returns (lines: seq<Line>)
    ensures lines == TaxLines(data)
  {
    lines := [];
    if data.taxes != [] {
      var taxVals: seq<Line> := [];
      for i := 0 to |data.taxes|
        invariant taxVals == TaxesOf(data.taxes[..i])
      {
        assert data.taxes[..i + 1][..i] == data.taxes[..i];
        if Positive(data.taxes[i]) {
          taxVals := taxVals + [Untaxed(Tax, 1.0, data.taxes[i])];
        }
      }
      assert data.taxes[..|data.taxes|] == data.taxes;
      if taxVals != [] {
        lines := [Heading()] + taxVals;
      }
      if data.taxNotes != [] {
        lines := lines + [Untaxed(Note, 0.0, 0.0)];
      }
    }
  }

  lemma {:induction false} FailsEarly(items: seq<ChannelLine>, n: nat)
    requires n <= |items| && ItemLines(items[..n]).Err?
    ensures ItemLines(items) == Err(ItemLines(items[..n]).error)
    decreases |items|
  {
    if n == |items| {
      assert items[..n] == items;
    } else {
      assert items[..|items| - 1][..n] == items[..n];
      FailsEarly(items[..|items| - 1], n);
    }
  }

  /** `_prepare_imported_order_lines`: the first line that cannot be converted stops the import. */
  method PrepareImportedOrderLines(items: seq<ChannelLine>) returns (r: Result<seq<Line>, Error>)
    ensures r == ItemLines(items)
  {
    var vals: seq<Line> := [];
    for i := 0 to |items|
      invariant |vals| == i && ItemLines(items[..i]) == Ok(vals)
    {
      assert items[..i + 1][..i] == items[..i];
      var c := items[i];
      match c.found {
        case Unknown =>
          FailsEarly(items, i + 1);
          return Err(NoProduct);
        case Plain(p) =>
          vals := vals + [Untaxed(Item(p), c.quantity, c.price)];
        case Mapped(p, mq) =>
          if mq == 0.0 {
            FailsEarly(items, i + 1);
            return Err(DivisionByZero);
          }
          vals := vals + [Converted(p, c.quantity, c.price, mq)];
      }
    }
    assert items[..|items|] == items;
    r := Ok(vals);
  }

  /** Subtotals of the lines marked as tax, or of the others. */
  function Subtotals(lines: seq<Line>, tax: bool): real {
    if lines == [] then 0.0
    else
      var l := lines[|lines| - 1];
      Subtotals(lines[..|lines| - 1], tax) + if l.kind.Tax? == tax then l.subtotal else 0.0
  }

  /** The taxes computed on the lines that are not tax lines themselves. */
  function LineTaxes(lines: seq<Line>): real {
    if lines == [] then 0.0
    else
      var l := lines[|lines| - 1];
      LineTaxes(lines[..|lines| - 1]) + if l.kind.Tax? then 0.0 else l.priceTax
  }

  class SaleOrder {
    var lines: seq<Line>
    var amountUntaxed: real
    var amountTax: real
    var amountTotal: real

    /** The totals a user sees fit the lines. */
    ghost predicate Totalled()
      reads this
    {
      && amountUntaxed == Subtotals(lines, false)
      && amountTax == Subtotals(lines, true) + LineTaxes(lines)
      && amountTotal == amountUntaxed + amountTax == OrderWorth(lines)
    }

    constructor ()
      ensures lines == [] && Totalled()
    {
      lines, amountUntaxed, amountTax, amountTotal := [], 0.0, 0.0, 0.0;
    }

    /** `_amount_all`. */
    method AmountAll()
      modifies this`amountUntaxed, this`amountTax, this`amountTotal
      ensures Totalled()
    {
      var untaxed, tax := 0.0, 0.0;
      for i := 0 to |lines|
        invariant untaxed == Subtotals(lines[..i], false)
        invariant tax == Subtotals(lines[..i], true) + LineTaxes(lines[..i])
      {
        assert lines[..i + 1][..i] == lines[..i];
        if lines[i].kind.Tax? {
          tax := tax + lines[i].subtotal;
        } else {
          untaxed := untaxed + lines[i].subtotal;
          tax := tax + lines[i].priceTax;
        }
      }
      assert lines[..|lines|] == lines;
      amountUntaxed, amountTax, amountTotal := untaxed, tax, untaxed + tax;
    }

    /** The whole import: build, convert, store (the first command clears the old lines), total. */
    method Import(data: OrderData) returns (r: Option<Error>)
      requires Totalled()
      modifies this
      ensures Totalled()
      ensures match Imported(data)
              case Err(e) => r == Some(e) && lines == old(lines)
              case Ok(ls) => r == None && lines == ls
    {
      var discounts := ProcessDiscountLines(data);
      var fees := ProcessFeeLines(data);
      var taxes := ProcessTaxLines(data);
      var items := PrepareImportedOrderLines(data.items);
      match items {
        case Err(e) => return Some(e);
        case Ok(ls) =>
          lines := discounts + fees + taxes + ls;
          AmountAll();
          r := None;
      }
    }
  }

  // ---- what the order is worth ----

  /** An amount counts in full when it is at least half a cent, and not at all otherwise. */
  function Kept(x: real): real { if x >= 0.005 then x else 0.0 }

  function KeptSum(s: seq<real>): real {
    if s == [] then 0.0 else KeptSum(s[..|s| - 1]) + Kept(s[|s| - 1])
  }

  function Sum(s: seq<real>): real {
    if s == [] then 0.0 else Sum(s[..|s| - 1]) + s[|s| - 1]
  }

  function CouponSum(coupons: seq<CouponUse>): real {
    if coupons == [] then 0.0 else CouponSum(coupons[..|coupons| - 1]) + coupons[|coupons| - 1].amount
  }

  function KeptFees(data: OrderData): real {
    Kept(data.shipping) + Kept(data.handling) + Kept(data.wrapping) + Kept(data.otherFees)
  }

  function SumBy(items: seq<ChannelLine>, f: ChannelLine -> real): real {
    if items == [] then 0.0 else SumBy(items[..|items| - 1], f) + f(items[|items| - 1])
  }

  function ChannelWorth(c: ChannelLine): real { c.quantity * c.price }

  /** What rounding can do to one line: half a cent for every unit of a converted one. */
  function LineBound(c: ChannelLine): real {
    if c.found.Mapped? then Abs(c.quantity * c.found.mappingQuantity) * 0.005 else 0.0
  }

  /** The channel's own worth of its product lines. */
  function ItemSum(items: seq<ChannelLine>): real { SumBy(items, ChannelWorth) }

  function RoundingBound(items: seq<ChannelLine>): real { SumBy(items, LineBound) }

  lemma RoundedClose(x: real)
    ensures -0.005 <= Round2(x) - x <= 0.005
    ensures Positive(x) <==> x >= 0.005
  {
    var y := if x >= 0.0 then x else -x;
    var f := (y * 100.0 + 0.5).Floor;
    assert f as real <= y * 100.0 + 0.5 < f as real + 1.0;
    if y >= 0.005 { assert f >= 1; } else { assert f <= 0; }
  }

  lemma {:induction false} SubtotalsConcat(a: seq<Line>, b: seq<Line>, tax: bool)
    ensures Subtotals(a + b, tax) == Subtotals(a, tax) + Subtotals(b, tax)
    ensures LineTaxes(a + b) == LineTaxes(a) + LineTaxes(b)
  {
    if b == [] {
      assert a + b == a;
    } else {
      assert (a + b)[..|a + b| - 1] == a + b[..|b| - 1];
      SubtotalsConcat(a, b[..|b| - 1], tax);
    }
  }

  lemma SingleSubtotal(l: Line, tax: bool)
    ensures Subtotals([l], tax) == if l.kind.Tax? == tax then l.subtotal else 0.0
    ensures LineTaxes([l]) == if l.kind.Tax? then 0.0 else l.priceTax
  {
    assert [l][..0] == [];
  }

  lemma SnocSubtotal(ls: seq<Line>, l: Line, tax: bool)
    ensures Subtotals(ls + [l], tax) == Subtotals(ls, tax) + if l.kind.Tax? == tax then l.subtotal else 0.0
    ensures LineTaxes(ls + [l]) == LineTaxes(ls) + if l.kind.Tax? then 0.0 else l.priceTax
  {
    assert (ls + [l])[..|ls|] == ls;
  }

  lemma DiscountBodyWorth(any: bool, has: bool, amount: real, notes: bool, tax: bool)
    ensures Subtotals(DiscountHead(any), tax) == 0.0 && LineTaxes(DiscountHead(any)) == 0.0
    ensures Subtotals(DiscountBody(has, amount, notes), tax) == if !tax && has then -amount else 0.0
    ensures LineTaxes(DiscountBody(has, amount, notes)) == 0.0
  {
    SingleSubtotal(Heading(), tax);
    var one := Untaxed(Discount, 1.0, -amount);
    SingleSubtotal(one, tax);
    SnocSubtotal([one], Untaxed(Note, 0.0, 0.0), tax);
    assert [one] + [] == [one];
  }

  lemma ThreeParts(a: seq<Line>, b: seq<Line>, c: seq<Line>, tax: bool)
    ensures Subtotals(a + b + c, tax) == Subtotals(a, tax) + Subtotals(b, tax) + Subtotals(c, tax)
    ensures LineTaxes(a + b + c) == LineTaxes(a) + LineTaxes(b) + LineTaxes(c)
  {
    SubtotalsConcat(a, b, tax);
    SubtotalsConcat(a + b, c, tax);
  }

  lemma PositiveKept(x: real)
    ensures Kept(x) == if Positive(x) then x else 0.0
  {
    RoundedClose(x);
  }

  /** The discount side takes the kept discount and every coupon off, whatever sections and notes it has. */
  lemma DiscountWorth(data: OrderData, tax: bool)
    ensures Subtotals(DiscountLines(data), tax) == if tax then 0.0 else -Kept(data.discount) - CouponSum(data.coupons)
    ensures LineTaxes(DiscountLines(data)) == 0.0
  {
    var has := Positive(data.discount);
    PositiveKept(data.discount);
    DiscountBodyWorth(has || data.coupons != [], has, data.discount, data.discountNotes != [], tax);
    CouponWorth(data.coupons);
    ThreeParts(DiscountHead(has || data.coupons != []), DiscountBody(has, data.discount, data.discountNotes != []),
               CouponLines(data.coupons), tax);
  }

  lemma {:induction false} CouponWorth(coupons: seq<CouponUse>)
    ensures Subtotals(CouponLines(coupons), false) == -CouponSum(coupons)
    ensures Subtotals(CouponLines(coupons), true) == 0.0 && LineTaxes(CouponLines(coupons)) == 0.0
  {
    if coupons != [] {
      var c := coupons[|coupons| - 1];
      CouponWorth(coupons[..|coupons| - 1]);
      SnocSubtotal(CouponLines(coupons[..|coupons| - 1]), Untaxed(Coupon(c.code), 1.0, -c.amount), false);
      SnocSubtotal(CouponLines(coupons[..|coupons| - 1]), Untaxed(Coupon(c.code), 1.0, -c.amount), true);
    }
  }

  lemma FeeStep(data: OrderData, kinds: seq<FeeKind>, k: FeeKind)
    ensures Subtotals(FeesOf(data, kinds + [k]), false) == Subtotals(FeesOf(data, kinds), false) + Kept(data.Cost(k))
    ensures Subtotals(FeesOf(data, kinds + [k]), true) == Subtotals(FeesOf(data, kinds), true)
    ensures LineTaxes(FeesOf(data, kinds + [k])) == LineTaxes(FeesOf(data, kinds))
  {
    RoundedClose(data.Cost(k));
    assert (kinds + [k])[..|kinds|] == kinds;
    var l := Untaxed(Fee(k), 1.0, data.Cost(k));
    SnocSubtotal(FeesOf(data, kinds), l, false);
    SnocSubtotal(FeesOf(data, kinds), l, true);
    assert FeesOf(data, kinds) + [] == FeesOf(data, kinds);
  }

  lemma AllFees(data: OrderData)
    ensures Subtotals(FeesOf(data, FEE_KINDS), false) == KeptFees(data)
    ensures Subtotals(FeesOf(data, FEE_KINDS), true) == 0.0 && LineTaxes(FeesOf(data, FEE_KINDS)) == 0.0
  {
    var none: seq<FeeKind> := [];
    var one := none + [Shipping];
    var two := one + [Handling];
    var three := two + [Wrapping];
    FeeStep(data, none, Shipping);
    FeeStep(data, one, Handling);
    FeeStep(data, two, Wrapping);
    FeeStep(data, three, OtherFees);
    assert three + [OtherFees] == FEE_KINDS;
  }

  lemma FeeWorth(data: OrderData)
    ensures Subtotals(FeeLines(data), false) == KeptFees(data)
    ensures Subtotals(FeeLines(data), true) == 0.0 && LineTaxes(FeeLines(data)) == 0.0
  {
    AllFees(data);
    var fees := FeesOf(data, FEE_KINDS);
    SnocSubtotal(fees, Heading(), false);
    SnocSubtotal(fees, Heading(), true);
    assert fees + [] == fees;
  }

  lemma {:induction false} TaxesWorth(taxes: seq<real>)
    ensures Subtotals(TaxesOf(taxes), true) == KeptSum(taxes)
    ensures Subtotals(TaxesOf(taxes), false) == 0.0 && LineTaxes(TaxesOf(taxes)) == 0.0
  {
    if taxes != [] {
      var t := taxes[|taxes| - 1];
      var front := TaxesOf(taxes[..|taxes| - 1]);
      TaxesWorth(taxes[..|taxes| - 1]);
      RoundedClose(t);
      SnocSubtotal(front, Untaxed(Tax, 1.0, t), true);
      SnocSubtotal(front, Untaxed(Tax, 1.0, t), false);
      assert front + [] == front;
    }
  }

  lemma TaxWorth(data: OrderData)
    ensures Subtotals(TaxLines(data), true) == KeptSum(data.taxes)
    ensures Subtotals(TaxLines(data), false) == 0.0 && LineTaxes(TaxLines(data)) == 0.0
  {
    TaxesWorth(data.taxes);
    var a := if TaxesOf(data.taxes) != [] then [Heading()] + TaxesOf(data.taxes) else [];
    var b := if data.taxNotes != [] then [Untaxed(Note, 0.0, 0.0)] else [];
    forall tax: bool
      ensures Subtotals(a + b, tax) == Subtotals(TaxesOf(data.taxes), tax)
      ensures LineTaxes(a + b) == LineTaxes(TaxesOf(data.taxes))
    {
      SingleSubtotal(Heading(), tax);
      SingleSubtotal(Untaxed(Note, 0.0, 0.0), tax);
      SubtotalsConcat([Heading()], TaxesOf(data.taxes), tax);
      SubtotalsConcat(a, b, tax);
    }
  }

  lemma ConvertedClose(q: real, mq: real, price: real)
    requires mq != 0.0
    ensures Abs(q * mq * Round2(price / mq) - q * price) <= Abs(q * mq) * 0.005
  {
    var d := Round2(price / mq) - price / mq;
    RoundedClose(price / mq);
    assert mq * (price / mq) == price;
    calc {
      q * mq * Round2(price / mq) - q * price;
      q * mq * (price / mq + d) - q * price;
      q * (mq * (price / mq)) + q * mq * d - q * price;
      q * mq * d;
    }
    Scaled(q * mq, d);
  }

  lemma ProductSign(a: real, b: real)
    requires a >= 0.0 && b >= 0.0
    ensures a * b >= 0.0
  { }

  lemma Scaled(a: real, d: real)
    requires -0.005 <= d <= 0.005
    ensures Abs(a * d) <= Abs(a) * 0.005
  {
    ProductSign(Abs(a), 0.005 - d);
    ProductSign(Abs(a), 0.005 + d);
    assert Abs(a) * (0.005 - d) == Abs(a) * 0.005 - Abs(a) * d;
    assert Abs(a) * (0.005 + d) == Abs(a) * 0.005 + Abs(a) * d;
  }

  lemma ItemLineClose(c: ChannelLine)
    requires ItemLine(c).Ok?
    ensures Abs(ItemLine(c).value.subtotal - ChannelWorth(c)) <= LineBound(c)
    ensures !ItemLine(c).value.kind.Tax? && ItemLine(c).value.priceTax == 0.0
  {
    if c.found.Mapped? { ConvertedClose(c.quantity, c.found.mappingQuantity, c.price); }
  }

  lemma CloseSum(a: real, b: real, c: real, d: real, e: real, f: real)
    requires Abs(a - b) <= c && Abs(d - e) <= f
    ensures Abs((a + d) - (b + e)) <= c + f
  { }

  lemma {:induction false} SumsClose(items: seq<ChannelLine>, ls: seq<Line>, worth: ChannelLine -> real,
                                     bound: ChannelLine -> real)
    requires |ls| == |items|
    requires forall i :: 0 <= i < |ls| ==>
               !ls[i].kind.Tax? && ls[i].priceTax == 0.0 && Abs(ls[i].subtotal - worth(items[i])) <= bound(items[i])
    ensures Subtotals(ls, true) == 0.0 && LineTaxes(ls) == 0.0
    ensures Abs(Subtotals(ls, false) - SumBy(items, worth)) <= SumBy(items, bound)
  {
    if ls != [] {
      var n := |ls| - 1;
      SumsClose(items[..n], ls[..n], worth, bound);
      CloseSum(Subtotals(ls[..n], false), SumBy(items[..n], worth), SumBy(items[..n], bound),
               ls[n].subtotal, worth(items[n]), bound(items[n]));
    }
  }

  lemma {:induction false} ItemLinesAt(items: seq<ChannelLine>, i: nat)
    requires ItemLines(items).Ok? && i < |items|
    ensures |ItemLines(items).value| == |items|
    ensures ItemLine(items[i]) == Ok(ItemLines(items).value[i])
  {
    var n := |items| - 1;
    if n > 0 { ItemLinesAt(items[..n], if i < n then i else 0); }
  }

  /** The product lines carry no tax and are worth what the channel says, up to the rounding of converted prices. */
  lemma ItemWorth(items: seq<ChannelLine>)
    requires ItemLines(items).Ok?
    ensures Subtotals(ItemLines(items).value, true) == 0.0 && LineTaxes(ItemLines(items).value) == 0.0
    ensures Abs(Subtotals(ItemLines(items).value, false) - ItemSum(items)) <= RoundingBound(items)
  {
    var ls := ItemLines(items).value;
    if items != [] { ItemLinesAt(items, 0); }
    forall i | 0 <= i < |ls|
      ensures !ls[i].kind.Tax? && ls[i].priceTax == 0.0
              && Abs(ls[i].subtotal - ChannelWorth(items[i])) <= LineBound(items[i])
    {
      ItemLinesAt(items, i);
      ItemLineClose(items[i]);
    }
    SumsClose(items, ls, ChannelWorth, LineBound);
  }

  /** Its product was found, and its listing does not pack zero units. */
  predicate Convertible(c: ChannelLine) {
    !c.found.Unknown? && (c.found.Mapped? ==> c.found.mappingQuantity != 0.0)
  }

  lemma {:induction false} ItemsSucceedIff(items: seq<ChannelLine>)
    ensures ItemLines(items).Ok? <==> forall i :: 0 <= i < |items| ==> Convertible(items[i])
  {
    if items != [] {
      var front := items[..|items| - 1];
      ItemsSucceedIff(front);
      assert forall i :: 0 <= i < |front| ==> front[i] == items[i];
    }
  }

  /** The import goes through exactly when every line can be converted. */
  lemma ImportSucceedsIff(data: OrderData)
    ensures Imported(data).Ok? <==> forall i :: 0 <= i < |data.items| ==> Convertible(data.items[i])
  {
    ItemsSucceedIff(data.items);
  }

  lemma FourParts(a: seq<Line>, b: seq<Line>, c: seq<Line>, d: seq<Line>, tax: bool)
    ensures Subtotals(a + b + c + d, tax)
         == Subtotals(a, tax) + Subtotals(b, tax) + Subtotals(c, tax) + Subtotals(d, tax)
    ensures LineTaxes(a + b + c + d) == LineTaxes(a) + LineTaxes(b) + LineTaxes(c) + LineTaxes(d)
  {
    SubtotalsConcat(a, b, tax);
    SubtotalsConcat(a + b, c, tax);
    SubtotalsConcat(a + b + c, d, tax);
  }

  /**
    What an imported order is worth: the tax amount is the kept taxes, the untaxed amount is the
    product lines plus the kept fees minus the kept discount and every coupon; the product lines are
    the channel's, up to half a cent for every converted unit.
  */
  lemma ImportedTotals(data: OrderData, ls: seq<Line>)
    requires Imported(data) == Ok(ls)
    ensures LineTaxes(ls) == 0.0
    ensures Subtotals(ls, true) == KeptSum(data.taxes)
    ensures var products := Subtotals(ItemLines(data.items).value, false);
            && Subtotals(ls, false) == products + KeptFees(data) - Kept(data.discount) - CouponSum(data.coupons)
            && Abs(products - ItemSum(data.items)) <= RoundingBound(data.items)
  {
    var items := ItemLines(data.items).value;
    DiscountWorth(data, false);
    DiscountWorth(data, true);
    FeeWorth(data);
    TaxWorth(data);
    ItemWorth(data.items);
    FourParts(DiscountLines(data), FeeLines(data), TaxLines(data), items, true);
    FourParts(DiscountLines(data), FeeLines(data), TaxLines(data), items, false);
  }

  /** `amount_total` of an order with these lines. */
  function OrderWorth(ls: seq<Line>): real { Subtotals(ls, false) + Subtotals(ls, true) + LineTaxes(ls) }

  lemma ImportedWorth(data: OrderData, ls: seq<Line>)
    requires Imported(data) == Ok(ls)
    ensures var products := Subtotals(ItemLines(data.items).value, false);
            && OrderWorth(ls) == products + KeptFees(data) - Kept(data.discount) - CouponSum(data.coupons)
              + KeptSum(data.taxes)
            && Abs(products - ItemSum(data.items)) <= RoundingBound(data.items)
  {
    ImportedTotals(data, ls);
  }

  /** The channel's own grand total. */
  function ChannelTotal(data: OrderData): real {
    ItemSum(data.items) + data.shipping + data.handling + data.wrapping + data.otherFees + Sum(data.taxes)
    - data.discount - CouponSum(data.coupons)
  }

  predicate NonNegative(data: OrderData) {
    && data.discount >= 0.0 && data.shipping >= 0.0 && data.handling >= 0.0 && data.wrapping >= 0.0
    && data.otherFees >= 0.0
    && forall i :: 0 <= i < |data.taxes| ==> data.taxes[i] >= 0.0
  }

  lemma {:induction false} KeptSumClose(s: seq<real>)
    requires forall i :: 0 <= i < |s| ==> s[i] >= 0.0
    ensures 0.0 <= Sum(s) - KeptSum(s) <= 0.005 * |s| as real
  {
    if s != [] { KeptSumClose(s[..|s| - 1]); }
  }

  /** What is kept of each figure, against the figures. */
  function Difference(items: real, channel: real, s: real, h: real, w: real, o: real, d: real, taxes: real,
                      kept: real): real
  {
    (items + Kept(s) + Kept(h) + Kept(w) + Kept(o) - Kept(d) + kept) - (channel + s + h + w + o + taxes - d)
  }

  lemma CloseTotals(items: real, channel: real, bound: real, s: real, h: real, w: real, o: real, d: real,
                    taxes: real, kept: real, slack: real)
    requires Abs(items - channel) <= bound && s >= 0.0 && h >= 0.0 && w >= 0.0 && o >= 0.0 && d >= 0.0
    requires 0.0 <= taxes - kept <= slack
    ensures Abs(Difference(items, channel, s, h, w, o, d, taxes, kept)) <= bound + 0.02 + slack
  { }

  lemma WorthAgainstTotal(data: OrderData, ls: seq<Line>)
    requires Imported(data) == Ok(ls)
    ensures OrderWorth(ls) - ChannelTotal(data)
         == DifferenceOf(data, Subtotals(ItemLines(data.items).value, false))
  {
    ImportedWorth(data, ls);
  }

  function DifferenceOf(data: OrderData, items: real): real {
    Difference(items, ItemSum(data.items), data.shipping, data.handling, data.wrapping, data.otherFees, data.discount,
               Sum(data.taxes), KeptSum(data.taxes))
  }

  lemma DifferenceClose(data: OrderData, items: real, d: real)
    requires NonNegative(data) && Abs(items - ItemSum(data.items)) <= RoundingBound(data.items)
    requires d == DifferenceOf(data, items)
    ensures Abs(d) <= RoundingBound(data.items) + 0.02 + 0.005 * |data.taxes| as real
  {
    KeptSumClose(data.taxes);
    CloseTotals(items, ItemSum(data.items), RoundingBound(data.items), data.shipping, data.handling, data.wrapping,
                data.otherFees, data.discount, Sum(data.taxes), KeptSum(data.taxes), 0.005 * |data.taxes| as real);
  }

  /**
    For amounts that are not negative the order's total is the channel's, up to half a cent for each
    of the four fees, the discount, every tax, and every converted unit.
  */
  lemma TotalCloseToChannel(data: OrderData, ls: seq<Line>)
    requires Imported(data) == Ok(ls) && NonNegative(data)
    ensures Abs(OrderWorth(ls) - ChannelTotal(data)) <= RoundingBound(data.items) + 0.02 + 0.005 * |data.taxes| as real
  {
    var items, d := Subtotals(ItemLines(data.items).value, false), OrderWorth(ls) - ChannelTotal(data);
    assert d == DifferenceOf(data, items) by { WorthAgainstTotal(data, ls); }
    assert Abs(items - ItemSum(data.items)) <= RoundingBound(data.items) by { ItemWorth(data.items); }
    DifferenceClose(data, items, d);
  }

  /**
    With no converted line, for all data: what separates the order from the channel is exactly the
    amounts that are not kept, which includes every negative fee, tax and discount.
  */
  lemma PlainTotalExact(data: OrderData, ls: seq<Line>)
    requires Imported(data) == Ok(ls)
    requires forall i :: 0 <= i < |data.items| ==> data.items[i].found.Plain?
    ensures ChannelTotal(data) - OrderWorth(ls)
            == (data.shipping - Kept(data.shipping)) + (data.handling - Kept(data.handling))
              + (data.wrapping - Kept(data.wrapping))
               + (data.otherFees - Kept(data.otherFees)) + (Sum(data.taxes) - KeptSum(data.taxes))
                 - (data.discount - Kept(data.discount))
  {
    ImportedWorth(data, ls);
    NothingConverted(data.items);
  }

  lemma {:induction false} NothingConverted(items: seq<ChannelLine>)
    requires forall i :: 0 <= i < |items| ==> items[i].found.Plain?
    ensures RoundingBound(items) == 0.0
  {
    if items != [] { NothingConverted(items[..|items| - 1]); }
  }

  /** The bound is reached: a one-cent article sold as a pack of two comes in one cent too dear. */
  lemma BoundReached()
    ensures var items := [ChannelLine(Mapped(0, 2.0), 1.0, 0.01)];
            ItemLines(items).Ok?
              && Subtotals(ItemLines(items).value, false) - ItemSum(items) == RoundingBound(items) == 0.01
  {
    var c := ChannelLine(Mapped(0, 2.0), 1.0, 0.01);
    assert [c][..0] == [];
    assert 0.01 / 2.0 == 0.005 && 0.005 * 100.0 + 0.5 == 1.0;
    assert (1.0).Floor == 1;
    var l := ItemLine(c).value;
    assert l == Untaxed(Item(0), 2.0, 0.01);
    assert ItemLines([c]) == Ok([] + [l]);
    assert [] + [l] == [l];
    SingleSubtotal(l, false);
  }

  // ---- the lines one by one ----

  /** A section or a note, which carries no amount. */
  predicate Display(l: Line) { (l.kind.Section? || l.kind.Note?) && l == Line(l.kind, 0.0, 0.0, 0.0, 0.0) }

  /** One unit at `amount`. */
  predicate Single(l: Line, kind: Kind, amount: real) { l == Line(kind, 1.0, amount, amount, 0.0) }

  predicate CouponsFit(ls: seq<Line>, coupons: seq<CouponUse>) {
    && |ls| == |coupons|
    && forall i :: 0 <= i < |ls| ==> Single(ls[i], Coupon(coupons[i].code), -coupons[i].amount)
  }

  /**
    A heading if there is anything to take off, the discount if it is at least half a cent, its note,
    and every coupon in the channel's order, whatever its amount.
  */
  predicate DiscountsFit(ls: seq<Line>, data: OrderData) {
    var kept := data.discount >= 0.005;
    var n := |ls| - |data.coupons|;
    && n == (if kept || data.coupons != [] then 1 else 0) + (if kept then 1 else 0)
            + (if kept && data.discountNotes != [] then 1 else 0)
    && (n > 0 ==> Display(ls[0]) && ls[0].kind.Section?)
    && (kept ==> Single(ls[1], Discount, -data.discount))
    && (n == 3 ==> Display(ls[2]) && ls[2].kind.Note?)
    && CouponsFit(ls[n..], data.coupons)
  }

  /** Exactly the fees of at least half a cent, each once, and a heading after them. */
  predicate FeesFit(ls: seq<Line>, data: OrderData) {
    && (forall k :: (exists i :: 0 <= i < |ls| && Single(ls[i], Fee(k), data.Cost(k))) <==> data.Cost(k) >= 0.005)
    && (forall i, j :: 0 <= i < j < |ls| ==> ls[i].kind != ls[j].kind)
    && (forall i :: 0 <= i < |ls| - 1 ==> ls[i].kind.Fee? && Single(ls[i], ls[i].kind, data.Cost(ls[i].kind.fee)))
    && (ls != [] ==> |ls| > 1 && Display(ls[|ls| - 1]) && ls[|ls| - 1].kind.Section?)
  }

  function KeptTaxes(taxes: seq<real>): seq<real> {
    if taxes == [] then []
    else KeptTaxes(taxes[..|taxes| - 1]) + if taxes[|taxes| - 1] >= 0.005 then [taxes[|taxes| - 1]] else []
  }

  /** A heading if a tax is kept, exactly the taxes of at least half a cent in the channel's order, and a note. */
  predicate TaxesFit(ls: seq<Line>, data: OrderData) {
    var kept := KeptTaxes(data.taxes);
    var n := if kept == [] then 0 else |kept| + 1;
    && |ls| == n + (if data.taxes != [] && data.taxNotes != [] then 1 else 0)
    && (n > 0 ==> Display(ls[0]) && ls[0].kind.Section?)
    && (forall i :: 0 <= i < |kept| ==> Single(ls[i + 1], Tax, kept[i]))
    && (|ls| > n ==> Display(ls[n]) && ls[n].kind.Note?)
  }

  /**
    The line of a channel line: its product, its quantity and price; where the product is a listing that
    packs several units, that many times the quantity, at a price in whole cents that is within half a
    cent of the unit's share.
  */
  predicate ItemFits(l: Line, c: ChannelLine) {
    && l.subtotal == l.qty * l.price && l.priceTax == 0.0
    && match c.found
       case Unknown => false
       case Plain(p) => l.kind == Item(p) && l.qty == c.quantity && l.price == c.price
       case Mapped(p, mq) =>
         && mq != 0.0 && l.kind == Item(p) && l.qty == c.quantity * mq
         && -0.005 <= l.price - c.price / mq <= 0.005 && (l.price * 100.0).Floor as real == l.price * 100.0
  }

  predicate ItemsFit(ls: seq<Line>, items: seq<ChannelLine>) {
    |ls| == |items| && forall i :: 0 <= i < |ls| ==> ItemFits(ls[i], items[i])
  }

  lemma RoundedFits(x: real)
    ensures -0.005 <= Round2(x) - x <= 0.005 && (Round2(x) * 100.0).Floor as real == Round2(x) * 100.0
  {
    RoundedClose(x);
    assert Round2(x) * 100.0 == Cents(x) as real;
  }

  lemma ItemLineFits(c: ChannelLine)
    requires ItemLine(c).Ok?
    ensures ItemFits(ItemLine(c).value, c)
  {
    if c.found.Mapped? { RoundedFits(c.price / c.found.mappingQuantity); }
  }

  /** Every channel line becomes the product line that fits it, in order. */
  lemma {:induction false} ItemLinesFit(items: seq<ChannelLine>)
    requires ItemLines(items).Ok?
    ensures ItemsFit(ItemLines(items).value, items)
    decreases |items|
  {
    if items != [] {
      ItemLinesFit(items[..|items| - 1]);
      ItemLineFits(items[|items| - 1]);
    }
  }

  lemma {:induction false} CouponLinesFit(coupons: seq<CouponUse>)
    ensures CouponsFit(CouponLines(coupons), coupons)
    decreases |coupons|
  {
    if coupons != [] { CouponLinesFit(coupons[..|coupons| - 1]); }
  }

  lemma DiscountLinesFit(data: OrderData)
    ensures DiscountsFit(DiscountLines(data), data)
  {
    var has := Positive(data.discount);
    RoundedClose(data.discount);
    CouponLinesFit(data.coupons);
    var head := DiscountHead(has || data.coupons != []) + DiscountBody(has, data.discount, data.discountNotes != []);
    assert DiscountLines(data)[|head|..] == CouponLines(data.coupons);
  }

  /** The fees of a list of distinct kinds, by what they are. */
  ghost predicate FeesOfFit(ls: seq<Line>, data: OrderData, kinds: seq<FeeKind>) {
    && (forall k :: k in kinds && data.Cost(k) >= 0.005 ==> exists i :: 0 <= i < |ls| && ls[i].kind == Fee(k))
    && (forall i :: 0 <= i < |ls| ==>
          && ls[i].kind.Fee? && ls[i].kind.fee in kinds && data.Cost(ls[i].kind.fee) >= 0.005
          && Single(ls[i], ls[i].kind, data.Cost(ls[i].kind.fee)))
    && (forall i, j :: 0 <= i < j < |ls| ==> ls[i].kind != ls[j].kind)
  }

  lemma FeeSkipped(ls: seq<Line>, data: OrderData, kinds: seq<FeeKind>, k: FeeKind)
    requires FeesOfFit(ls, data, kinds) && data.Cost(k) < 0.005
    ensures FeesOfFit(ls, data, kinds + [k])
  { }

  lemma FeeAdded(ls: seq<Line>, data: OrderData, kinds: seq<FeeKind>, k: FeeKind, l: Line)
    requires FeesOfFit(ls, data, kinds) && k !in kinds && data.Cost(k) >= 0.005 && Single(l, Fee(k), data.Cost(k))
    ensures FeesOfFit(ls + [l], data, kinds + [k])
  {
    var after := ls + [l];
    forall j | j in kinds + [k] && data.Cost(j) >= 0.005
      ensures exists i :: 0 <= i < |after| && after[i].kind == Fee(j)
    {
      if j == k {
        assert after[|ls|].kind == Fee(j);
      } else {
        var i :| 0 <= i < |ls| && ls[i].kind == Fee(j);
        assert after[i].kind == Fee(j);
      }
    }
  }

  lemma FeesOfSnoc(data: OrderData, kinds: seq<FeeKind>, k: FeeKind)
    requires FeesOfFit(FeesOf(data, kinds), data, kinds) && k !in kinds
    ensures FeesOfFit(FeesOf(data, kinds + [k]), data, kinds + [k])
  {
    RoundedClose(data.Cost(k));
    assert (kinds + [k])[..|kinds|] == kinds;
    var l := Untaxed(Fee(k), 1.0, data.Cost(k));
    if data.Cost(k) >= 0.005 {
      FeeAdded(FeesOf(data, kinds), data, kinds, k, l);
    } else {
      FeeSkipped(FeesOf(data, kinds), data, kinds, k);
      assert FeesOf(data, kinds) + [] == FeesOf(data, kinds);
    }
  }

  lemma NoRepeat(i: nat)
    requires i < |FEE_KINDS|
    ensures FEE_KINDS[i] !in FEE_KINDS[..i] && FEE_KINDS[..i + 1] == FEE_KINDS[..i] + [FEE_KINDS[i]]
  { }

  lemma {:induction false} FeesUpTo(data: OrderData, n: nat)
    requires n <= |FEE_KINDS|
    ensures FeesOfFit(FeesOf(data, FEE_KINDS[..n]), data, FEE_KINDS[..n])
    decreases n
  {
    if n > 0 {
      FeesUpTo(data, n - 1);
      NoRepeat(n - 1);
      FeesOfSnoc(data, FEE_KINDS[..n - 1], FEE_KINDS[n - 1]);
    }
  }

  lemma FeeLinesFit(data: OrderData)
    ensures FeesFit(FeeLines(data), data)
  {
    FeesUpTo(data, |FEE_KINDS|);
    assert FEE_KINDS[..|FEE_KINDS|] == FEE_KINDS;
    HeadedFees(data, FeesOf(data, FEE_KINDS));
  }

  lemma HeadedFees(data: OrderData, fees: seq<Line>)
    requires FeesOfFit(fees, data, FEE_KINDS)
    ensures FeesFit(fees + if fees != [] then [Heading()] else [], data)
  {
    var ls := fees + if fees != [] then [Heading()] else [];
    forall k ensures (exists i :: 0 <= i < |ls| && Single(ls[i], Fee(k), data.Cost(k))) <==> data.Cost(k) >= 0.005 {
      assert k in FEE_KINDS by { EveryKind(k); }
      if data.Cost(k) >= 0.005 {
        var i :| 0 <= i < |fees| && fees[i].kind == Fee(k);
        assert Single(ls[i], Fee(k), data.Cost(k));
      }
    }
  }

  lemma EveryKind(k: FeeKind)
    ensures k in FEE_KINDS
  {
    var all := FEE_KINDS;
    assert all[0] == Shipping && all[1] == Handling && all[2] == Wrapping && all[3] == OtherFees;
  }

  lemma {:induction false} TaxesOfFit(taxes: seq<real>)
    ensures |TaxesOf(taxes)| == |KeptTaxes(taxes)|
    ensures forall i :: 0 <= i < |KeptTaxes(taxes)| ==> Single(TaxesOf(taxes)[i], Tax, KeptTaxes(taxes)[i])
    decreases |taxes|
  {
    if taxes != [] {
      TaxesOfFit(taxes[..|taxes| - 1]);
      RoundedClose(taxes[|taxes| - 1]);
    }
  }

  lemma TaxLinesFit(data: OrderData)
    ensures TaxesFit(TaxLines(data), data)
  {
    TaxesOfFit(data.taxes);
  }

  /**
    The lines of an imported order, by what they are: the discount and the coupons, the fees, the taxes,
    and for every channel line the product line that fits it.
  */
  lemma ImportedLines(data: OrderData, ls: seq<Line>)
    returns (discounts: seq<Line>, fees: seq<Line>, taxes: seq<Line>, items: seq<Line>)
    requires Imported(data) == Ok(ls)
    ensures ls == discounts + fees + taxes + items
    ensures DiscountsFit(discounts, data) && FeesFit(fees, data) && TaxesFit(taxes, data) && ItemsFit(items, data.items)
  {
    discounts, fees, taxes, items := DiscountLines(data), FeeLines(data), TaxLines(data), ItemLines(data.items).value;
    DiscountLinesFit(data);
    FeeLinesFit(data);
    TaxLinesFit(data);
    ItemLinesFit(data.items);
  }
}
