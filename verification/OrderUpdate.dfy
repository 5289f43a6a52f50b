/**
  In-place update of a confirmed sale order (multichannel_order/models/sale_order.py).

  A draft order is cleared and refilled with the lines the channel sends.  A confirmed order
  keeps its lines: every incoming product line is matched against the order, matched lines are
  rewritten, unmatched old product lines are set to quantity zero, the rest is created.
*/
module OrderUpdate {
  import opened Wrappers

  datatype Flag = Discount | Coupon | Tax | Handling | Wrapping | OtherFees | Delivery

  /** `price_unit` in a dictionary of values: missing key, `None`, or a number. */
  datatype Price = Absent | Null | Given(amount: real)

  /** A line on the order; `ioc` is the channel's line ID, "" when unset.  Display lines have no product. */
  datatype Line = Line(id: nat, ioc: string, product: Option<nat>, name: string, qty: real, price: real)

  /** The values of one incoming line. */
  datatype Vals = Vals(ioc: string, product: Option<nat>, name: string, qty: Option<real>, price: Price,
    flags: set<Flag>)

  datatype Command = ClearAll | Create(vals: Vals) | Write(id: nat, vals: Vals) | SetZero(id: nat)

  datatype Error = ExpectedSingleton

  datatype Lines = Lines(list: seq<Line>, next: nat)

  // ----- How the ORM executes commands -----

  function FreshQty(v: Vals): real {
    if v.product.None? then 0.0 else v.qty.GetOr(1.0)
  }

  function FreshPrice(v: Vals): real {
    if v.product.Some? && v.price.Given? then v.price.amount else 0.0
  }

  function Written(l: Line, v: Vals): Line {
    l.(ioc := if v.ioc != "" then v.ioc else l.ioc,
       name := v.name,
       qty := v.qty.GetOr(l.qty),
       price := match v.price case Absent => l.price case Null => 0.0 case Given(p) => p)
  }

  /** What one command does to one existing line. */
  function Touch(l: Line, c: Command): Line {
    match c
    case Write(id, v) => if id == l.id then Written(l, v) else l
    case SetZero(id) => if id == l.id then l.(qty := 0.0) else l
    case _ => l
  }

  function TouchAll(ls: seq<Line>, c: Command): seq<Line> {
    seq(|ls|, i requires 0 <= i < |ls| => Touch(ls[i], c))
  }

  function ApplyOne(o: Lines, c: Command): Lines {
    match c
    case ClearAll => o.(list := [])
    case Create(v) => Lines(o.list + [Line(o.next, v.ioc, v.product, v.name, FreshQty(v), FreshPrice(v))], o.next + 1)
    case _ => o.(list := TouchAll(o.list, c))
  }

  function Apply(o: Lines, cmds: seq<Command>): Lines
    decreases |cmds|
  {
    if cmds == [] then o else Apply(ApplyOne(o, cmds[0]), cmds[1..])
  }

  lemma {:induction false} ApplyConcat(o: Lines, a: seq<Command>, b: seq<Command>)
    ensures Apply(o, a + b) == Apply(Apply(o, a), b)
    decreases |a|
  {
    if a == [] {
      assert a + b == b;
    } else {
      assert (a + b)[0] == a[0] && (a + b)[1..] == a[1..] + b;
      ApplyConcat(ApplyOne(o, a[0]), a[1..], b);
    }
  }

  // ----- Totals -----

  function Subtotal(l: Line): real { l.qty * l.price }

  function Total(ls: seq<Line>): real {
    if ls == [] then 0.0 else Subtotal(ls[0]) + Total(ls[1..])
  }

  function FreshSubtotal(v: Vals): real { FreshQty(v) * FreshPrice(v) }

  function FreshTotal(vs: seq<Vals>): real {
    if vs == [] then 0.0 else FreshTotal(vs[..|vs| - 1]) + FreshSubtotal(vs[|vs| - 1])
  }

  // ----- The plan -----

  /** The lines an incoming line may be matched with, coupons by name as well. */
  predicate Hits(l: Line, v: Vals) {
    && (if v.ioc != "" then l.ioc == v.ioc else v.flags != {} && l.product == v.product)
    && (Coupon in v.flags ==> l.name == v.name)
  }

  function HitLines(ls: seq<Line>, v: Vals): (r: seq<Line>)
    ensures forall l :: l in r <==> l in ls && Hits(l, v)
  {
    if ls == [] then [] else (if Hits(ls[0], v) then [ls[0]] else []) + HitLines(ls[1..], v)
  }

  predicate AnyHits(l: Line, vs: seq<Vals>) {
    exists v :: v in vs && Hits(l, v)
  }

  function HitSet(ls: seq<Line>, v: Vals): set<Line> {
    set l | l in HitLines(ls, v)
  }

  /** The lines that some incoming line matches. */
  function MatchedLines(ls: seq<Line>, vs: seq<Vals>): set<Line> {
    set l | l in ls && AnyHits(l, vs)
  }

  function PlanOne(ls: seq<Line>, v: Vals): Result<seq<Command>, Error> {
    var hits := HitLines(ls, v);
    if hits == [] then Ok([Create(v)])
    else if v.price.Null? then Ok([])
    else if |hits| == 1 then Ok([Write(hits[0].id, v)])
    else Err(ExpectedSingleton)
  }

  function PlanProducts(ls: seq<Line>, vs: seq<Vals>): Result<seq<Command>, Error> {
    if vs == [] then Ok([])
    else
      match PlanProducts(ls, vs[..|vs| - 1])
      case Err(e) => Err(e)
      case Ok(cmds) =>
        match PlanOne(ls, vs[|vs| - 1])
        case Err(e) => Err(e)
        case Ok(more) => Ok(cmds + more)
  }

  function PlanZeroes(ls: seq<Line>, vs: seq<Vals>): seq<Command> {
    if ls == [] then []
    else PlanZeroes(ls[..|ls| - 1], vs)
         + (var l := ls[|ls| - 1]; if l.product.Some? && !AnyHits(l, vs) then [SetZero(l.id)] else [])
  }

  /** Sections and notes whose name is not on the order yet. */
  function PlanDisplay(ls: seq<Line>, vs: seq<Vals>): seq<Command> {
    if vs == [] then []
    else PlanDisplay(ls, vs[..|vs| - 1])
         + (var v := vs[|vs| - 1];
            if exists l :: l in ls && l.product.None? && l.name == v.name then [] else [Create(v)])
  }

  function Products(vs: seq<Vals>): (r: seq<Vals>)
    ensures forall v :: v in r <==> v in vs && v.product.Some?
  {
    if vs == [] then [] else Products(vs[..|vs| - 1]) + (if vs[|vs| - 1].product.Some? then [vs[|vs| - 1]] else [])
  }

  function Displays(vs: seq<Vals>): (r: seq<Vals>)
    ensures forall v :: v in r <==> v in vs && v.product.None?
  {
    if vs == [] then [] else Displays(vs[..|vs| - 1]) + (if vs[|vs| - 1].product.None? then [vs[|vs| - 1]] else [])
  }

  function Plan(ls: seq<Line>, vs: seq<Vals>): Result<seq<Command>, Error> {
    match PlanProducts(ls, Products(vs))
    case Err(e) => Err(e)
    case Ok(cmds) => Ok(cmds + PlanZeroes(ls, Products(vs)) + PlanDisplay(ls, Displays(vs)))
  }

  function Creates(vs: seq<Vals>): seq<Command> {
    seq(|vs|, i requires 0 <= i < |vs| => Create(vs[i]))
  }

  /** Order lines as the database keeps them: distinct IDs; display lines carry no amount and no channel ID. */
  ghost predicate WellFormed(o: Lines) {
    && (forall i :: 0 <= i < |o.list| ==> o.list[i].id < o.next)
    && (forall i, j :: 0 <= i < j < |o.list| ==> o.list[i].id != o.list[j].id)
    && (forall l :: l in o.list && l.product.None? ==> l.qty == 0.0 && l.price == 0.0 && l.ioc == "")
  }

  // ----- The order -----

  class SaleOrder {
    var confirmed: bool
    var list: seq<Line>
    var next: nat

    constructor ()
      ensures Stored() == Lines([], 0) && !confirmed
    {
      confirmed, list, next := false, [], 0;
    }

    function Stored(): Lines
      reads this
    {
      Lines(list, next)
    }

    /** The ORM's `write` on the one2many field. */
    method WriteLines(cmds: seq<Command>)
      modifies this`list, this`next
      ensures Stored() == Apply(old(Stored()), cmds)
    {
      var i := 0;
      while i < |cmds|
        invariant 0 <= i <= |cmds|
        invariant Apply(Stored(), cmds[i..]) == Apply(old(Stored()), cmds)
      {
        var o := ApplyOne(Stored(), cmds[i]);
        assert cmds[i..][1..] == cmds[i + 1..];
        list, next := o.list, o.next;
        i := i + 1;
      }
    }

    /** What the first loop does with one incoming line, after the lines in `front`. */
    method MatchOne(ghost front: seq<Vals>, v: Vals) returns (r: Result<seq<Command>, Error>, matched: set<Line>)
      requires PlanProducts(list, front).Ok?
      ensures PlanProducts(list, front + [v]) == if r.Err? then r else Ok(PlanProducts(list, front).value + r.value)
      ensures MatchedLines(list, front + [v]) == MatchedLines(list, front) + matched
    {
      var hits := HitLines(list, v);
      matched := set l | l in hits;
      if hits == [] {
        r := Ok([Create(v)]);
      } else if v.price.Null? {
        r := Ok([]);
      } else if |hits| != 1 {
        r := Err(ExpectedSingleton);
      } else {
        r := Ok([Write(hits[0].id, v)]);
      }
      MatchStep(list, front, v);
    }

    /** The first loop of `_process_update_order_line`. */
    method MatchProducts(products: seq<Vals>) returns (r: Result<seq<Command>, Error>, updated: set<Line>)
      ensures r == PlanProducts(list, products)
      ensures r.Ok? ==> updated == MatchedLines(list, products)
    {
      var values := [];
      updated := {};
      for i := 0 to |products|
        invariant PlanProducts(list, products[..i]) == Ok(values)
        invariant updated == MatchedLines(list, products[..i])
      {
        var more, matched := MatchOne(products[..i], products[i]);
        assert products[..i + 1] == products[..i] + [products[i]];
        if more.Err? {
          PlanProductsError(list, products, i + 1);
          return more, updated;
        }
        values := values + more.value;
        updated := updated + matched;
      }
      assert products[..|products|] == products;
      return Ok(values), updated;
    }

    /** `_process_update_order_line`, on the incoming command list without its head. */
    method ProcessUpdateOrderLine(datas: seq<Vals>) returns (r: Result<seq<Command>, Error>)
      ensures r == Plan(list, datas)
    {
      var products, displays := Products(datas), Displays(datas);
      var matched, updated := MatchProducts(products);
      if matched.Err? { return matched; }
      var zeroes, added := [], [];
      for i := 0 to |list|
        invariant zeroes == PlanZeroes(list[..i], products)
      {
        assert list[..i + 1][..i] == list[..i];
        assert list[i] in list;
        if list[i].product.Some? && list[i] !in updated {
          zeroes := zeroes + [SetZero(list[i].id)];
        }
      }
      assert list[..|list|] == list;
      for i := 0 to |displays|
        invariant added == PlanDisplay(list, displays[..i])
      {
        assert displays[..i + 1][..i] == displays[..i];
        if !exists l :: l in list && l.product.None? && l.name == displays[i].name {
          added := added + [Create(displays[i])];
        }
      }
      assert displays[..|displays|] == displays;
      return Ok(matched.value + zeroes + added);
    }

    /** The order-line part of `_update_in_queue_job`; an error leaves the order as it was. */
    method UpdateInQueueJob(datas: seq<Vals>) returns (r: Result<(), Error>)
      modifies this`list, this`next
      ensures !confirmed ==> r.Ok? && Stored() == Apply(old(Stored()), [ClearAll] + Creates(datas))
      ensures confirmed ==>
                match Plan(old(list), datas)
                case Err(e) => r == Err(e) && Stored() == old(Stored())
                case Ok(cmds) => r.Ok? && Stored() == Apply(old(Stored()), cmds)
    {
      if confirmed {
        var plan := ProcessUpdateOrderLine(datas);
        match plan {
          case Err(e) => return Err(e);
          case Ok(cmds) => WriteLines(cmds);
        }
      } else {
        WriteLines([ClearAll] + Creates(datas));
      }
      return Ok(());
    }
  }

  lemma MatchStep(ls: seq<Line>, front: seq<Vals>, v: Vals)
    requires PlanProducts(ls, front).Ok?
    ensures PlanProducts(ls, front + [v])
            == match PlanOne(ls, v)
               case Err(e) => Err(e)
               case Ok(more) => Ok(PlanProducts(ls, front).value + more)
    ensures MatchedLines(ls, front + [v]) == MatchedLines(ls, front) + HitSet(ls, v)
  {
    assert (front + [v])[..|front|] == front;
    AnyHitsSnoc(ls, front, v);
  }

  lemma AnyHitsSnoc(ls: seq<Line>, front: seq<Vals>, v: Vals)
    ensures MatchedLines(ls, front + [v]) == MatchedLines(ls, front) + HitSet(ls, v)
  {
    forall l ensures AnyHits(l, front + [v]) <==> AnyHits(l, front) || Hits(l, v) {
      assert forall w :: w in front + [v] <==> w in front || w == v;
    }
  }

  lemma {:induction false} PlanProductsError(ls: seq<Line>, vs: seq<Vals>, n: nat)
    requires n <= |vs|
    requires PlanProducts(ls, vs[..n]).Err?
    ensures PlanProducts(ls, vs) == Err(ExpectedSingleton)
    decreases |vs|
  {
    if n < |vs| {
      assert vs[..|vs| - 1][..n] == vs[..n];
      PlanProductsError(ls, vs[..|vs| - 1], n);
    } else {
      assert vs[..n] == vs;
      assert PlanProducts(ls, vs).error.ExpectedSingleton?;
    }
  }

  // ----- When the update goes through -----

  /** The update raises exactly when some priced incoming product line matches two lines of the order. */
  lemma {:induction false} PlanSucceedsIff(ls: seq<Line>, vs: seq<Vals>)
    ensures PlanProducts(ls, vs).Ok? <==> forall v :: v in vs ==> v.price.Null? || |HitLines(ls, v)| <= 1
    decreases |vs|
  {
    if vs != [] {
      PlanSucceedsIff(ls, vs[..|vs| - 1]);
      var last := vs[|vs| - 1];
      assert forall v :: v in vs <==> v in vs[..|vs| - 1] || v == last;
    }
  }

  lemma {:induction false} TwoHits(ls: seq<Line>, v: Vals, l: Line, m: Line)
    requires l in ls && m in ls && l != m && Hits(l, v) && Hits(m, v)
    ensures |HitLines(ls, v)| >= 2
  {
    var hits := HitLines(ls, v);
    assert l in hits && m in hits;
    var i :| 0 <= i < |hits| && hits[i] == l;
    var j :| 0 <= j < |hits| && hits[j] == m;
  }

  /**
    Lines without a channel ID are told apart by product alone: an order that holds two lines of one
    product cannot be updated with a priced discount, fee or tax of that product. A discount beside a
    coupon is such an order, and so are two taxes.
  */
  lemma DiscountWithCouponRaises(ls: seq<Line>, vs: seq<Vals>, v: Vals, l: Line, m: Line)
    requires l in ls && m in ls && l != m && l.product == v.product && m.product == v.product
    requires v in vs && v.product.Some? && v.ioc == "" && v.flags != {} && Coupon !in v.flags && !v.price.Null?
    ensures Plan(ls, vs) == Err(ExpectedSingleton)
  {
    TwoHits(ls, v, l, m);
    PlanSucceedsIff(ls, Products(vs));
    assert v in Products(vs);
    assert PlanProducts(ls, Products(vs)).error.ExpectedSingleton?;
  }

  // ----- What the update does to the total -----

  function Overlay(l: Line, cmds: seq<Command>): Line
    decreases |cmds|
  {
    if cmds == [] then l else Overlay(Touch(l, cmds[0]), cmds[1..])
  }

  lemma {:induction false} OverlayConcat(l: Line, a: seq<Command>, b: seq<Command>)
    ensures Overlay(l, a + b) == Overlay(Overlay(l, a), b)
    decreases |a|
  {
    if a == [] {
      assert a + b == b;
    } else {
      assert (a + b)[0] == a[0] && (a + b)[1..] == a[1..] + b;
      OverlayConcat(Touch(l, a[0]), a[1..], b);
    }
  }

  /** No command in `cmds` addresses line `id`. */
  ghost predicate Spares(cmds: seq<Command>, id: nat) {
    forall c :: c in cmds ==> c != ClearAll && (c.Write? || c.SetZero? ==> c.id != id)
  }

  lemma {:induction false} OverlaySpared(l: Line, cmds: seq<Command>)
    requires Spares(cmds, l.id)
    ensures Overlay(l, cmds) == l
    decreases |cmds|
  {
    if cmds != [] {
      assert cmds[0] in cmds;
      assert forall c :: c in cmds[1..] ==> c in cmds;
      OverlaySpared(l, cmds[1..]);
    }
  }

  function OverlayTotal(ls: seq<Line>, cmds: seq<Command>): real {
    if ls == [] then 0.0 else Subtotal(Overlay(ls[0], cmds)) + OverlayTotal(ls[1..], cmds)
  }

  function CreatedTotal(cmds: seq<Command>): real {
    if cmds == [] then 0.0
    else (if cmds[0].Create? then FreshSubtotal(cmds[0].vals) else 0.0) + CreatedTotal(cmds[1..])
  }

  lemma {:induction false} OverlayTotalStep(ls: seq<Line>, c: Command, rest: seq<Command>)
    ensures OverlayTotal(ls, [c] + rest) == OverlayTotal(TouchAll(ls, c), rest)
    decreases |ls|
  {
    if ls != [] {
      assert ([c] + rest)[1..] == rest;
      assert TouchAll(ls, c)[1..] == TouchAll(ls[1..], c);
      OverlayTotalStep(ls[1..], c, rest);
    }
  }

  lemma {:induction false} OverlayTotalSnoc(ls: seq<Line>, l: Line, cmds: seq<Command>)
    ensures OverlayTotal(ls + [l], cmds) == OverlayTotal(ls, cmds) + Subtotal(Overlay(l, cmds))
    decreases |ls|
  {
    if ls != [] {
      assert (ls + [l])[1..] == ls[1..] + [l];
      OverlayTotalSnoc(ls[1..], l, cmds);
    } else {
      assert (ls + [l])[1..] == [];
    }
  }

  lemma {:induction false} OverlayTotalNil(ls: seq<Line>)
    ensures OverlayTotal(ls, []) == Total(ls)
    decreases |ls|
  {
    if ls != [] { OverlayTotalNil(ls[1..]); }
  }

  /** Commands that address stored lines only. */
  ghost predicate Addressed(cmds: seq<Command>, next: nat) {
    forall c :: c in cmds ==> c != ClearAll && (c.Write? || c.SetZero? ==> c.id < next)
  }

  lemma AddressedRest(cmds: seq<Command>, c: Command, rest: seq<Command>, next: nat)
    requires Addressed(cmds, next) && cmds == [c] + rest
    ensures c != ClearAll && Addressed(rest, next)
  {
    assert cmds[0] == c && c in cmds;
    forall d | d in rest ensures d in cmds { }
  }

  lemma AppliedStep(o: Lines, c: Command, rest: seq<Command>)
    requires c != ClearAll && Addressed(rest, o.next)
    ensures o.next <= ApplyOne(o, c).next
    ensures OverlayTotal(ApplyOne(o, c).list, rest)
         == OverlayTotal(o.list, [c] + rest) + if c.Create? then FreshSubtotal(c.vals) else 0.0
  {
    OverlayTotalStep(o.list, c, rest);
    if c.Create? {
      var o' := ApplyOne(o, c);
      var added := o'.list[|o.list|];
      assert o'.list == o.list + [added];
      OverlayTotalSnoc(o.list, added, rest);
      OverlaySpared(added, rest);
      assert TouchAll(o.list, c) == o.list;
    }
  }

  /** Executing commands that address stored lines only: the stored lines overlaid, plus the new ones. */
  lemma {:induction false} ApplyTotal(o: Lines, cmds: seq<Command>)
    requires Addressed(cmds, o.next)
    ensures Total(Apply(o, cmds).list) == OverlayTotal(o.list, cmds) + CreatedTotal(cmds)
    decreases |cmds|
  {
    if cmds == [] {
      OverlayTotalNil(o.list);
    } else {
      var c, rest := cmds[0], cmds[1..];
      assert cmds == [c] + rest;
      AddressedRest(cmds, c, rest, o.next);
      AppliedStep(o, c, rest);
      ApplyTotal(ApplyOne(o, c), rest);
    }
  }

  /** A matched line after every incoming line that matches it has been written over it. */
  function Settled(l: Line, vs: seq<Vals>): Line {
    if vs == [] then l
    else
      var v := vs[|vs| - 1];
      var before := Settled(l, vs[..|vs| - 1]);
      if Hits(l, v) && !v.price.Null? then Written(before, v) else before
  }

  lemma {:induction false} SettledKeepsId(l: Line, vs: seq<Vals>)
    ensures Settled(l, vs).id == l.id
    decreases |vs|
  {
    if vs != [] { SettledKeepsId(l, vs[..|vs| - 1]); }
  }

  /** The command planned for one incoming line, on a line that may have been written before. */
  lemma OverlayOne(o: Lines, l: Line, v: Vals, now: Line)
    requires WellFormed(o) && l in o.list && now.id == l.id
    requires PlanOne(o.list, v).Ok?
    ensures Overlay(now, PlanOne(o.list, v).value) == if Hits(l, v) && !v.price.Null? then Written(now, v) else now
  {
    var cmds := PlanOne(o.list, v).value;
    var hits := HitLines(o.list, v);
    if cmds != [] { assert cmds[1..] == []; }
    if hits != [] { SameRecord(o, l, hits[0]); }
    assert Hits(l, v) <==> l in hits;
  }

  lemma SameRecord(o: Lines, l: Line, h: Line)
    requires WellFormed(o) && l in o.list && h in o.list
    ensures l == h <==> l.id == h.id
  {
    var i :| 0 <= i < |o.list| && o.list[i] == l;
    var j :| 0 <= j < |o.list| && o.list[j] == h;
  }

  lemma {:induction false} OverlayIsSettled(o: Lines, l: Line, vs: seq<Vals>)
    requires WellFormed(o) && l in o.list
    requires PlanProducts(o.list, vs).Ok?
    ensures Overlay(l, PlanProducts(o.list, vs).value) == Settled(l, vs)
    decreases |vs|
  {
    if vs != [] {
      var v, front := vs[|vs| - 1], vs[..|vs| - 1];
      OverlayIsSettled(o, l, front);
      SettledKeepsId(l, front);
      OverlayConcat(l, PlanProducts(o.list, front).value, PlanOne(o.list, v).value);
      OverlayOne(o, l, v, Settled(l, front));
    }
  }

  lemma {:induction false} PlanProductsShape(o: Lines, vs: seq<Vals>)
    requires WellFormed(o) && PlanProducts(o.list, vs).Ok?
    ensures forall c :: c in PlanProducts(o.list, vs).value ==> c.Create? || (c.Write? && c.id < o.next)
    decreases |vs|
  {
    if vs != [] {
      PlanProductsShape(o, vs[..|vs| - 1]);
      var hits := HitLines(o.list, vs[|vs| - 1]);
      if hits != [] { assert hits[0] in hits; }
    }
  }

  /** A line is set to zero exactly when it has a product and nothing incoming matches it. */
  lemma {:induction false} ZeroedIffUnmatched(ls: seq<Line>, vs: seq<Vals>)
    ensures forall c :: c in PlanZeroes(ls, vs) <==>
              exists l :: l in ls && l.product.Some? && !AnyHits(l, vs) && c == SetZero(l.id)
    decreases |ls|
  {
    if ls != [] {
      var front, last := ls[..|ls| - 1], ls[|ls| - 1];
      ZeroedIffUnmatched(front, vs);
      forall c ensures c in PlanZeroes(ls, vs) <==>
                exists l :: l in ls && l.product.Some? && !AnyHits(l, vs) && c == SetZero(l.id)
      {
        assert forall l :: l in ls <==> l in front || l == last;
      }
    }
  }

  lemma {:induction false} DisplayShape(ls: seq<Line>, vs: seq<Vals>)
    requires forall v :: v in vs ==> v.product.None?
    ensures forall c :: c in PlanDisplay(ls, vs) ==> c.Create? && c.vals.product.None?
    decreases |vs|
  {
    if vs != [] { DisplayShape(ls, vs[..|vs| - 1]); }
  }

  /**
    Every old product line is either matched or set to zero, never both: a matched line ends as
    the incoming lines that match it leave it, an unmatched one ends with quantity zero, and a
    section or note is left alone.
  */
  lemma MatchedOrZeroed(o: Lines, vs: seq<Vals>, l: Line)
    requires WellFormed(o) && l in o.list && Plan(o.list, vs).Ok?
    ensures var cmds := Plan(o.list, vs).value;
            && (AnyHits(l, Products(vs)) ==> SetZero(l.id) !in cmds && Overlay(l, cmds) == Settled(l, Products(vs)))
            && (!AnyHits(l, Products(vs)) && l.product.Some? ==>
                  SetZero(l.id) in cmds && Overlay(l, cmds) == l.(qty := 0.0))
            && (l.product.None? ==> Overlay(l, cmds) == l)
  {
    var ps, ds := Products(vs), Displays(vs);
    var a, b, c := PlanProducts(o.list, ps).value, PlanZeroes(o.list, ps), PlanDisplay(o.list, ds);
    OverlayConcat(l, a + b, c);
    OverlayConcat(l, a, b);
    OverlayIsSettled(o, l, ps);
    SettledKeepsId(l, ps);
    PlanProductsShape(o, ps);
    DisplayShape(o.list, ds);
    ZeroedIffUnmatched(o.list, ps);
    var settled := Settled(l, ps);
    forall m | m in o.list && m.id == l.id ensures m == l { }
    if !AnyHits(l, ps) {
      SettledUnmatched(l, ps);
      if l.product.Some? {
        assert SetZero(l.id) in b;
        OverlayZero(l, b);
      } else {
        assert Spares(b, l.id);
        OverlaySpared(l, b);
      }
    } else {
      assert Spares(b, l.id);
      OverlaySpared(settled, b);
      assert l.product.Some? by {
        var v :| v in ps && Hits(l, v);
        assert v.product.Some?;
      }
    }
    OverlaySpared(Overlay(settled, b), c) by {
      OverlayKeepsId(settled, b);
      assert Spares(c, l.id);
    }
  }

  lemma {:induction false} OverlayKeepsId(l: Line, cmds: seq<Command>)
    ensures Overlay(l, cmds).id == l.id
    decreases |cmds|
  {
    if cmds != [] { OverlayKeepsId(Touch(l, cmds[0]), cmds[1..]); }
  }

  lemma {:induction false} SettledUnmatched(l: Line, vs: seq<Vals>)
    requires !AnyHits(l, vs)
    ensures Settled(l, vs) == l
    decreases |vs|
  {
    if vs != [] {
      assert vs[|vs| - 1] in vs;
      assert forall v :: v in vs[..|vs| - 1] ==> v in vs;
      SettledUnmatched(l, vs[..|vs| - 1]);
    }
  }

  lemma {:induction false} OverlayZero(l: Line, cmds: seq<Command>)
    requires forall c :: c in cmds ==> c.SetZero?
    ensures Overlay(l, cmds) == if SetZero(l.id) in cmds then l.(qty := 0.0) else l
    decreases |cmds|
  {
    if cmds != [] {
      assert cmds[0] in cmds;
      OverlayZero(Touch(l, cmds[0]), cmds[1..]);
      assert forall c :: c in cmds <==> c == cmds[0] || c in cmds[1..];
    }
  }

  // ----- Exact accounting -----

  /** What the incoming lines matching `l` would amount to on a fresh order. */
  function HitFresh(l: Line, vs: seq<Vals>): real {
    if vs == [] then 0.0
    else HitFresh(l, vs[..|vs| - 1]) + (if Hits(l, vs[|vs| - 1]) then FreshSubtotal(vs[|vs| - 1]) else 0.0)
  }

  /** How far one matched line ends from what its incoming lines ask for; computable before the call. */
  function Drift(l: Line, vs: seq<Vals>): real {
    if AnyHits(l, vs) then Subtotal(Settled(l, vs)) - HitFresh(l, vs) else 0.0
  }

  function DriftTotal(ls: seq<Line>, vs: seq<Vals>): real {
    if ls == [] then 0.0 else Drift(ls[0], vs) + DriftTotal(ls[1..], vs)
  }

  function HitFreshTotal(ls: seq<Line>, vs: seq<Vals>): real {
    if ls == [] then 0.0 else HitFresh(ls[0], vs) + HitFreshTotal(ls[1..], vs)
  }

  lemma {:induction false} HitFreshTotalSnoc(ls: seq<Line>, front: seq<Vals>, v: Vals)
    requires |HitLines(ls, v)| <= 1 || FreshSubtotal(v) == 0.0
    ensures HitFreshTotal(ls, front + [v])
            == HitFreshTotal(ls, front) + if HitLines(ls, v) == [] then 0.0 else FreshSubtotal(v)
    decreases |ls|
  {
    if ls != [] {
      HitFreshTotalSnoc(ls[1..], front, v);
      assert (front + [v])[..|front|] == front;
    }
  }

  lemma {:induction false} HitFreshTotalNil(ls: seq<Line>)
    ensures HitFreshTotal(ls, []) == 0.0
    decreases |ls|
  {
    if ls != [] { HitFreshTotalNil(ls[1..]); }
  }

  lemma {:induction false} CreatedTotalConcat(a: seq<Command>, b: seq<Command>)
    ensures CreatedTotal(a + b) == CreatedTotal(a) + CreatedTotal(b)
    decreases |a|
  {
    if a == [] {
      assert a + b == b;
    } else {
      assert (a + b)[0] == a[0] && (a + b)[1..] == a[1..] + b;
      CreatedTotalConcat(a[1..], b);
    }
  }

  lemma {:induction false} CreatedTotalZero(cmds: seq<Command>)
    requires forall c :: c in cmds && c.Create? ==> c.vals.product.None?
    ensures CreatedTotal(cmds) == 0.0
    decreases |cmds|
  {
    if cmds != [] {
      assert cmds[0] in cmds;
      CreatedTotalZero(cmds[1..]);
    }
  }

  /** Incoming amounts are either created or accounted to the one line they match. */
  lemma {:induction false} FreshSplit(ls: seq<Line>, vs: seq<Vals>)
    requires PlanProducts(ls, vs).Ok?
    ensures FreshTotal(vs) == CreatedTotal(PlanProducts(ls, vs).value) + HitFreshTotal(ls, vs)
    decreases |vs|
  {
    if vs == [] {
      HitFreshTotalNil(ls);
    } else {
      var front, v := vs[..|vs| - 1], vs[|vs| - 1];
      assert vs == front + [v];
      FreshSplit(ls, front);
      var more := PlanOne(ls, v).value;
      if |HitLines(ls, v)| > 1 { assert FreshSubtotal(v) == FreshQty(v) * 0.0 == 0.0; }
      HitFreshTotalSnoc(ls, front, v);
      CreatedTotalConcat(PlanProducts(ls, front).value, more);
      if more != [] {
        assert more[1..] == [];
        assert CreatedTotal(more[1..]) == 0.0;
      }
    }
  }

  lemma {:induction false} OverlaySplit(o: Lines, vs: seq<Vals>, ls: seq<Line>)
    requires WellFormed(o) && Plan(o.list, vs).Ok?
    requires forall l :: l in ls ==> l in o.list
    ensures OverlayTotal(ls, Plan(o.list, vs).value) == HitFreshTotal(ls, Products(vs)) + DriftTotal(ls, Products(vs))
    decreases |ls|
  {
    if ls != [] {
      var l, ps := ls[0], Products(vs);
      assert l in o.list;
      OverlaySplit(o, vs, ls[1..]);
      MatchedOrZeroed(o, vs, l);
      if !AnyHits(l, ps) { HitFreshUnmatched(l, ps); }
    }
  }

  lemma {:induction false} HitFreshUnmatched(l: Line, vs: seq<Vals>)
    requires !AnyHits(l, vs)
    ensures HitFresh(l, vs) == 0.0
    decreases |vs|
  {
    if vs != [] {
      assert vs[|vs| - 1] in vs;
      assert forall v :: v in vs[..|vs| - 1] ==> v in vs;
      HitFreshUnmatched(l, vs[..|vs| - 1]);
    }
  }

  lemma {:induction false} FreshTotalProducts(vs: seq<Vals>)
    ensures FreshTotal(Products(vs)) == FreshTotal(vs)
    decreases |vs|
  {
    if vs != [] {
      var front, v := vs[..|vs| - 1], vs[|vs| - 1];
      FreshTotalProducts(front);
      if v.product.Some? {
        assert (Products(front) + [v])[..|Products(front)|] == Products(front);
      } else {
        assert Products(vs) == Products(front);
      }
    }
  }

  /** What a plan creates is what the matched lines leave out. */
  lemma PlanCreates(o: Lines, vs: seq<Vals>)
    requires WellFormed(o) && Plan(o.list, vs).Ok?
    ensures CreatedTotal(Plan(o.list, vs).value) == FreshTotal(vs) - HitFreshTotal(o.list, Products(vs))
  {
    var ps, ds := Products(vs), Displays(vs);
    var a, b, c := PlanProducts(o.list, ps).value, PlanZeroes(o.list, ps), PlanDisplay(o.list, ds);
    ZeroedIffUnmatched(o.list, ps);
    DisplayShape(o.list, ds);
    CreatedTotalConcat(a + b, c);
    CreatedTotalConcat(a, b);
    CreatedTotalZero(b);
    CreatedTotalZero(c);
    FreshSplit(o.list, ps);
    FreshTotalProducts(vs);
  }

  lemma PlanShape(o: Lines, vs: seq<Vals>)
    requires WellFormed(o) && Plan(o.list, vs).Ok?
    ensures forall c :: c in Plan(o.list, vs).value ==> c != ClearAll && (c.Write? || c.SetZero? ==> c.id < o.next)
  {
    PlanProductsShape(o, Products(vs));
    ZeroedIffUnmatched(o.list, Products(vs));
    DisplayShape(o.list, Displays(vs));
  }

  /**
    The total of the order after an in-place update, for every order and every update that goes
    through: the total a cleared and refilled order would have, plus the drift of the matched lines.
  */
  lemma InPlaceTotal(o: Lines, vs: seq<Vals>)
    requires WellFormed(o) && Plan(o.list, vs).Ok?
    ensures Total(Apply(o, Plan(o.list, vs).value).list) == FreshTotal(vs) + DriftTotal(o.list, Products(vs))
  {
    PlanShape(o, vs);
    ApplyTotal(o, Plan(o.list, vs).value);
    OverlaySplit(o, vs, o.list);
    PlanCreates(o, vs);
  }

  lemma {:induction false} RefillLines(o: Lines, vs: seq<Vals>)
    ensures Total(Apply(o, Creates(vs)).list) == Total(o.list) + FreshTotal(vs)
    decreases |vs|
  {
    if vs != [] {
      var front, v := vs[..|vs| - 1], vs[|vs| - 1];
      RefillLines(o, front);
      assert Creates(vs) == Creates(front) + [Create(v)];
      ApplyConcat(o, Creates(front), [Create(v)]);
      var mid := Apply(o, Creates(front));
      var fin := ApplyOne(mid, Create(v));
      assert [Create(v)][1..] == [];
      assert Apply(mid, [Create(v)]) == fin;
      TotalSnoc(mid.list, fin.list[|mid.list|]);
    } else {
      assert Creates(vs) == [];
    }
  }

  lemma {:induction false} TotalSnoc(ls: seq<Line>, l: Line)
    ensures Total(ls + [l]) == Total(ls) + Subtotal(l)
    decreases |ls|
  {
    if ls != [] {
      assert (ls + [l])[1..] == ls[1..] + [l];
      TotalSnoc(ls[1..], l);
    } else {
      assert (ls + [l])[1..] == [];
    }
  }

  /** Clearing and refilling gives the fresh total, whatever was on the order. */
  lemma RefillTotal(o: Lines, vs: seq<Vals>)
    ensures Total(Apply(o, [ClearAll] + Creates(vs)).list) == FreshTotal(vs)
  {
    ApplyConcat(o, [ClearAll], Creates(vs));
    assert [ClearAll][1..] == [];
    assert Apply(o, [ClearAll]) == o.(list := []);
    RefillLines(o.(list := []), vs);
  }

  // ----- When the two forms agree -----

  /** No line of the order is matched twice. */
  ghost predicate OneToOne(ls: seq<Line>, vs: seq<Vals>) {
    forall l, i, j :: l in ls && 0 <= i < j < |vs| && Hits(l, vs[i]) ==> !Hits(l, vs[j])
  }

  lemma OnlyHit(ls: seq<Line>, vs: seq<Vals>, l: Line, k: nat)
    requires OneToOne(ls, vs) && l in ls && k < |vs| && Hits(l, vs[k])
    ensures forall i :: 0 <= i < |vs| && i != k ==> !Hits(l, vs[i])
  {
    forall i | 0 <= i < |vs| && i != k ensures !Hits(l, vs[i]) {
      if i < k && Hits(l, vs[i]) {
        assert false;
      }
    }
  }

  /** Prices are present on everything that matches `l`. */
  ghost predicate Priced(l: Line, vs: seq<Vals>) {
    forall v :: v in vs && Hits(l, v) ==> v.product.Some? && v.price.Given?
  }

  ghost predicate LastHit(l: Line, vs: seq<Vals>, k: nat) {
    k < |vs| && Hits(l, vs[k]) && forall i :: k < i < |vs| ==> !Hits(l, vs[i])
  }

  lemma {:induction false} SettledByLast(l: Line, vs: seq<Vals>, k: nat)
    requires LastHit(l, vs, k) && vs[k].price.Given?
    ensures Settled(l, vs) == Written(Settled(l, vs[..k]), vs[k])
    ensures HitFresh(l, vs) == HitFresh(l, vs[..k]) + FreshSubtotal(vs[k])
    decreases |vs|
  {
    var n := |vs| - 1;
    if k < n {
      assert vs[..n][..k] == vs[..k];
      SettledByLast(l, vs[..n], k);
    }
  }

  /** What a line that holds quantity `q` gets too much when `v` is written over it. */
  function Excess(q: real, v: Vals): real
    requires v.price.Given?
  {
    if v.qty.Some? then 0.0 else (q - 1.0) * v.price.amount
  }

  lemma WrittenAgainstFresh(l: Line, v: Vals)
    requires v.product.Some? && v.price.Given?
    ensures Subtotal(Written(l, v)) == FreshSubtotal(v) + Excess(l.qty, v)
  {
    if v.qty.None? {
      var q, p := l.qty, v.price.amount;
      assert (q - 1.0) * p == q * p - p;
    }
  }

  /**
    A line that several incoming lines match keeps the last of them: it is short of all the ones
    before, and of what a missing quantity of the last one costs.
  */
  lemma DriftOfLastHit(l: Line, vs: seq<Vals>, k: nat)
    requires LastHit(l, vs, k) && Priced(l, vs)
    ensures Drift(l, vs) == Excess(Settled(l, vs[..k]).qty, vs[k]) - HitFresh(l, vs[..k])
  {
    SettledByLast(l, vs, k);
    assert vs[k] in vs && AnyHits(l, vs);
    WrittenAgainstFresh(Settled(l, vs[..k]), vs[k]);
  }

  /** Where a line is matched once by a priced line, only a missing quantity can make it drift. */
  lemma DriftOfSingleMatch(l: Line, vs: seq<Vals>, k: nat)
    requires k < |vs| && Hits(l, vs[k])
    requires forall i :: 0 <= i < |vs| && i != k ==> !Hits(l, vs[i])
    requires vs[k].product.Some? && vs[k].price.Given?
    ensures Drift(l, vs) == if vs[k].qty.Some? then 0.0 else (l.qty - 1.0) * vs[k].price.amount
  {
    DriftOfLastHit(l, vs, k);
    forall v | v in vs[..k] ensures !Hits(l, v) { }
    SettledUnmatched(l, vs[..k]);
    HitFreshUnmatched(l, vs[..k]);
  }

  lemma {:induction false} NoDrift(ls: seq<Line>, vs: seq<Vals>, part: seq<Line>)
    requires OneToOne(ls, vs) && forall l :: l in part ==> l in ls
    requires forall v :: v in vs ==> v.product.Some? && v.price.Given?
    requires forall l, v :: l in ls && v in vs && Hits(l, v) && v.qty.None? ==> l.qty == 1.0
    ensures DriftTotal(part, vs) == 0.0
    decreases |part|
  {
    if part != [] {
      var l := part[0];
      NoDrift(ls, vs, part[1..]);
      if AnyHits(l, vs) {
        var v :| v in vs && Hits(l, v);
        var k :| 0 <= k < |vs| && vs[k] == v;
        OnlyHit(ls, vs, l, k);
        DriftOfSingleMatch(l, vs, k);
      }
    }
  }

  /** One-to-one matching, prices present, quantity one where none is sent: the refined form equals the simple one. */
  lemma SameTotal(o: Lines, vs: seq<Vals>)
    requires WellFormed(o) && Plan(o.list, vs).Ok? && OneToOne(o.list, Products(vs))
    requires forall v :: v in vs && v.product.Some? ==> v.price.Given?
    requires forall l, v :: l in o.list && v in vs && v.product.Some? && Hits(l, v) && v.qty.None? ==> l.qty == 1.0
    ensures Total(Apply(o, Plan(o.list, vs).value).list) == Total(Apply(o, [ClearAll] + Creates(vs)).list)
  {
    InPlaceTotal(o, vs);
    RefillTotal(o, vs);
    NoDrift(o.list, Products(vs), o.list);
  }

  /**
    What the importer builds: prices on every product line; discounts and coupons carry no quantity
    and are never positive, and their lines hold quantity one until an update sets them to zero.
    Lines of the channel that share a line of the order are either all discounts and coupons, or
    charges (fees, taxes), which are never negative.
  */
  ghost predicate Regular(ls: seq<Line>, vs: seq<Vals>) {
    && (forall v :: v in vs ==> v.product.Some? && v.price.Given?)
    && (forall v :: v in vs && v.qty.None? ==> v.price.amount <= 0.0)
    && (forall l, v :: l in ls && v in vs && Hits(l, v) && v.qty.None? ==> l.qty == 0.0 || l.qty == 1.0)
    && (forall l, i, j :: l in ls && 0 <= i < j < |vs| && Hits(l, vs[i]) && Hits(l, vs[j]) ==> Alike(vs[i], vs[j]))
  }

  predicate Alike(v: Vals, w: Vals) {
    (v.qty.None? <==> w.qty.None?) && (v.qty.Some? ==> FreshSubtotal(v) >= 0.0)
  }

  /** A later value goes to the line that `v` goes to, or `v` has no quantity and its line was set to zero. */
  predicate ForgottenOn(l: Line, v: Vals, later: seq<Vals>) {
    Hits(l, v) && (AnyHits(l, later) || (v.qty.None? && l.qty == 0.0))
  }

  predicate Forgotten(ls: seq<Line>, v: Vals, later: seq<Vals>) {
    exists l :: l in ls && ForgottenOn(l, v, later)
  }

  function LostPart(ls: seq<Line>, v: Vals, later: seq<Vals>, charges: bool): real {
    if v.qty.Some? == charges && Forgotten(ls, v, later) then FreshSubtotal(v) else 0.0
  }

  /** The amounts that are forgotten: of charges, or of discounts and coupons. */
  function Lost(ls: seq<Line>, vs: seq<Vals>, charges: bool): real {
    if vs == [] then 0.0 else LostPart(ls, vs[0], vs[1..], charges) + Lost(ls, vs[1..], charges)
  }

  /** The same on one line. */
  function LostOn(l: Line, vs: seq<Vals>): real {
    if vs == [] then 0.0
    else (if ForgottenOn(l, vs[0], vs[1..]) then FreshSubtotal(vs[0]) else 0.0) + LostOn(l, vs[1..])
  }

  function LostOnAll(ls: seq<Line>, vs: seq<Vals>): real {
    if ls == [] then 0.0 else LostOn(ls[0], vs) + LostOnAll(ls[1..], vs)
  }

  lemma {:induction false} HitFreshCons(l: Line, v: Vals, rest: seq<Vals>)
    ensures HitFresh(l, [v] + rest) == (if Hits(l, v) then FreshSubtotal(v) else 0.0) + HitFresh(l, rest)
    decreases |rest|
  {
    var vs := [v] + rest;
    if rest == [] {
      assert vs[..0] == [];
    } else {
      var n := |rest| - 1;
      assert vs[..n + 1] == [v] + rest[..n];
      HitFreshCons(l, v, rest[..n]);
    }
  }

  lemma {:induction false} LostOnUnmatched(l: Line, vs: seq<Vals>)
    requires !AnyHits(l, vs)
    ensures LostOn(l, vs) == 0.0
    decreases |vs|
  {
    if vs != [] {
      assert vs[0] in vs;
      LostOnUnmatched(l, vs[1..]);
    }
  }

  lemma {:induction false} LostOnByLast(l: Line, vs: seq<Vals>, k: nat)
    requires LastHit(l, vs, k)
    ensures LostOn(l, vs)
         == HitFresh(l, vs[..k]) + if vs[k].qty.None? && l.qty == 0.0 then FreshSubtotal(vs[k]) else 0.0
    decreases |vs|
  {
    var rest := vs[1..];
    if k == 0 {
      forall v | v in rest ensures !Hits(l, v) { }
      LostOnUnmatched(l, rest);
    } else {
      assert rest[k - 1] == vs[k] && rest[k - 1] in rest;
      forall i | k - 1 < i < |rest| ensures !Hits(l, rest[i]) { assert rest[i] == vs[i + 1]; }
      LostOnByLast(l, rest, k - 1);
      assert vs[..k] == [vs[0]] + rest[..k - 1];
      HitFreshCons(l, vs[0], rest[..k - 1]);
    }
  }

  lemma {:induction false} FindLast(l: Line, vs: seq<Vals>) returns (k: nat)
    requires AnyHits(l, vs)
    ensures LastHit(l, vs, k)
    decreases |vs|
  {
    var front, v := vs[..|vs| - 1], vs[|vs| - 1];
    k := |vs| - 1;
    if !Hits(l, v) {
      assert forall w :: w in vs ==> w in front || w == v;
      k := FindLast(l, front);
    }
  }

  lemma {:induction false} SettledKeepsQty(l: Line, vs: seq<Vals>)
    requires forall v :: v in vs && Hits(l, v) ==> v.qty.None?
    ensures Settled(l, vs).qty == l.qty
    decreases |vs|
  {
    if vs != [] {
      assert vs[|vs| - 1] in vs;
      SettledKeepsQty(l, vs[..|vs| - 1]);
    }
  }

  /** Discounts and coupons on one line: all before the last are forgotten, the last as well on a zeroed line. */
  lemma DiscountDrift(l: Line, vs: seq<Vals>, k: nat)
    requires LastHit(l, vs, k) && Priced(l, vs) && (l.qty == 0.0 || l.qty == 1.0)
    requires forall i :: 0 <= i <= k && Hits(l, vs[i]) ==> vs[i].qty.None?
    ensures Drift(l, vs) == -LostOn(l, vs)
  {
    assert vs[k] in vs;
    LostOnByLast(l, vs, k);
    DriftOfLastHit(l, vs, k);
    SettledKeepsQty(l, vs[..k]);
    ZeroOrOne(l.qty, vs[k].price.amount);
  }

  lemma DriftIsLost(ls: seq<Line>, vs: seq<Vals>, l: Line)
    requires Regular(ls, vs) && l in ls
    ensures Drift(l, vs) == -LostOn(l, vs)
  {
    if AnyHits(l, vs) {
      var k := FindLast(l, vs);
      assert vs[k] in vs;
      if vs[k].qty.None? {
        forall i | 0 <= i <= k && Hits(l, vs[i]) ensures vs[i].qty.None? {
          if i < k { assert Alike(vs[i], vs[k]); }
        }
        DiscountDrift(l, vs, k);
      } else {
        LostOnByLast(l, vs, k);
        DriftOfLastHit(l, vs, k);
      }
    } else {
      LostOnUnmatched(l, vs);
    }
  }

  lemma ZeroOrOne(q: real, p: real)
    requires q == 0.0 || q == 1.0
    ensures (q - 1.0) * p == if q == 0.0 then -p else 0.0
  { }

  lemma {:induction false} DriftTotalIsLost(ls: seq<Line>, vs: seq<Vals>, part: seq<Line>)
    requires Regular(ls, vs) && forall l :: l in part ==> l in ls
    ensures DriftTotal(part, vs) == -LostOnAll(part, vs)
    decreases |part|
  {
    if part != [] {
      assert part[0] in part;
      DriftIsLost(ls, vs, part[0]);
      DriftTotalIsLost(ls, vs, part[1..]);
    }
  }

  /** A value that goes to one line at most is forgotten once at most. */
  lemma {:induction false} LostOnAllCons(ls: seq<Line>, v: Vals, rest: seq<Vals>)
    requires |HitLines(ls, v)| <= 1
    ensures LostOnAll(ls, [v] + rest)
         == LostOnAll(ls, rest) + if Forgotten(ls, v, rest) then FreshSubtotal(v) else 0.0
    decreases |ls|
  {
    if ls != [] {
      var l := ls[0];
      assert ([v] + rest)[1..] == rest;
      LostOnAllCons(ls[1..], v, rest);
      assert forall m :: m in ls <==> m == l || m in ls[1..];
      if Hits(l, v) {
        assert HitLines(ls[1..], v) == [];
        assert forall m :: m in ls[1..] && Hits(m, v) ==> m in HitLines(ls[1..], v);
      }
    }
  }

  lemma {:induction false} LostOnAllNil(ls: seq<Line>)
    ensures LostOnAll(ls, []) == 0.0
    decreases |ls|
  {
    if ls != [] { LostOnAllNil(ls[1..]); }
  }

  lemma {:induction false} LostSplit(ls: seq<Line>, vs: seq<Vals>)
    requires forall v :: v in vs ==> |HitLines(ls, v)| <= 1
    ensures LostOnAll(ls, vs) == Lost(ls, vs, true) + Lost(ls, vs, false)
    decreases |vs|
  {
    if vs == [] {
      LostOnAllNil(ls);
    } else {
      assert vs[0] in vs;
      assert vs == [vs[0]] + vs[1..];
      LostOnAllCons(ls, vs[0], vs[1..]);
      LostSplit(ls, vs[1..]);
    }
  }

  /** The total after an in-place update of what the importer builds: everything but what is forgotten. */
  lemma LostAmounts(o: Lines, vs: seq<Vals>)
    requires WellFormed(o) && Plan(o.list, vs).Ok? && Regular(o.list, Products(vs))
    ensures var ps := Products(vs);
            Total(Apply(o, Plan(o.list, vs).value).list)
            == FreshTotal(vs) - Lost(o.list, ps, true) - Lost(o.list, ps, false)
  {
    InPlaceTotal(o, vs);
    DriftTotalIsLost(o.list, Products(vs), o.list);
    PlanSucceedsIff(o.list, Products(vs));
    LostSplit(o.list, Products(vs));
  }

  /** Nothing that has an amount is forgotten. */
  predicate NothingLost(ls: seq<Line>, vs: seq<Vals>, charges: bool) {
    forall i :: 0 <= i < |vs| ==> LostPart(ls, vs[i], vs[i + 1..], charges) == 0.0
  }

  lemma NothingLostCons(ls: seq<Line>, vs: seq<Vals>, charges: bool)
    requires vs != []
    ensures NothingLost(ls, vs, charges)
       <==> NothingLost(ls, vs[1..], charges) && LostPart(ls, vs[0], vs[1..], charges) == 0.0
  {
    var rest := vs[1..];
    forall i | 0 <= i < |rest| ensures rest[i] == vs[i + 1] && rest[i + 1..] == vs[i + 1 + 1..] { }
    if NothingLost(ls, vs, charges) {
      forall i | 0 <= i < |rest| ensures LostPart(ls, rest[i], rest[i + 1..], charges) == 0.0 {
        assert vs[i + 1] == rest[i] && vs[i + 1 + 1..] == rest[i + 1..];
      }
    }
    if NothingLost(ls, rest, charges) && LostPart(ls, vs[0], rest, charges) == 0.0 {
      forall i | 0 < i < |vs| ensures LostPart(ls, vs[i], vs[i + 1..], charges) == 0.0 {
        assert rest[i - 1] == vs[i] && rest[i - 1 + 1..] == vs[i + 1..];
      }
    }
  }

  lemma RegularRest(ls: seq<Line>, vs: seq<Vals>)
    requires Regular(ls, vs) && vs != []
    ensures Regular(ls, vs[1..])
  {
    var rest := vs[1..];
    forall l, i, j | l in ls && 0 <= i < j < |rest| && Hits(l, rest[i]) && Hits(l, rest[j])
      ensures Alike(rest[i], rest[j])
    {
      assert rest[i] == vs[i + 1] && rest[j] == vs[j + 1];
    }
  }

  lemma PartSign(ls: seq<Line>, v: Vals, rest: seq<Vals>, charges: bool)
    requires Regular(ls, [v] + rest)
    ensures if charges then LostPart(ls, v, rest, charges) >= 0.0 else LostPart(ls, v, rest, charges) <= 0.0
  {
    var vs := [v] + rest;
    assert vs[0] == v;
    if Forgotten(ls, v, rest) && v.qty.Some? {
      var l :| l in ls && ForgottenOn(l, v, rest);
      var w :| w in rest && Hits(l, w);
      var j :| 0 <= j < |rest| && rest[j] == w;
      assert vs[j + 1] == w;
      assert Alike(vs[0], vs[j + 1]);
    }
  }

  /** Forgotten charges add up to something positive, forgotten discounts to something negative. */
  lemma {:induction false} LostSign(ls: seq<Line>, vs: seq<Vals>, charges: bool)
    requires Regular(ls, vs)
    ensures if charges then Lost(ls, vs, charges) >= 0.0 else Lost(ls, vs, charges) <= 0.0
    ensures Lost(ls, vs, charges) == 0.0 <==> NothingLost(ls, vs, charges)
    decreases |vs|
  {
    if vs != [] {
      var v, rest := vs[0], vs[1..];
      assert vs == [v] + rest;
      RegularRest(ls, vs);
      PartSign(ls, v, rest, charges);
      LostSign(ls, rest, charges);
      NothingLostCons(ls, vs, charges);
    }
  }

  /**
    For everything the importer builds: the in-place update reaches the total of a refilled order if
    and only if the charges it forgets are worth as much as the discounts and coupons it forgets.
  */
  lemma SameTotalIff(o: Lines, vs: seq<Vals>)
    requires WellFormed(o) && Plan(o.list, vs).Ok? && Regular(o.list, Products(vs))
    ensures Total(Apply(o, Plan(o.list, vs).value).list) == Total(Apply(o, [ClearAll] + Creates(vs)).list)
            <==> Lost(o.list, Products(vs), true) == -Lost(o.list, Products(vs), false)
  {
    LostAmounts(o, vs);
    RefillTotal(o, vs);
  }

  /**
    Where no charge with an amount is forgotten, or no discount is: the totals agree if and only if
    nothing with an amount is forgotten at all.
  */
  lemma SameTotalIffNothingLost(o: Lines, vs: seq<Vals>)
    requires WellFormed(o) && Plan(o.list, vs).Ok? && Regular(o.list, Products(vs))
    requires exists side :: NothingLost(o.list, Products(vs), side)
    ensures Total(Apply(o, Plan(o.list, vs).value).list) == Total(Apply(o, [ClearAll] + Creates(vs)).list)
            <==> forall side :: NothingLost(o.list, Products(vs), side)
  {
    SameTotalIff(o, vs);
    LostSign(o.list, Products(vs), true);
    LostSign(o.list, Products(vs), false);
  }

  lemma TwoProducts(a: Vals, b: Vals)
    requires a.product.Some? && b.product.Some?
    ensures Products([a, b]) == [a, b] && FreshTotal([a, b]) == FreshSubtotal(a) + FreshSubtotal(b)
  {
    assert [a, b][..1] == [a] && [a][..0] == [];
    assert Products([a]) == Products([]) + [a];
    assert Products([a, b]) == Products([a]) + [b];
    assert FreshTotal([a]) == FreshTotal([]) + FreshSubtotal(a);
  }

  lemma LoneHits(l: Line, v: Vals)
    requires Hits(l, v)
    ensures |HitLines([l], v)| == 1
  {
    assert [l][1..] == [];
    assert HitLines([l], v) == [l] + HitLines([], v);
  }

  lemma PlanOfTwo(l: Line, a: Vals, b: Vals)
    requires Hits(l, a) && Hits(l, b) && a.product.Some? && b.product.Some?
    ensures Plan([l], [a, b]).Ok?
  {
    TwoProducts(a, b);
    LoneHits(l, a);
    LoneHits(l, b);
    PlanSucceedsIff([l], [a, b]);
  }

  /** Two values that go to the only line of an order: the first is forgotten. */
  lemma FirstOfTwoForgotten(o: Lines, l: Line, vs: seq<Vals>, a: Vals, b: Vals)
    requires o == Lines([l], l.id + 1) && vs == [a, b] && Hits(l, a) && Hits(l, b) && l.product.Some?
    requires a.product.Some? && b.product.Some? && Regular([l], vs) && (b.qty.None? ==> l.qty == 1.0)
    ensures Plan(o.list, vs).Ok?
    ensures Total(Apply(o, Plan(o.list, vs).value).list) == FreshSubtotal(b)
    ensures Total(Apply(o, [ClearAll] + Creates(vs)).list) == FreshSubtotal(a) + FreshSubtotal(b)
  {
    PlanOfTwo(l, a, b);
    TwoProducts(a, b);
    SingleOrder(o, l);
    LostOfTwo(l, a, b);
    LostAmounts(o, vs);
    RefillTotal(o, vs);
  }

  lemma LostOfTwo(l: Line, a: Vals, b: Vals)
    requires Hits(l, a) && Hits(l, b) && (b.qty.None? ==> l.qty == 1.0)
    ensures Lost([l], [a, b], true) + Lost([l], [a, b], false) == FreshSubtotal(a)
  {
    assert [a, b][1..] == [b] && [b][1..] == [];
    assert b in [b] && l in [l];
    assert ForgottenOn(l, a, [b]) && Forgotten([l], a, [b]);
    assert !AnyHits(l, []);
    assert !Forgotten([l], b, []);
    assert Lost([l], [b], true) == 0.0 && Lost([l], [b], false) == 0.0;
  }

  /** What the importer builds for a discount, a coupon and a tax (order_processing_helper.py:72-97, 131-139). */
  function DiscountVals(product: nat, amount: real): Vals {
    Vals("", Some(product), "Discounts", None, Given(-amount), {Discount})
  }

  function CouponVals(product: nat, code: string, amount: real): Vals {
    Vals("", Some(product), code, None, Given(-amount), {Coupon})
  }

  function TaxVals(product: nat, name: string, amount: real): Vals {
    Vals("", Some(product), name, Some(1.0), Given(amount), {Tax})
  }

  lemma TwoRegular(l: Line, vs: seq<Vals>, a: Vals, b: Vals)
    requires vs == [a, b] && Alike(a, b) && (a.qty.None? ==> l.qty == 1.0)
    requires a.product.Some? && a.price.Given? && (a.qty.None? ==> a.price.amount <= 0.0)
    requires b.product.Some? && b.price.Given? && (b.qty.None? ==> b.price.amount <= 0.0)
    ensures Regular([l], vs)
  { }

  lemma DiscountFacts(l: Line, product: nat, discount: real, coupon: real)
    requires l.product == Some(product)
    ensures Hits(l, DiscountVals(product, discount)) && Hits(l, CouponVals(product, l.name, coupon))
    ensures FreshSubtotal(DiscountVals(product, discount)) == -discount
    ensures FreshSubtotal(CouponVals(product, l.name, coupon)) == -coupon
  { }

  /** A discount that joins a lone coupon is written to the coupon's line, and then the coupon over it. */
  lemma DiscountJoinsCoupon(o: Lines, l: Line, vs: seq<Vals>, product: nat, discount: real, coupon: real)
    requires o == Lines([l], l.id + 1) && l.product == Some(product) && l.qty == 1.0
    requires vs == [DiscountVals(product, discount), CouponVals(product, l.name, coupon)]
    requires discount > 0.0 && coupon > 0.0
    ensures Plan(o.list, vs).Ok?
    ensures Total(Apply(o, Plan(o.list, vs).value).list) == -coupon
    ensures Total(Apply(o, [ClearAll] + Creates(vs)).list) == -discount - coupon
  {
    var a, b := DiscountVals(product, discount), CouponVals(product, l.name, coupon);
    DiscountFacts(l, product, discount, coupon);
    TwoRegular(l, vs, a, b);
    FirstOfTwoForgotten(o, l, vs, a, b);
  }

  /** Two taxes where there was one: the order keeps the second only. */
  lemma SecondTaxReplacesFirst(o: Lines, l: Line, vs: seq<Vals>, product: nat, a: string, b: string, x: real, y: real)
    requires o == Lines([l], l.id + 1) && l.product == Some(product)
    requires vs == [TaxVals(product, a, x), TaxVals(product, b, y)]
    requires x > 0.0 && y > 0.0
    ensures Plan(o.list, vs).Ok?
    ensures Total(Apply(o, Plan(o.list, vs).value).list) == y
    ensures Total(Apply(o, [ClearAll] + Creates(vs)).list) == x + y
  {
    var v, w := TaxVals(product, a, x), TaxVals(product, b, y);
    TwoRegular(l, vs, v, w);
    FirstOfTwoForgotten(o, l, vs, v, w);
  }

  // ----- Orders stay well formed, and zeroed lines stay zero -----

  /** Display lines of the channel carry no channel ID. */
  predicate PlainDisplays(vs: seq<Vals>) {
    forall v :: v in vs && v.product.None? ==> v.ioc == ""
  }

  /** A command that a planned update may hold. */
  predicate Planned(o: Lines, c: Command) {
    match c
    case ClearAll => false
    case Create(v) => v.product.None? ==> v.ioc == ""
    case Write(id, _) => id < o.next && forall l :: l in o.list && l.id == id ==> l.product.Some?
    case SetZero(id) => id < o.next
  }

  lemma StepWellFormed(o: Lines, c: Command)
    requires WellFormed(o) && Planned(o, c)
    ensures WellFormed(ApplyOne(o, c))
  {
    match c
    case Create(_) => assert ApplyOne(o, c).list[..|o.list|] == o.list;
    case Write(_, _) => TouchKeeps(o, c);
    case SetZero(_) => TouchKeeps(o, c);
  }

  lemma TouchKeeps(o: Lines, c: Command)
    requires WellFormed(o) && Planned(o, c) && (c.Write? || c.SetZero?)
    ensures WellFormed(o.(list := TouchAll(o.list, c)))
  {
    var ls := TouchAll(o.list, c);
    forall i | 0 <= i < |ls|
      ensures ls[i].id == o.list[i].id
      ensures ls[i].product.None? ==> ls[i].qty == 0.0 && ls[i].price == 0.0 && ls[i].ioc == ""
    {
      assert o.list[i] in o.list;
    }
  }

  lemma StillPlanned(o: Lines, c: Command, d: Command)
    requires Planned(o, c) && Planned(o, d)
    ensures Planned(ApplyOne(o, c), d)
  {
    var a := ApplyOne(o, c);
    if d.Write? {
      forall l | l in a.list && l.id == d.id ensures l.product.Some? {
        var i :| 0 <= i < |a.list| && a.list[i] == l;
        if i < |o.list| { assert o.list[i] in o.list && o.list[i].id == l.id; }
      }
    }
  }

  lemma {:induction false} ApplyKeeps(o: Lines, cmds: seq<Command>, l: Line)
    requires WellFormed(o) && l in o.list && forall c :: c in cmds ==> Planned(o, c)
    ensures WellFormed(Apply(o, cmds)) && Overlay(l, cmds) in Apply(o, cmds).list
    decreases |cmds|
  {
    if cmds != [] {
      var c := cmds[0];
      var a := ApplyOne(o, c);
      assert c in cmds;
      StepWellFormed(o, c);
      forall d | d in cmds[1..] ensures Planned(a, d) {
        assert d in cmds;
        StillPlanned(o, c, d);
      }
      var i :| 0 <= i < |o.list| && o.list[i] == l;
      assert a.list[i] == Touch(l, c);
      ApplyKeeps(a, cmds[1..], Touch(l, c));
    }
  }

  lemma HitsProduct(o: Lines, h: Line, v: Vals)
    requires WellFormed(o) && h in o.list && Hits(h, v) && v.product.Some?
    ensures h.product.Some?
  { }

  lemma {:induction false} ProductsPlanned(o: Lines, vs: seq<Vals>)
    requires WellFormed(o) && PlanProducts(o.list, vs).Ok? && forall v :: v in vs ==> v.product.Some?
    ensures forall c :: c in PlanProducts(o.list, vs).value ==> Planned(o, c)
    decreases |vs|
  {
    if vs != [] {
      var front, v := vs[..|vs| - 1], vs[|vs| - 1];
      ProductsPlanned(o, front);
      var hits := HitLines(o.list, v);
      if hits != [] {
        assert hits[0] in hits;
        HitsProduct(o, hits[0], v);
        forall l | l in o.list && l.id == hits[0].id ensures l.product.Some? { SameRecord(o, l, hits[0]); }
      }
    }
  }

  lemma {:induction false} DisplaysPlanned(o: Lines, ls: seq<Line>, vs: seq<Vals>)
    requires PlainDisplays(vs)
    ensures forall c :: c in PlanDisplay(ls, vs) ==> Planned(o, c)
    decreases |vs|
  {
    if vs != [] {
      DisplaysPlanned(o, ls, vs[..|vs| - 1]);
      assert vs[|vs| - 1] in vs;
    }
  }

  lemma PlanIsPlanned(o: Lines, vs: seq<Vals>)
    requires WellFormed(o) && Plan(o.list, vs).Ok? && PlainDisplays(vs)
    ensures forall c :: c in Plan(o.list, vs).value ==> Planned(o, c)
  {
    ProductsPlanned(o, Products(vs));
    ZeroedIffUnmatched(o.list, Products(vs));
    DisplaysPlanned(o, o.list, Displays(vs));
  }

  /** After an update every old line is still there, matched or zeroed, on a well-formed order. */
  lemma UpdateKeepsLine(o: Lines, vs: seq<Vals>, l: Line)
    requires WellFormed(o) && l in o.list && Plan(o.list, vs).Ok? && PlainDisplays(vs)
    ensures var after := Apply(o, Plan(o.list, vs).value);
            && WellFormed(after)
            && (l.product.Some? && !AnyHits(l, Products(vs)) ==> l.(qty := 0.0) in after.list)
  {
    PlanIsPlanned(o, vs);
    ApplyKeeps(o, Plan(o.list, vs).value, l);
    MatchedOrZeroed(o, vs, l);
  }

  /** Lines that a later update restores, all but one: the drift is that of the one. */
  ghost predicate OthersRestored(ls: seq<Line>, vs: seq<Vals>, z: Line) {
    && OneToOne(ls, vs)
    && (forall v :: v in vs ==> v.product.Some? && v.price.Given?)
    && (forall l, v :: l in ls && l != z && v in vs && Hits(l, v) && v.qty.None? ==> l.qty == 1.0)
  }

  lemma OtherNoDrift(ls: seq<Line>, vs: seq<Vals>, z: Line, l: Line)
    requires OthersRestored(ls, vs, z) && l in ls && l != z
    ensures Drift(l, vs) == 0.0
  {
    if AnyHits(l, vs) {
      var v :| v in vs && Hits(l, v);
      var k :| 0 <= k < |vs| && vs[k] == v;
      OnlyHit(ls, vs, l, k);
      DriftOfSingleMatch(l, vs, k);
    }
  }

  lemma {:induction false} DriftTotalOfOne(ls: seq<Line>, vs: seq<Vals>, z: Line, part: seq<Line>)
    requires OthersRestored(ls, vs, z) && forall l :: l in part ==> l in ls
    requires forall i, j :: 0 <= i < j < |part| ==> part[i] != part[j]
    ensures DriftTotal(part, vs) == if z in part then Drift(z, vs) else 0.0
    decreases |part|
  {
    if part != [] {
      var l, rest := part[0], part[1..];
      forall i, j | 0 <= i < j < |rest| ensures rest[i] != rest[j] { assert part[i + 1] != part[j + 1]; }
      DriftTotalOfOne(ls, vs, z, rest);
      assert l !in rest;
      if l != z { OtherNoDrift(ls, vs, z, l); }
    }
  }

  lemma ZeroedDrift(ls: seq<Line>, ps: seq<Vals>, z: Line, v: Vals)
    requires z in ls && z.qty == 0.0 && v in ps && Hits(z, v) && v.qty.None? && OthersRestored(ls, ps, z)
    requires forall i, j :: 0 <= i < j < |ls| ==> ls[i] != ls[j]
    ensures v.price.Given? && DriftTotal(ls, ps) == -v.price.amount
  {
    var k :| 0 <= k < |ps| && ps[k] == v;
    OnlyHit(ls, ps, z, k);
    DriftOfSingleMatch(z, ps, k);
    DriftTotalOfOne(ls, ps, z, ls);
  }

  /** A line whose quantity is zero loses exactly what it should be worth again. */
  lemma ZeroedLoses(o: Lines, vs: seq<Vals>, z: Line, v: Vals)
    requires WellFormed(o) && z in o.list && z.qty == 0.0 && Plan(o.list, vs).Ok?
    requires v in Products(vs) && Hits(z, v) && v.qty.None? && OthersRestored(o.list, Products(vs), z)
    ensures Total(Apply(o, Plan(o.list, vs).value).list) == FreshTotal(vs) - v.price.amount
  {
    forall i, j | 0 <= i < j < |o.list| ensures o.list[i] != o.list[j] { assert o.list[i].id != o.list[j].id; }
    ZeroedDrift(o.list, Products(vs), z, v);
    InPlaceTotal(o, vs);
  }

  /**
    On any order: a discount or coupon line that one update leaves out and a later one brings back is
    lost. The second update ends at the refilled total minus its amount (a discount's amount is
    negative, so the order is too dear), when everything else is restored.
  */
  lemma ZeroedDiscountIsLost(o: Lines, l: Line, us: seq<Vals>, vs: seq<Vals>, v: Vals)
    requires WellFormed(o) && l in o.list && l.product.Some?
    requires Plan(o.list, us).Ok? && PlainDisplays(us) && !AnyHits(l, Products(us))
    requires var dropped := Apply(o, Plan(o.list, us).value);
             && Plan(dropped.list, vs).Ok? && v in Products(vs) && Hits(l, v) && v.qty.None?
             && OthersRestored(dropped.list, Products(vs), l.(qty := 0.0))
    ensures var dropped := Apply(o, Plan(o.list, us).value);
            Total(Apply(dropped, Plan(dropped.list, vs).value).list) == FreshTotal(vs) - v.price.amount
  {
    UpdateKeepsLine(o, us, l);
    ZeroedLoses(Apply(o, Plan(o.list, us).value), vs, l.(qty := 0.0), v);
  }

  lemma LineDropped(l: Line)
    requires l.product.Some?
    ensures Plan([l], []).Ok?
    ensures Apply(Lines([l], l.id + 1), Plan([l], []).value) == Lines([l.(qty := 0.0)], l.id + 1)
  {
    assert PlanZeroes([l], []) == [SetZero(l.id)] by {
      assert PlanZeroes([l][..0], []) == [];
      assert !AnyHits(l, []);
    }
    assert [] + [SetZero(l.id)] + [] == [SetZero(l.id)];
    assert [SetZero(l.id)][1..] == [];
    assert TouchAll([l], SetZero(l.id)) == [l.(qty := 0.0)];
  }

  lemma SingleUpdate(z: Line, v: Vals)
    requires Hits(z, v) && v.product.Some? && v.price.Given?
    ensures Plan([z], [v]).Ok? && Products([v]) == [v] && OthersRestored([z], [v], z)
    ensures FreshTotal([v]) == FreshSubtotal(v)
  {
    assert [v][..0] == [] && [z][1..] == [];
    assert Products([v]) == Products([]) + [v];
    assert HitLines([z], v) == [z] + HitLines([], v);
    PlanSucceedsIff([z], [v]);
    assert FreshTotal([v]) == FreshTotal([]) + FreshSubtotal(v);
  }

  lemma SingleOrder(o: Lines, z: Line)
    requires o.list == [z] && z.id < o.next && z.product.Some?
    ensures WellFormed(o)
  { }

  /** The shortest case: an order of nothing but a discount, which one update drops and the next brings back. */
  lemma LoneDiscountIsLost(o: Lines, l: Line, us: seq<Vals>, vs: seq<Vals>, v: Vals)
    requires o == Lines([l], l.id + 1) && l.product.Some? && us == [] && vs == [v]
    requires Hits(l, v) && v.product.Some? && v.price.Given? && v.qty.None?
    ensures Plan(o.list, us).Ok?
    ensures var dropped := Apply(o, Plan(o.list, us).value);
            && Plan(dropped.list, vs).Ok?
            && Total(Apply(dropped, Plan(dropped.list, vs).value).list) == 0.0
    ensures FreshTotal(vs) == v.price.amount
  {
    SingleOrder(o, l);
    LineDropped(l);
    SingleUpdate(l.(qty := 0.0), v);
    ZeroedDiscountIsLost(o, l, us, vs, v);
  }
}
