/**
  What an update of a sale order does to each single line, stated by the fields of the line and of the
  values that the channel sends (multichannel_order/models/sale_order.py).
*/
module OrderUpdateLines {
  import opened Wrappers
  import opened OrderUpdate

  function Updated(o: Lines, vs: seq<Vals>): Lines
    requires Plan(o.list, vs).Ok?
  {
    Apply(o, Plan(o.list, vs).value)
  }

  /** Line `m` is a new one with the values `v`: one unit and no price where `v` does not say. */
  predicate NewLine(m: Line, v: Vals) {
    && m.ioc == v.ioc && m.product == v.product && m.name == v.name
    && m.qty == (if v.product.None? then 0.0 else if v.qty.Some? then v.qty.value else 1.0)
    && m.price == (if v.product.Some? && v.price.Given? then v.price.amount else 0.0)
  }

  // ----- When an update raises -----

  lemma {:induction false} TwoLinesHit(ls: seq<Line>, v: Vals)
    requires forall i, j :: 0 <= i < j < |ls| ==> ls[i].id != ls[j].id
    requires |HitLines(ls, v)| > 1
    ensures exists l, m :: l in ls && m in ls && l != m && Hits(l, v) && Hits(m, v)
    decreases |ls|
  {
    var l, rest := ls[0], ls[1..];
    if |HitLines(rest, v)| > 1 {
      TwoLinesHit(rest, v);
    } else {
      assert HitLines(ls, v) == [l] + HitLines(rest, v);
      var m := HitLines(rest, v)[0];
      assert m in HitLines(rest, v) && m in rest;
      var j :| 0 <= j < |rest| && rest[j] == m;
      assert ls[0].id != ls[j + 1].id;
      assert l in ls && m in ls;
    }
  }

  /** A priced value that stands for two lines: they share its ID, or its product (and code) where it has no ID. */
  predicate Ambiguous(v: Vals, l: Line, m: Line) {
    && v.product.Some? && !v.price.Null? && l != m
    && (if v.ioc != "" then l.ioc == v.ioc && m.ioc == v.ioc
        else v.flags != {} && l.product == v.product && m.product == v.product)
    && (Coupon in v.flags ==> l.name == v.name && m.name == v.name)
  }

  lemma BothHit(v: Vals, l: Line, m: Line)
    ensures Ambiguous(v, l, m) <==> v.product.Some? && !v.price.Null? && l != m && Hits(l, v) && Hits(m, v)
  { }

  lemma RaisesOnAmbiguous(o: Lines, vs: seq<Vals>, v: Vals, l: Line, m: Line)
    requires v in vs && l in o.list && m in o.list && Ambiguous(v, l, m)
    ensures Plan(o.list, vs).Err?
  {
    BothHit(v, l, m);
    TwoHits(o.list, v, l, m);
    PlanSucceedsIff(o.list, Products(vs));
    assert v in Products(vs);
  }

  /** An update raises exactly when one of its values is ambiguous on the order. */
  lemma RaisesIff(o: Lines, vs: seq<Vals>)
    requires WellFormed(o)
    ensures Plan(o.list, vs).Err? <==> exists v, l, m :: v in vs && l in o.list && m in o.list && Ambiguous(v, l, m)
  {
    if Plan(o.list, vs).Err? {
      PlanSucceedsIff(o.list, Products(vs));
      var v :| v in Products(vs) && !v.price.Null? && |HitLines(o.list, v)| > 1;
      TwoLinesHit(o.list, v);
      var l, m :| l in o.list && m in o.list && l != m && Hits(l, v) && Hits(m, v);
      BothHit(v, l, m);
    }
    if v, l, m :| v in vs && l in o.list && m in o.list && Ambiguous(v, l, m) {
      RaisesOnAmbiguous(o, vs, v, l, m);
    }
  }

  // ----- Stored lines -----

  lemma {:induction false} SettledBySame(l: Line, vs: seq<Vals>, v: Vals)
    requires forall w :: w in vs && Hits(l, w) ==> w == v
    ensures Settled(l, vs) == if v in vs && Hits(l, v) && !v.price.Null? then Written(l, v) else l
    decreases |vs|
  {
    if vs != [] {
      var front, w := vs[..|vs| - 1], vs[|vs| - 1];
      assert vs == front + [w];
      SettledBySame(l, front, v);
    }
  }

  lemma UpdatedLine(o: Lines, vs: seq<Vals>, l: Line)
    requires WellFormed(o) && l in o.list && Plan(o.list, vs).Ok? && PlainDisplays(vs)
    ensures WellFormed(Updated(o, vs)) && Overlay(l, Plan(o.list, vs).value) in Updated(o, vs).list
  {
    PlanIsPlanned(o, vs);
    ApplyKeeps(o, Plan(o.list, vs).value, l);
  }

  /** The one value that goes to line `l`. */
  lemma OnlyValue(o: Lines, vs: seq<Vals>, v: Vals, l: Line)
    requires WellFormed(o) && l in o.list && Plan(o.list, vs).Ok? && PlainDisplays(vs)
    requires v in vs && v.product.Some? && Hits(l, v)
    requires forall w :: w in vs && w != v && w.product.Some? ==> !Hits(l, w)
    ensures (if v.price.Null? then l else Written(l, v)) in Updated(o, vs).list
    ensures forall m :: m in Updated(o, vs).list && m.id >= o.next ==> exists w :: w in vs && w != v && NewLine(m, w)
  {
    UpdatedLine(o, vs, l);
    MatchedOrZeroed(o, vs, l);
    SettledBySame(l, Products(vs), v);
    assert v in Products(vs);
    PlanCreatesIff(o, vs, v);
    forall m | m in Updated(o, vs).list && m.id >= o.next ensures exists w :: w in vs && w != v && NewLine(m, w) {
      var w := NewLineOf(o, vs, m);
    }
  }

  /** Values with other IDs, and none of the line's product without an ID, do not go to the line. */
  lemma OtherIdsMiss(vs: seq<Vals>, v: Vals, l: Line)
    requires l.ioc == v.ioc && v.ioc != ""
    requires forall w :: w in vs && w != v ==>
               w.ioc != v.ioc && (w.ioc == "" && w.flags != {} ==> w.product != l.product)
    ensures forall w :: w in vs && w != v ==> !Hits(l, w)
  { }

  /**
    A line of the channel that the order holds under the same ID: that line, and no other, gets its
    values; nothing is created for it. The channel sends the ID once, and no discount, fee or tax of
    the line's product.
  */
  lemma WrittenByChannelId(o: Lines, vs: seq<Vals>, v: Vals, l: Line)
    requires WellFormed(o) && Plan(o.list, vs).Ok? && PlainDisplays(vs)
    requires v in vs && v.product.Some? && v.price.Given? && v.ioc != ""
    requires l in o.list && l.ioc == v.ioc && (Coupon in v.flags ==> l.name == v.name)
    requires forall w :: w in vs && w != v ==>
               w.ioc != v.ioc && (w.ioc == "" && w.flags != {} ==> w.product != l.product)
    ensures Line(l.id, v.ioc, l.product, v.name, if v.qty.Some? then v.qty.value else l.qty, v.price.amount)
            in Updated(o, vs).list
    ensures forall m :: m in Updated(o, vs).list && m.id >= o.next ==> exists w :: w in vs && w != v && NewLine(m, w)
  {
    OtherIdsMiss(vs, v, l);
    OnlyValue(o, vs, v, l);
  }

  /** The shortest case: an order of one line, which the channel sends again. */
  lemma ResentLine(o: Lines, l: Line, vs: seq<Vals>, v: Vals)
    requires o == Lines([l], l.id + 1) && l.product.Some? && vs == [v]
    requires v.ioc == l.ioc && v.ioc != "" && v.product.Some? && v.price.Given? && v.flags == {}
    ensures Plan(o.list, vs).Ok?
    ensures Line(l.id, v.ioc, l.product, v.name, if v.qty.Some? then v.qty.value else l.qty, v.price.amount)
            in Updated(o, vs).list
    ensures forall m :: m in Updated(o, vs).list ==> m.id < o.next
  {
    SingleOrder(o, l);
    RaisesIff(o, vs);
    WrittenByChannelId(o, vs, v, l);
  }

  /** A discount, fee or tax without an ID, where the order has a line of its product. */
  lemma WrittenByProduct(o: Lines, vs: seq<Vals>, v: Vals, l: Line)
    requires WellFormed(o) && Plan(o.list, vs).Ok? && PlainDisplays(vs)
    requires v in vs && v.product.Some? && v.price.Given? && v.ioc == "" && v.flags != {} && Coupon !in v.flags
    requires l in o.list && l.product == v.product
    requires forall w :: w in vs && w != v ==>
               if w.ioc != "" then w.ioc != l.ioc else w.flags != {} ==> w.product != l.product
    ensures Line(l.id, l.ioc, l.product, v.name, if v.qty.Some? then v.qty.value else l.qty, v.price.amount)
            in Updated(o, vs).list
    ensures forall m :: m in Updated(o, vs).list && m.id >= o.next ==> exists w :: w in vs && w != v && NewLine(m, w)
  {
    OnlyValue(o, vs, v, l);
  }

  /** A coupon without an ID, where the order has a line of its product and its code; other coupons have other codes. */
  lemma WrittenByCode(o: Lines, vs: seq<Vals>, v: Vals, l: Line)
    requires WellFormed(o) && Plan(o.list, vs).Ok? && PlainDisplays(vs)
    requires v in vs && v.product.Some? && v.price.Given? && v.ioc == "" && Coupon in v.flags
    requires l in o.list && l.product == v.product && l.name == v.name
    requires forall w :: w in vs && w != v ==>
               if w.ioc != "" then w.ioc != l.ioc
               else w.flags != {} && w.product == l.product ==> Coupon in w.flags && w.name != l.name
    ensures Line(l.id, l.ioc, l.product, v.name, if v.qty.Some? then v.qty.value else l.qty, v.price.amount)
            in Updated(o, vs).list
    ensures forall m :: m in Updated(o, vs).list && m.id >= o.next ==> exists w :: w in vs && w != v && NewLine(m, w)
  {
    OnlyValue(o, vs, v, l);
  }

  /** A value whose price is None leaves the line it is for alone, and keeps it from being set to zero. */
  lemma NullPriceLeaves(o: Lines, vs: seq<Vals>, v: Vals, l: Line)
    requires WellFormed(o) && Plan(o.list, vs).Ok? && PlainDisplays(vs)
    requires v in vs && v.product.Some? && v.price.Null? && v.ioc != "" && Coupon !in v.flags
    requires l in o.list && l.ioc == v.ioc
    requires forall w :: w in vs && w != v ==>
               w.ioc != v.ioc && (w.ioc == "" && w.flags != {} ==> w.product != l.product)
    ensures l in Updated(o, vs).list
  {
    OtherIdsMiss(vs, v, l);
    OnlyValue(o, vs, v, l);
  }

  /** A product line that the channel does not send any more, neither by ID nor by product nor by code. */
  lemma GoneIsZeroed(o: Lines, vs: seq<Vals>, l: Line)
    requires WellFormed(o) && Plan(o.list, vs).Ok? && PlainDisplays(vs) && l in o.list && l.product.Some?
    requires forall w :: w in vs ==>
               if w.ioc != "" then w.ioc != l.ioc
               else w.flags != {} && w.product == l.product ==> Coupon in w.flags && w.name != l.name
    ensures l.(qty := 0.0) in Updated(o, vs).list
  {
    UpdatedLine(o, vs, l);
    MatchedOrZeroed(o, vs, l);
  }

  /** Sections and notes of the order stay. */
  lemma DisplayStays(o: Lines, vs: seq<Vals>, l: Line)
    requires WellFormed(o) && Plan(o.list, vs).Ok? && PlainDisplays(vs) && l in o.list && l.product.None?
    ensures l in Updated(o, vs).list
  {
    UpdatedLine(o, vs, l);
    MatchedOrZeroed(o, vs, l);
  }

  // ----- A value concerns no other line -----

  lemma ProductsConcat(a: seq<Vals>, b: seq<Vals>)
    ensures Products(a + b) == Products(a) + Products(b)
    decreases |b|
  {
    if b == [] {
      assert a + b == a;
    } else {
      var front, v := b[..|b| - 1], b[|b| - 1];
      ProductsConcat(a, front);
      assert (a + b)[..|a + b| - 1] == a + front && (a + b)[|a + b| - 1] == v;
    }
  }

  lemma {:induction false} SettledSkips(l: Line, a: seq<Vals>, v: Vals, b: seq<Vals>)
    requires !Hits(l, v)
    ensures Settled(l, a + [v] + b) == Settled(l, a + b)
    decreases |b|
  {
    if b == [] {
      assert (a + [v] + b)[..|a|] == a && (a + [v] + b)[|a|] == v;
      assert a + b == a;
    } else {
      var front, w := b[..|b| - 1], b[|b| - 1];
      SettledSkips(l, a, v, front);
      assert (a + [v] + b)[..|a| + 1 + |front|] == a + [v] + front;
      assert (a + b)[..|a| + |front|] == a + front;
    }
  }

  lemma AnyHitsSkips(l: Line, a: seq<Vals>, v: Vals, b: seq<Vals>)
    requires !Hits(l, v)
    ensures AnyHits(l, a + [v] + b) <==> AnyHits(l, a + b)
  {
    forall w ensures w in a + [v] + b <==> w in a + b || w == v { }
  }

  /** Leaving a value out changes no stored line but those it is for. */
  lemma ConcernsNoOther(o: Lines, a: seq<Vals>, v: Vals, b: seq<Vals>, l: Line, x: Line)
    requires WellFormed(o) && l in o.list && x.id == l.id && PlainDisplays(a + [v] + b)
    requires Plan(o.list, a + [v] + b).Ok? && Plan(o.list, a + b).Ok?
    requires if v.ioc != "" then l.ioc != v.ioc
             else v.flags == {} || l.product != v.product || (Coupon in v.flags && l.name != v.name)
    ensures x in Updated(o, a + [v] + b).list <==> x in Updated(o, a + b).list
  {
    assert PlainDisplays(a + b) by { assert forall w :: w in a + b ==> w in a + [v] + b; }
    LineOf(o, a + [v] + b, l, x);
    LineOf(o, a + b, l, x);
    SameEnd(o, a, v, b, l);
  }

  lemma LineOf(o: Lines, vs: seq<Vals>, l: Line, x: Line)
    requires WellFormed(o) && l in o.list && x.id == l.id && Plan(o.list, vs).Ok? && PlainDisplays(vs)
    ensures x in Updated(o, vs).list <==> x == Overlay(l, Plan(o.list, vs).value)
  {
    var y := Overlay(l, Plan(o.list, vs).value);
    UpdatedLine(o, vs, l);
    OverlayKeepsId(l, Plan(o.list, vs).value);
    if x in Updated(o, vs).list { SameRecord(Updated(o, vs), x, y); }
  }

  lemma SameEnd(o: Lines, a: seq<Vals>, v: Vals, b: seq<Vals>, l: Line)
    requires WellFormed(o) && l in o.list && !Hits(l, v)
    requires Plan(o.list, a + [v] + b).Ok? && Plan(o.list, a + b).Ok?
    ensures Overlay(l, Plan(o.list, a + [v] + b).value) == Overlay(l, Plan(o.list, a + b).value)
  {
    var pa, pb := Products(a), Products(b);
    ProductsAround(a, v, b);
    ProductsConcat(a, b);
    if v.product.Some? {
      AnyHitsSkips(l, pa, v, pb);
      SettledSkips(l, pa, v, pb);
    }
    SameMatch(o, a + [v] + b, a + b, l);
  }

  lemma ProductsSnoc(a: seq<Vals>, v: Vals)
    ensures Products(a + [v]) == if v.product.Some? then Products(a) + [v] else Products(a)
  {
    assert (a + [v])[..|a|] == a;
  }

  lemma ProductsAround(a: seq<Vals>, v: Vals, b: seq<Vals>)
    ensures Products(a + [v] + b)
         == if v.product.Some? then Products(a) + [v] + Products(b) else Products(a) + Products(b)
  {
    ProductsSnoc(a, v);
    ProductsConcat(a + [v], b);
  }

  lemma SameMatch(o: Lines, us: seq<Vals>, vs: seq<Vals>, l: Line)
    requires WellFormed(o) && l in o.list && Plan(o.list, us).Ok? && Plan(o.list, vs).Ok?
    requires AnyHits(l, Products(us)) <==> AnyHits(l, Products(vs))
    requires Settled(l, Products(us)) == Settled(l, Products(vs))
    ensures Overlay(l, Plan(o.list, us).value) == Overlay(l, Plan(o.list, vs).value)
  {
    MatchedOrZeroed(o, us, l);
    MatchedOrZeroed(o, vs, l);
  }

  // ----- New lines -----

  lemma {:induction false} ProductsCreateIff(ls: seq<Line>, vs: seq<Vals>, v: Vals)
    requires PlanProducts(ls, vs).Ok?
    ensures Create(v) in PlanProducts(ls, vs).value <==> v in vs && HitLines(ls, v) == []
    decreases |vs|
  {
    if vs != [] {
      var front, w := vs[..|vs| - 1], vs[|vs| - 1];
      assert vs == front + [w];
      ProductsCreateIff(ls, front, v);
    }
  }

  lemma {:induction false} DisplaysCreateIff(ls: seq<Line>, vs: seq<Vals>, v: Vals)
    ensures Create(v) in PlanDisplay(ls, vs)
       <==> v in vs && forall l :: l in ls && l.product.None? ==> l.name != v.name
    decreases |vs|
  {
    if vs != [] {
      var front, w := vs[..|vs| - 1], vs[|vs| - 1];
      assert vs == front + [w];
      DisplaysCreateIff(ls, front, v);
    }
  }

  lemma PlanCreatesIff(o: Lines, vs: seq<Vals>, v: Vals)
    requires Plan(o.list, vs).Ok?
    ensures Create(v) in Plan(o.list, vs).value
       <==> v in vs && if v.product.Some? then HitLines(o.list, v) == []
                       else forall l :: l in o.list && l.product.None? ==> l.name != v.name
  {
    ProductsCreateIff(o.list, Products(vs), v);
    ZeroedIffUnmatched(o.list, Products(vs));
    DisplaysCreateIff(o.list, Displays(vs), v);
  }

  lemma {:induction false} NewFromCreate(o: Lines, cmds: seq<Command>, next: nat, m: Line)
    requires Addressed(cmds, next) && next <= o.next && m in Apply(o, cmds).list && m.id >= next
    ensures m in o.list || exists c :: c in cmds && c.Create? && NewLine(m, c.vals)
    decreases |cmds|
  {
    if cmds != [] {
      var c, rest := cmds[0], cmds[1..];
      assert cmds == [c] + rest;
      AddressedRest(cmds, c, rest, next);
      NewFromCreate(ApplyOne(o, c), rest, next, m);
      if m in ApplyOne(o, c).list {
        BeforeStep(o, c, next, m);
      }
    }
  }

  lemma BeforeStep(o: Lines, c: Command, next: nat, m: Line)
    requires c != ClearAll && (c.Write? || c.SetZero? ==> c.id < next) && m.id >= next && m in ApplyOne(o, c).list
    ensures m in o.list || (c.Create? && NewLine(m, c.vals))
  {
    var after := ApplyOne(o, c).list;
    var i :| 0 <= i < |after| && after[i] == m;
    if i < |o.list| { assert o.list[i] in o.list; }
  }

  lemma NewLineOf(o: Lines, vs: seq<Vals>, m: Line) returns (v: Vals)
    requires WellFormed(o) && Plan(o.list, vs).Ok? && m in Updated(o, vs).list && m.id >= o.next
    ensures v in vs && NewLine(m, v) && Create(v) in Plan(o.list, vs).value
  {
    PlanShape(o, vs);
    var cmds := Plan(o.list, vs).value;
    NewFromCreate(o, cmds, o.next, m);
    var c :| c in cmds && c.Create? && NewLine(m, c.vals);
    v := c.vals;
    PlanCreatesIff(o, vs, v);
  }

  lemma {:induction false} StaysThere(o: Lines, cmds: seq<Command>, next: nat, m: Line)
    requires Addressed(cmds, next) && m in o.list && m.id >= next
    ensures m in Apply(o, cmds).list
    decreases |cmds|
  {
    if cmds != [] {
      var c, rest := cmds[0], cmds[1..];
      assert cmds == [c] + rest;
      AddressedRest(cmds, c, rest, next);
      var i :| 0 <= i < |o.list| && o.list[i] == m;
      assert ApplyOne(o, c).list[i] == m;
      StaysThere(ApplyOne(o, c), rest, next, m);
    }
  }

  lemma {:induction false} CreatedThere(o: Lines, cmds: seq<Command>, next: nat, v: Vals)
    requires Addressed(cmds, next) && next <= o.next && Create(v) in cmds
    ensures exists m :: m in Apply(o, cmds).list && m.id >= next && NewLine(m, v)
    decreases |cmds|
  {
    var c, rest := cmds[0], cmds[1..];
    assert cmds == [c] + rest;
    AddressedRest(cmds, c, rest, next);
    if c == Create(v) {
      var m := ApplyOne(o, c).list[|o.list|];
      assert m in ApplyOne(o, c).list;
      StaysThere(ApplyOne(o, c), rest, next, m);
    } else {
      CreatedThere(ApplyOne(o, c), rest, next, v);
    }
  }

  lemma {:induction false} NoneHits(ls: seq<Line>, v: Vals)
    requires forall l :: l in ls ==> !Hits(l, v)
    ensures HitLines(ls, v) == []
    decreases |ls|
  {
    if ls != [] {
      assert ls[0] in ls;
      NoneHits(ls[1..], v);
    }
  }

  /** A product line that the order does not hold yet, or that carries neither an ID nor a flag, is created. */
  lemma NewIsCreated(o: Lines, vs: seq<Vals>, v: Vals)
    requires WellFormed(o) && Plan(o.list, vs).Ok? && v in vs && v.product.Some?
    requires || (v.ioc != "" && forall l :: l in o.list ==> l.ioc != v.ioc)
             || (v.ioc == "" && v.flags == {})
             || (v.ioc == "" && forall l :: l in o.list ==> l.product != v.product)
             || (Coupon in v.flags && forall l :: l in o.list ==> l.name != v.name)
    ensures exists m :: m in Updated(o, vs).list && m.id >= o.next && NewLine(m, v)
  {
    PlanShape(o, vs);
    PlanCreatesIff(o, vs, v);
    assert HitLines(o.list, v) == [] by { NoneHits(o.list, v); }
    CreatedThere(o, Plan(o.list, vs).value, o.next, v);
  }

  /** A section or note is created if no section or note of the order has its name. */
  lemma NewDisplayIsCreated(o: Lines, vs: seq<Vals>, v: Vals)
    requires WellFormed(o) && Plan(o.list, vs).Ok? && v in vs && v.product.None?
    requires forall l :: l in o.list && l.product.None? ==> l.name != v.name
    ensures exists m :: m in Updated(o, vs).list && m.id >= o.next && NewLine(m, v)
  {
    PlanShape(o, vs);
    PlanCreatesIff(o, vs, v);
    CreatedThere(o, Plan(o.list, vs).value, o.next, v);
  }

  /** No second section or note of a name is created beside a stored one. */
  lemma NoSecondDisplay(o: Lines, vs: seq<Vals>, m: Line)
    requires WellFormed(o) && Plan(o.list, vs).Ok? && m in Updated(o, vs).list && m.id >= o.next && m.product.None?
    ensures forall l :: l in o.list && l.product.None? ==> l.name != m.name
  {
    var v := NewLineOf(o, vs, m);
    PlanCreatesIff(o, vs, v);
  }

  // ----- Clearing and refilling -----

  /** An order that is not confirmed ends with exactly the lines of the channel, in its order. */
  lemma RefilledLines(o: Lines, vs: seq<Vals>)
    ensures var after := Apply(o, [ClearAll] + Creates(vs));
            && |after.list| == |vs| && after.next == o.next + |vs|
            && forall i :: 0 <= i < |vs| ==> after.list[i].id == o.next + i && NewLine(after.list[i], vs[i])
  {
    ApplyConcat(o, [ClearAll], Creates(vs));
    assert [ClearAll][1..] == [];
    assert Apply(o, [ClearAll]) == o.(list := []);
    CreatedInOrder(o.(list := []), vs);
  }

  lemma {:induction false} CreatedInOrder(o: Lines, vs: seq<Vals>)
    requires o.list == []
    ensures var after := Apply(o, Creates(vs));
            && |after.list| == |vs| && after.next == o.next + |vs|
            && forall i :: 0 <= i < |vs| ==> after.list[i].id == o.next + i && NewLine(after.list[i], vs[i])
    decreases |vs|
  {
    if vs == [] {
      assert Creates(vs) == [];
    } else {
      var front, v := vs[..|vs| - 1], vs[|vs| - 1];
      CreatedInOrder(o, front);
      assert Creates(vs) == Creates(front) + [Create(v)];
      ApplyConcat(o, Creates(front), [Create(v)]);
      var mid := Apply(o, Creates(front));
      assert [Create(v)][1..] == [];
      assert Apply(mid, [Create(v)]) == ApplyOne(mid, Create(v));
    }
  }
}
