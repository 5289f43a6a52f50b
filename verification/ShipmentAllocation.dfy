/**
  Greedy allocation of shipped quantities over stock moves
  (multichannel_fulfillment/models/stock_picking.py, process_shipment_data_from_channel).

  The moves of an item's product are taken in ascending order of demand; each gets its demand until
  the item's quantity runs out, the last one takes whatever is left.
*/
module ShipmentAllocation {

  datatype Move = Move(id: nat, product: nat, demand: real)

  datatype Item = Item(product: nat, quantity: real)

  function Sum(xs: seq<real>): real {
    if xs == [] then 0.0 else xs[0] + Sum(xs[1..])
  }

  lemma {:induction false} SumConcat(a: seq<real>, b: seq<real>)
    ensures Sum(a + b) == Sum(a) + Sum(b)
    decreases |a|
  {
    if a == [] {
      assert a + b == b;
    } else {
      assert (a + b)[1..] == a[1..] + b;
      SumConcat(a[1..], b);
    }
  }

  /** The quantities given to the first lines, for lines of the given demands. */
  function Alloc(demands: seq<real>, quantity: real): (r: seq<real>)
    ensures |r| <= |demands|
    decreases |demands|
  {
    if demands == [] || quantity == 0.0 then []
    else if demands[0] < quantity && |demands| > 1 then [demands[0]] + Alloc(demands[1..], quantity - demands[0])
    else [quantity]
  }

  function Demands(lines: seq<Move>): seq<real> {
    seq(|lines|, i requires 0 <= i < |lines| => lines[i].demand)
  }

  /** The inner loop: walk the lines while something remains. */
  method Allocate(lines: seq<Move>, quantity: real) returns (done: seq<real>)
    ensures done == Alloc(Demands(lines), quantity)
  {
    var demands := Demands(lines);
    done := [];
    var remaining := quantity;
    var index := 0;
    while index < |lines|
      invariant 0 <= index <= |lines|
      invariant Alloc(demands, quantity) == done + Alloc(demands[index..], remaining)
    {
      if remaining == 0.0 { break; }
      var qty: real;
      if lines[index].demand < remaining {
        qty := lines[index].demand;
        if index == |lines| - 1 {
          qty := remaining;
        }
        remaining := remaining - qty;
      } else {
        qty := remaining;
        remaining := 0.0;
      }
      assert demands[index..][1..] == demands[index + 1..];
      assert Alloc(demands[index..], if remaining == 0.0 then qty else remaining + qty)
        == [qty] + Alloc(demands[index + 1..], remaining);
      assert done + ([qty] + Alloc(demands[index + 1..], remaining))
        == (done + [qty]) + Alloc(demands[index + 1..], remaining);
      done := done + [qty];
      index := index + 1;
    }
  }

  /** An item with at least one line is allocated completely, whatever its quantity and the demands. */
  lemma {:induction false} AllocConserves(demands: seq<real>, quantity: real)
    requires demands != []
    ensures Sum(Alloc(demands, quantity)) == quantity
    decreases |demands|
  {
    if quantity != 0.0 && demands[0] < quantity && |demands| > 1 {
      AllocConserves(demands[1..], quantity - demands[0]);
    } else if quantity != 0.0 {
      assert Sum([quantity]) == quantity + Sum([quantity][1..]);
    }
  }

  /** Only the last line may exceed its demand; a line short of its demand is the last one touched. */
  lemma {:induction false} AllocShape(demands: seq<real>, quantity: real, i: nat)
    requires i < |Alloc(demands, quantity)|
    ensures i < |demands| - 1 ==> Alloc(demands, quantity)[i] <= demands[i]
    ensures Alloc(demands, quantity)[i] < demands[i] ==> i == |Alloc(demands, quantity)| - 1
    ensures i < |Alloc(demands, quantity)| - 1 ==> Alloc(demands, quantity)[i] == demands[i]
    decreases |demands|
  {
    if i > 0 {
      AllocShape(demands[1..], quantity - demands[0], i - 1);
    }
  }

  /** The last line overflows exactly when the item exceeds the total demand. */
  lemma {:induction false} AllocOverflowIff(demands: seq<real>, quantity: real)
    requires demands != [] && forall i :: 0 <= i < |demands| ==> demands[i] >= 0.0
    ensures var a := Alloc(demands, quantity);
            (|a| == |demands| && a[|a| - 1] > demands[|a| - 1]) <==> quantity > Sum(demands)
    decreases |demands|
  {
    SumNonNegative(demands[1..]);
    if |demands| > 1 {
      if quantity != 0.0 && demands[0] < quantity {
        AllocOverflowIff(demands[1..], quantity - demands[0]);
      }
    } else {
      assert Sum(demands) == demands[0] + Sum(demands[1..]);
    }
  }

  lemma {:induction false} SumNonNegative(xs: seq<real>)
    requires forall i :: 0 <= i < |xs| ==> xs[i] >= 0.0
    ensures Sum(xs) >= 0.0
    ensures Sum(xs) == 0.0 <==> forall i :: 0 <= i < |xs| ==> xs[i] == 0.0
    decreases |xs|
  {
    if xs != [] {
      SumNonNegative(xs[1..]);
      assert Sum(xs) == 0.0 ==> forall i :: 0 < i < |xs| ==> xs[i] == xs[1..][i - 1] == 0.0;
    }
  }

  // ----- A whole shipment -----

  /** `sorted('product_qty')`: a stable insertion sort. */
  function Insert(m: Move, lines: seq<Move>): seq<Move> {
    if lines == [] || lines[|lines| - 1].demand <= m.demand then lines + [m]
    else Insert(m, lines[..|lines| - 1]) + [lines[|lines| - 1]]
  }

  function LinesOf(moves: seq<Move>, product: nat): seq<Move> {
    if moves == [] then []
    else
      var m, front := moves[|moves| - 1], LinesOf(moves[..|moves| - 1], product);
      if m.product == product then Insert(m, front) else front
  }

  ghost predicate Ascending(lines: seq<Move>) {
    forall i, j :: 0 <= i < j < |lines| ==> lines[i].demand <= lines[j].demand
  }

  lemma {:induction false} InsertMembers(m: Move, lines: seq<Move>)
    ensures multiset(Insert(m, lines)) == multiset(lines) + multiset{m}
    ensures forall x :: x in Insert(m, lines) <==> x in lines || x == m
    decreases |lines|
  {
    if lines != [] && m.demand < lines[|lines| - 1].demand {
      var n := |lines| - 1;
      InsertMembers(m, lines[..n]);
      assert lines == lines[..n] + [lines[n]];
    }
  }

  lemma {:induction false} InsertAscending(m: Move, lines: seq<Move>)
    requires Ascending(lines)
    ensures Ascending(Insert(m, lines))
    decreases |lines|
  {
    if lines != [] && m.demand < lines[|lines| - 1].demand {
      var n := |lines| - 1;
      InsertAscending(m, lines[..n]);
      InsertMembers(m, lines[..n]);
      var r := Insert(m, lines[..n]);
      forall i | 0 <= i < |r| ensures r[i].demand <= lines[n].demand {
        assert r[i] in r;
        if r[i] != m {
          var k :| 0 <= k < n && lines[..n][k] == r[i];
          assert lines[k].demand <= lines[n].demand;
        }
      }
    }
  }

  lemma InsertKeeps(m: Move, lines: seq<Move>)
    requires Ascending(lines)
    ensures Ascending(Insert(m, lines)) && multiset(Insert(m, lines)) == multiset(lines) + multiset{m}
    ensures forall x :: x in Insert(m, lines) <==> x in lines || x == m
  {
    InsertMembers(m, lines);
    InsertAscending(m, lines);
  }

  function OfProduct(moves: seq<Move>, product: nat): multiset<Move> {
    if moves == [] then multiset{}
    else OfProduct(moves[..|moves| - 1], product)
         + (if moves[|moves| - 1].product == product then multiset{moves[|moves| - 1]} else multiset{})
  }

  lemma {:induction false} LinesMembers(moves: seq<Move>, product: nat)
    ensures Ascending(LinesOf(moves, product))
    ensures forall x :: x in LinesOf(moves, product) <==> x in moves && x.product == product
    decreases |moves|
  {
    if moves != [] {
      var n := |moves| - 1;
      LinesMembers(moves[..n], product);
      InsertKeeps(moves[n], LinesOf(moves[..n], product));
      assert moves == moves[..n] + [moves[n]];
    }
  }

  /** The lines of a product: exactly its moves, in ascending order of demand. */
  lemma {:induction false} LinesOfProduct(moves: seq<Move>, product: nat)
    ensures Ascending(LinesOf(moves, product)) && multiset(LinesOf(moves, product)) == OfProduct(moves, product)
    decreases |moves|
  {
    LinesMembers(moves, product);
    if moves != [] {
      var n := |moves| - 1;
      LinesOfProduct(moves[..n], product);
      InsertKeeps(moves[n], LinesOf(moves[..n], product));
    }
  }

  /** The update commands of one item, executed on the quantities done. */
  function Written(done: map<nat, real>, lines: seq<Move>, quantities: seq<real>): map<nat, real>
    requires |quantities| <= |lines|
    decreases |quantities|
  {
    if quantities == [] then done
    else
      var n := |quantities| - 1;
      Written(done, lines, quantities[..n])[lines[n].id := quantities[n]]
  }

  function Shipped(moves: seq<Move>, done: map<nat, real>, items: seq<Item>): map<nat, real>
    decreases |items|
  {
    if items == [] then done
    else
      var item, before := items[|items| - 1], Shipped(moves, done, items[..|items| - 1]);
      var lines := LinesOf(moves, item.product);
      Written(before, lines, Alloc(Demands(lines), item.quantity))
  }

  /** The loop over the items of a shipment, with the commands executed at its end. */
  method ProcessShipment(moves: seq<Move>, done: map<nat, real>, items: seq<Item>) returns (r: map<nat, real>)
    ensures r == Shipped(moves, done, items)
  {
    var updates: seq<(seq<Move>, seq<real>)> := [];
    r := done;
    for i := 0 to |items|
      invariant |updates| == i
      invariant forall k :: 0 <= k < i ==>
                  updates[k] == (LinesOf(moves, items[k].product),
                                 Alloc(Demands(LinesOf(moves, items[k].product)), items[k].quantity))
    {
      var lines := LinesOf(moves, items[i].product);
      var quantities := Allocate(lines, items[i].quantity);
      updates := updates + [(lines, quantities)];
    }
    for i := 0 to |items|
      invariant r == Shipped(moves, done, items[..i])
    {
      assert items[..i + 1][..i] == items[..i];
      r := Written(r, updates[i].0, updates[i].1);
    }
    assert items[..|items|] == items;
  }

  function Get(done: map<nat, real>, id: nat): real { if id in done then done[id] else 0.0 }

  function DoneOn(lines: seq<Move>, done: map<nat, real>): seq<real> {
    seq(|lines|, i requires 0 <= i < |lines| => Get(done, lines[i].id))
  }

  ghost predicate DistinctIds(lines: seq<Move>) {
    forall i, j :: 0 <= i < j < |lines| ==> lines[i].id != lines[j].id
  }

  lemma {:induction false} WrittenGet(done: map<nat, real>, lines: seq<Move>, qs: seq<real>, j: nat)
    requires |qs| <= |lines| && DistinctIds(lines) && j < |lines|
    ensures Get(Written(done, lines, qs), lines[j].id) == if j < |qs| then qs[j] else Get(done, lines[j].id)
    decreases |qs|
  {
    if qs != [] { WrittenGet(done, lines, qs[..|qs| - 1], j); }
  }

  lemma {:induction false} WrittenElsewhere(done: map<nat, real>, lines: seq<Move>, qs: seq<real>, id: nat)
    requires |qs| <= |lines| && forall l :: l in lines ==> l.id != id
    ensures Get(Written(done, lines, qs), id) == Get(done, id)
    decreases |qs|
  {
    if qs != [] {
      assert lines[|qs| - 1] in lines;
      WrittenElsewhere(done, lines, qs[..|qs| - 1], id);
    }
  }

  /** What item after item leaves on the lines of one product: each overwrites the lines it reaches. */
  function Overlaid(demands: seq<real>, start: seq<real>, quantities: seq<real>): (r: seq<real>)
    requires |start| == |demands|
    ensures |r| == |demands|
    decreases |quantities|
  {
    if quantities == [] then start
    else
      var base := Overlaid(demands, start, quantities[..|quantities| - 1]);
      var a := Alloc(demands, quantities[|quantities| - 1]);
      a + base[|a|..]
  }

  function QuantitiesOf(items: seq<Item>, product: nat): seq<real> {
    if items == [] then []
    else QuantitiesOf(items[..|items| - 1], product)
         + if items[|items| - 1].product == product then [items[|items| - 1].quantity] else []
  }

  ghost predicate DistinctMoves(moves: seq<Move>) {
    forall i, j :: 0 <= i < j < |moves| ==> moves[i].id != moves[j].id
  }

  lemma {:induction false} LinesDistinct(moves: seq<Move>, product: nat)
    requires DistinctMoves(moves)
    ensures DistinctIds(LinesOf(moves, product))
    decreases |moves|
  {
    if moves != [] {
      var n := |moves| - 1;
      LinesDistinct(moves[..n], product);
      LinesMembers(moves[..n], product);
      forall x | x in LinesOf(moves[..n], product) ensures x.id != moves[n].id {
        assert x in moves[..n];
      }
      InsertDistinct(moves[n], LinesOf(moves[..n], product));
    }
  }

  lemma {:induction false} InsertDistinct(m: Move, lines: seq<Move>)
    requires Ascending(lines) && DistinctIds(lines) && forall x :: x in lines ==> x.id != m.id
    ensures DistinctIds(Insert(m, lines))
    decreases |lines|
  {
    if lines != [] && m.demand < lines[|lines| - 1].demand {
      var n := |lines| - 1;
      InsertDistinct(m, lines[..n]);
      InsertKeeps(m, lines[..n]);
      var r := Insert(m, lines[..n]);
      forall i | 0 <= i < |r| ensures r[i].id != lines[n].id {
        assert r[i] in r;
        assert lines[n] in lines;
        if r[i] != m {
          var k :| 0 <= k < n && lines[..n][k] == r[i];
        }
      }
    }
  }

  lemma DoneAfterOwn(lines: seq<Move>, before: map<nat, real>, qs: seq<real>)
    requires DistinctIds(lines) && |qs| <= |lines|
    ensures DoneOn(lines, Written(before, lines, qs)) == qs + DoneOn(lines, before)[|qs|..]
  {
    forall j | 0 <= j < |lines|
      ensures Get(Written(before, lines, qs), lines[j].id) == if j < |qs| then qs[j] else Get(before, lines[j].id)
    {
      WrittenGet(before, lines, qs, j);
    }
  }

  lemma DoneAfterOther(lines: seq<Move>, target: seq<Move>, before: map<nat, real>, qs: seq<real>)
    requires |qs| <= |target| && forall l, m :: l in lines && m in target ==> l.id != m.id
    ensures DoneOn(lines, Written(before, target, qs)) == DoneOn(lines, before)
  {
    forall j | 0 <= j < |lines| ensures Get(Written(before, target, qs), lines[j].id) == Get(before, lines[j].id) {
      assert lines[j] in lines;
      WrittenElsewhere(before, target, qs, lines[j].id);
    }
  }

  lemma LinesApart(moves: seq<Move>, p: nat, q: nat)
    requires DistinctMoves(moves) && p != q
    ensures forall l, m :: l in LinesOf(moves, p) && m in LinesOf(moves, q) ==> l.id != m.id
  {
    LinesMembers(moves, p);
    LinesMembers(moves, q);
  }

  /** A shipment acts on each product by itself. */
  lemma {:induction false} ShippedByProduct(moves: seq<Move>, done: map<nat, real>, items: seq<Item>, product: nat)
    requires DistinctMoves(moves)
    ensures DoneOn(LinesOf(moves, product), Shipped(moves, done, items))
            == Overlaid(Demands(LinesOf(moves, product)), DoneOn(LinesOf(moves, product), done),
                QuantitiesOf(items, product))
    decreases |items|
  {
    if items != [] {
      var n := |items| - 1;
      var item, before := items[n], Shipped(moves, done, items[..n]);
      ShippedByProduct(moves, done, items[..n], product);
      var lines, target, earlier := LinesOf(moves, product), LinesOf(moves, item.product),
          QuantitiesOf(items[..n], product);
      var qs := Alloc(Demands(target), item.quantity);
      if item.product == product {
        LinesDistinct(moves, product);
        DoneAfterOwn(lines, before, qs);
        assert (earlier + [item.quantity])[..|earlier|] == earlier;
      } else {
        LinesApart(moves, product, item.product);
        DoneAfterOther(lines, target, before, qs);
        assert QuantitiesOf(items, product) == earlier;
      }
    }
  }

  // ----- When a shipment conserves quantity -----

  function NonZero(qs: seq<real>): nat {
    if qs == [] then 0 else NonZero(qs[..|qs| - 1]) + if qs[|qs| - 1] != 0.0 then 1 else 0
  }

  lemma {:induction false} AllocSigns(demands: seq<real>, q: real)
    requires demands != [] && q >= 0.0 && forall i :: 0 <= i < |demands| ==> demands[i] > 0.0
    ensures forall i :: 0 <= i < |Alloc(demands, q)| ==> Alloc(demands, q)[i] >= 0.0
    ensures q > 0.0 ==> |Alloc(demands, q)| > 0 && Alloc(demands, q)[0] > 0.0
    ensures q == 0.0 ==> Alloc(demands, q) == []
    decreases |demands|
  {
    if q > 0.0 && demands[0] < q && |demands| > 1 {
      AllocSigns(demands[1..], q - demands[0]);
    }
  }

  function SumLast(qs: seq<real>): real {
    if qs == [] then 0.0 else SumLast(qs[..|qs| - 1]) + qs[|qs| - 1]
  }

  ghost predicate Positive(demands: seq<real>) {
    demands != [] && forall i :: 0 <= i < |demands| ==> demands[i] > 0.0
  }

  ghost predicate NonNegative(xs: seq<real>) {
    forall i :: 0 <= i < |xs| ==> xs[i] >= 0.0
  }

  /** One more item: it adds its quantity and takes away what it overwrites. */
  lemma OverlayStep(demands: seq<real>, base: seq<real>, q: real, r: seq<real>)
    requires Positive(demands) && NonNegative(base) && |base| == |demands| && q >= 0.0
    requires r == Alloc(demands, q) + base[|Alloc(demands, q)|..]
    ensures NonNegative(r) && Sum(r) <= Sum(base) + q
    ensures q == 0.0 ==> r == base
    ensures q > 0.0 ==> r[0] > 0.0
    ensures q > 0.0 && base[0] > 0.0 ==> Sum(r) < Sum(base) + q
    ensures Sum(base) == 0.0 ==> Sum(r) == q
  {
    var a := Alloc(demands, q);
    AllocSigns(demands, q);
    AllocConserves(demands, q);
    OverwriteSum(a, base);
  }

  lemma OverwriteParts(a: seq<real>, base: seq<real>, lost: seq<real>, kept: seq<real>)
    requires NonNegative(base) && base == lost + kept && |lost| == |a|
    ensures Sum(a + kept) == Sum(a) + Sum(kept) && Sum(base) == Sum(lost) + Sum(kept)
    ensures Sum(lost) >= 0.0 && Sum(kept) >= 0.0
    ensures a != [] && base[0] > 0.0 ==> Sum(lost) > 0.0
  {
    SumConcat(a, kept);
    SumConcat(lost, kept);
    forall i | 0 <= i < |lost| ensures lost[i] >= 0.0 { assert lost[i] == base[i]; }
    forall i | 0 <= i < |kept| ensures kept[i] >= 0.0 { assert kept[i] == base[|lost| + i]; }
    SumNonNegative(lost);
    SumNonNegative(kept);
    assert a != [] ==> lost[0] == base[0];
  }

  /** Writing `a` over the front of `base`. */
  lemma OverwriteSum(a: seq<real>, base: seq<real>)
    requires NonNegative(base) && |a| <= |base|
    ensures Sum(a + base[|a|..]) <= Sum(a) + Sum(base)
    ensures a != [] && base[0] > 0.0 ==> Sum(a + base[|a|..]) < Sum(a) + Sum(base)
    ensures Sum(base) == 0.0 ==> Sum(a + base[|a|..]) == Sum(a)
  {
    assert base == base[..|a|] + base[|a|..];
    OverwriteParts(a, base, base[..|a|], base[|a|..]);
  }

  lemma {:induction false} OverlaidTotal(demands: seq<real>, start: seq<real>, qs: seq<real>)
    requires Positive(demands) && |start| == |demands| && forall i :: 0 <= i < |start| ==> start[i] == 0.0
    requires NonNegative(qs)
    ensures NonNegative(Overlaid(demands, start, qs)) && Sum(Overlaid(demands, start, qs)) <= SumLast(qs)
    ensures Sum(Overlaid(demands, start, qs)) == SumLast(qs) <==> NonZero(qs) <= 1
    ensures NonZero(qs) > 0 ==> Overlaid(demands, start, qs)[0] > 0.0
    ensures NonZero(qs) == 0 ==> Sum(Overlaid(demands, start, qs)) == 0.0
    decreases |qs|
  {
    if qs == [] {
      SumNonNegative(start);
    } else {
      var n := |qs| - 1;
      OverlaidTotal(demands, start, qs[..n]);
      OverlayStep(demands, Overlaid(demands, start, qs[..n]), qs[n], Overlaid(demands, start, qs));
    }
  }

  /**
    On a picking with positive demands and nothing done yet, a shipment puts on the lines of a
    product exactly what its items say if and only if at most one of those items has a nonzero
    quantity; otherwise a later item overwrites an earlier one and less is shipped.
  */
  lemma ShipmentConservesIff(moves: seq<Move>, items: seq<Item>, product: nat)
    requires DistinctMoves(moves) && forall m :: m in moves ==> m.demand > 0.0
    requires forall i :: i in items ==> i.quantity >= 0.0
    requires LinesOf(moves, product) != []
    ensures var shipped := Sum(DoneOn(LinesOf(moves, product), Shipped(moves, map[], items)));
            var asked := SumLast(QuantitiesOf(items, product));
            && shipped <= asked
            && (shipped == asked <==> NonZero(QuantitiesOf(items, product)) <= 1)
  {
    var lines, qs := LinesOf(moves, product), QuantitiesOf(items, product);
    ShippedByProduct(moves, map[], items, product);
    LinesMembers(moves, product);
    forall i | 0 <= i < |lines| ensures Demands(lines)[i] > 0.0 { assert lines[i] in lines; }
    QuantitiesNonNegative(items, product);
    OverlaidTotal(Demands(lines), DoneOn(lines, map[]), qs);
  }

  lemma {:induction false} QuantitiesNonNegative(items: seq<Item>, product: nat)
    requires forall i :: i in items ==> i.quantity >= 0.0
    ensures forall k :: 0 <= k < |QuantitiesOf(items, product)| ==> QuantitiesOf(items, product)[k] >= 0.0
    decreases |items|
  {
    if items != [] {
      assert items[|items| - 1] in items;
      assert forall i :: i in items[..|items| - 1] ==> i in items;
      QuantitiesNonNegative(items[..|items| - 1], product);
    }
  }

  /**
    With items of distinct products, on a picking in any state: the lines of a product end with what
    its item says, plus what was done before on the lines that the item does not reach.
  */
  lemma ShippedBesideLeftover(moves: seq<Move>, done: map<nat, real>, items: seq<Item>, k: nat)
    requires DistinctMoves(moves) && k < |items| && LinesOf(moves, items[k].product) != []
    requires forall i, j :: 0 <= i < j < |items| ==> items[i].product != items[j].product
    ensures var lines := LinesOf(moves, items[k].product);
            var reached := |Alloc(Demands(lines), items[k].quantity)|;
            && reached <= |lines|
            && Sum(DoneOn(lines, Shipped(moves, done, items)))
               == items[k].quantity + Sum(DoneOn(lines, done)[reached..])
  {
    var lines := LinesOf(moves, items[k].product);
    ShippedByProduct(moves, done, items, items[k].product);
    OneQuantity(items, k);
    var q, start := items[k].quantity, DoneOn(lines, done);
    var a := Alloc(Demands(lines), q);
    assert [q][..0] == [];
    assert Overlaid(Demands(lines), start, [q]) == a + Overlaid(Demands(lines), start, [])[|a|..];
    AllocConserves(Demands(lines), q);
    SumConcat(a, start[|a|..]);
  }

  /** With items of distinct products, and nothing done before, each product is shipped in full. */
  lemma DistinctProductsConserve(moves: seq<Move>, items: seq<Item>, k: nat)
    requires DistinctMoves(moves) && k < |items| && LinesOf(moves, items[k].product) != []
    requires forall i, j :: 0 <= i < j < |items| ==> items[i].product != items[j].product
    ensures Sum(DoneOn(LinesOf(moves, items[k].product), Shipped(moves, map[], items))) == items[k].quantity
  {
    var lines := LinesOf(moves, items[k].product);
    ShippedBesideLeftover(moves, map[], items, k);
    SumNonNegative(DoneOn(lines, map[])[|Alloc(Demands(lines), items[k].quantity)|..]);
  }

  lemma {:induction false} OneQuantity(items: seq<Item>, k: nat)
    requires k < |items|
    requires forall i, j :: 0 <= i < j < |items| ==> items[i].product != items[j].product
    ensures QuantitiesOf(items, items[k].product) == [items[k].quantity]
    decreases |items|
  {
    var n := |items| - 1;
    if k < n {
      OneQuantity(items[..n], k);
    } else {
      NoQuantity(items[..n], items[k].product);
    }
  }

  lemma {:induction false} NoQuantity(items: seq<Item>, product: nat)
    requires forall i :: 0 <= i < |items| ==> items[i].product != product
    ensures QuantitiesOf(items, product) == []
    decreases |items|
  {
    if items != [] { NoQuantity(items[..|items| - 1], product); }
  }
}
