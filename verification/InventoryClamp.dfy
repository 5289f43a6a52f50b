/**
  The quantity a store is told (multichannel_fulfillment/models/ecommerce_channel.py and
  product_channel_variant.py): stock is divided by the mapping quantity, scaled by a percentage,
  clamped and rounded down.
*/
module InventoryClamp {
  import opened Wrappers

  /** The settings of one channel. */
  datatype Settings = Settings(percentage: real, useMax: bool, max: int, useMin: bool, min: int)

  /** The constraints checked when the settings are saved. */
  predicate Accepted(s: Settings) {
    && 0.01 <= s.percentage <= 100.0
    && !(s.useMax && s.max < 1)
    && !(s.useMin && s.min < 0)
    && !(s.min >= s.max && s.max != 0 && s.min != 0)
  }

  function Scaled(s: Settings, available: real, mappingQuantity: real): real
    requires mappingQuantity != 0.0
  {
    (available / mappingQuantity) * (s.percentage / 100.0)
  }

  function Clamp(s: Settings, x: real): real {
    if x > s.max as real && s.useMax then s.max as real
    else if x < s.min as real && s.useMin then s.min as real
    else x
  }

  /** `_compute_available_qty`, where dividing by the mapping quantity makes sense. */
  function Synced(s: Settings, available: real, mappingQuantity: real): int
    requires mappingQuantity != 0.0
  {
    Clamp(s, Scaled(s, available, mappingQuantity)).Floor
  }

  /** The method of the channel; a mapping quantity of zero raises. */
  method ComputeAvailableQty(s: Settings, stock: real, mappingQuantity: real) returns (r: Option<int>)
    ensures r == if mappingQuantity == 0.0 then None else Some(Synced(s, stock, mappingQuantity))
  {
    if mappingQuantity == 0.0 { return None; }
    var available := Scaled(s, stock, mappingQuantity);
    if available > s.max as real && s.useMax {
      available := s.max as real;
    } else if available < s.min as real && s.useMin {
      available := s.min as real;
    }
    r := Some(available.Floor);
  }

  /** What is shown for one listing variant; `product` is missing while it is not linked. */
  function FreeQty(s: Settings, stock: map<nat, real>, product: Option<nat>): int {
    if product.Some? && product.value in stock then
      var q := Synced(s, stock[product.value], 1.0);
      if q > 0 then q else 0
    else Synced(s, 0.0, 1.0)
  }

  /** `_compute_free_qty` for the variants of one channel: first a table by product, then the lookups. */
  method ComputeFreeQty(s: Settings, stock: map<nat, real>, products: seq<Option<nat>>) returns (free: seq<int>)
    requires forall i :: 0 <= i < |products| && products[i].Some? ==> products[i].value in stock
    ensures |free| == |products|
    ensures forall i :: 0 <= i < |products| ==> free[i] == FreeQty(s, stock, products[i])
  {
    var data: map<nat, int> := map[];
    for i := 0 to |products|
      invariant forall k :: 0 <= k < i && products[k].Some? ==> products[k].value in data
      invariant forall p :: p in data ==> p in stock && data[p] == FreeQty(s, stock, Some(p))
    {
      if products[i].Some? {
        var q := ComputeAvailableQty(s, stock[products[i].value], 1.0);
        data := data[products[i].value := if q.value > 0 then q.value else 0];
      }
    }
    free := [];
    for i := 0 to |products|
      invariant |free| == i
      invariant forall k :: 0 <= k < i ==> free[k] == FreeQty(s, stock, products[k])
    {
      if products[i].Some? && products[i].value in data {
        free := free + [data[products[i].value]];
      } else {
        var none := ComputeAvailableQty(s, 0.0, 1.0);
        free := free + [none.value];
      }
    }
  }

  lemma ProductSign(a: real, b: real)
    requires a >= 0.0 && b >= 0.0
    ensures a * b >= 0.0
  { }

  lemma QuotientSign(a: real, b: real)
    requires a >= 0.0 && b > 0.0
    ensures a / b >= 0.0
  { }

  lemma QuotientOrder(a: real, b: real, m: real)
    requires a <= b && m > 0.0
    ensures a / m <= b / m
  {
    QuotientSign(b - a, m);
    assert b / m - a / m == (b - a) / m;
  }

  lemma ProductOrder(a: real, b: real, x: real)
    requires a <= b && x >= 0.0
    ensures a * x <= b * x
  {
    ProductSign(b - a, x);
    assert (b - a) * x == b * x - a * x;
  }

  lemma ScaledMonotone(s: Settings, a: real, b: real, mq: real)
    requires s.percentage > 0.0 && mq > 0.0 && a <= b
    ensures Scaled(s, a, mq) <= Scaled(s, b, mq)
  {
    QuotientOrder(a, b, mq);
    ProductOrder(a / mq, b / mq, s.percentage / 100.0);
  }

  lemma ScaledByPercentage(s: Settings, t: Settings, b: real, mq: real)
    requires s.percentage <= t.percentage && b >= 0.0 && mq > 0.0
    ensures Scaled(s, b, mq) <= Scaled(t, b, mq)
  {
    QuotientSign(b, mq);
    ProductOrder(s.percentage / 100.0, t.percentage / 100.0, b / mq);
  }

  lemma ScaledSign(s: Settings, available: real, mq: real)
    requires s.percentage > 0.0 && available >= 0.0 && mq > 0.0
    ensures Scaled(s, available, mq) >= 0.0
  {
    QuotientSign(available, mq);
    ProductSign(available / mq, s.percentage / 100.0);
  }

  /** With a percentage above zero, more stock never syncs less, exactly when the two limits are not crossed. */
  lemma MonotoneIff(s: Settings, mq: real)
    requires s.percentage > 0.0 && mq > 0.0
    ensures (forall a, b :: a <= b ==> Synced(s, a, mq) <= Synced(s, b, mq))
            <==> !(s.useMax && s.useMin && s.min > s.max)
  {
    if s.useMax && s.useMin && s.min > s.max {
      var a := StockFor(s, s.max as real, mq);
      var b := StockFor(s, (s.max + 1) as real, mq);
      assert Synced(s, a, mq) == s.min && Synced(s, b, mq) == s.max;
      if b < a { ScaledMonotone(s, b, a, mq); }
      assert a <= b;
    } else {
      forall a: real, b: real | a <= b ensures Synced(s, a, mq) <= Synced(s, b, mq) {
        MonotoneInStock(s, a, b, mq);
      }
    }
  }

  /** The stock that comes out as `x` before the limits. */
  lemma StockFor(s: Settings, x: real, mq: real) returns (stock: real)
    requires s.percentage > 0.0 && mq > 0.0
    ensures Scaled(s, stock, mq) == x
  {
    var p := s.percentage / 100.0;
    stock := (x / p) * mq;
    assert stock / mq == x / p;
    assert (x / p) * p == x;
  }

  lemma ClampMonotone(s: Settings, x: real, y: real)
    requires x <= y && !(s.useMax && s.useMin && s.min > s.max)
    ensures Clamp(s, x) <= Clamp(s, y)
  { }

  lemma MonotoneInStock(s: Settings, a: real, b: real, mq: real)
    requires s.percentage > 0.0 && mq > 0.0 && a <= b && !(s.useMax && s.useMin && s.min > s.max)
    ensures Synced(s, a, mq) <= Synced(s, b, mq)
  {
    ScaledMonotone(s, a, b, mq);
    ClampMonotone(s, Scaled(s, a, mq), Scaled(s, b, mq));
  }

  /** Accepted settings keep the limits apart, so the result follows stock and percentage. */
  lemma SyncedMonotone(s: Settings, t: Settings, a: real, b: real, mq: real)
    requires Accepted(s) && Accepted(t) && t == s.(percentage := t.percentage) && s.percentage <= t.percentage
    requires 0.0 <= a <= b && mq > 0.0
    ensures Synced(s, a, mq) <= Synced(t, b, mq)
  {
    MonotoneInStock(s, a, b, mq);
    ScaledByPercentage(s, t, b, mq);
    ClampMonotone(s, Scaled(s, b, mq), Scaled(t, b, mq));
  }

  lemma ClampFloor(s: Settings, x: real)
    requires Accepted(s)
    ensures s.useMax ==> Clamp(s, x).Floor <= s.max
    ensures s.useMin ==> Clamp(s, x).Floor >= s.min
    ensures s.useMin || x >= 0.0 ==> Clamp(s, x).Floor >= 0
  { }

  /** Under accepted settings the result stays within the limits in use. */
  lemma SyncedBounds(s: Settings, available: real, mq: real)
    requires Accepted(s) && mq != 0.0
    ensures s.useMax ==> Synced(s, available, mq) <= s.max
    ensures s.useMin ==> Synced(s, available, mq) >= s.min
    ensures s.useMin || (available >= 0.0 && mq > 0.0) ==> Synced(s, available, mq) >= 0
  {
    if available >= 0.0 && mq > 0.0 { ScaledSign(s, available, mq); }
    ClampFloor(s, Scaled(s, available, mq));
  }

  lemma UnitsFit(s: Settings, available: real, mq: real, q: int)
    requires Accepted(s) && available >= 0.0 && mq > 0.0 && q as real <= Scaled(s, available, mq)
    ensures q as real * mq <= available
  {
    var x := available / mq;
    QuotientSign(available, mq);
    ProductOrder(s.percentage / 100.0, 1.0, x);
    assert q as real <= x;
    ProductOrder(q as real, x, mq);
    assert x * mq == available;
  }

  /**
    The store is never offered more units than there are, exactly when no minimum is in use or the
    stock covers it.
  */
  lemma NoOversellIff(s: Settings, available: real, mq: real)
    requires Accepted(s) && available >= 0.0 && mq > 0.0
    ensures Synced(s, available, mq) as real * mq <= available <==> !s.useMin || s.min as real * mq <= available
  {
    var x := Scaled(s, available, mq);
    if x < s.min as real && s.useMin && !(x > s.max as real && s.useMax) {
      assert Synced(s, available, mq) == s.min;
    } else {
      UnitsFit(s, available, mq, Synced(s, available, mq));
      if s.useMin {
        UnitsFit(s, available, mq, s.min);
      }
    }
  }

  /** What a listing variant shows is within the limits, never negative, and oversells only through the minimum. */
  lemma FreeQtyBounds(s: Settings, stock: map<nat, real>, product: Option<nat>)
    requires Accepted(s)
    ensures var q := FreeQty(s, stock, product);
            && q >= 0
            && (s.useMax ==> q <= s.max)
            && (s.useMin ==> q >= s.min)
            && (product.Some? && product.value in stock && stock[product.value] >= 0.0 && !s.useMin
              ==> q as real <= stock[product.value])
  {
    SyncedBounds(s, 0.0, 1.0);
    if product.Some? && product.value in stock {
      SyncedBounds(s, stock[product.value], 1.0);
      if stock[product.value] >= 0.0 { NoOversellIff(s, stock[product.value], 1.0); }
    }
  }

  // ---- the quantity itself ----

  lemma FloorBounds(x: real, q: int)
    ensures q == x.Floor <==> q as real <= x < (q + 1) as real
  { }

  lemma ScaledTimes(s: Settings, available: real, mq: real, q: real)
    requires s.percentage > 0.0 && mq > 0.0
    ensures q <= Scaled(s, available, mq) <==> q * mq * 100.0 <= available * s.percentage
  {
    var x, p := available / mq, s.percentage / 100.0;
    assert x * mq == available;
    assert Scaled(s, available, mq) * (mq * 100.0) == available * s.percentage by {
      assert x * p * (mq * 100.0) == (x * mq) * (p * 100.0);
    }
    if q <= x * p {
      ProductOrder(q, x * p, mq * 100.0);
    } else {
      StrictProduct(x * p, q, mq * 100.0);
    }
    assert q * (mq * 100.0) == q * mq * 100.0;
  }

  lemma StrictProduct(a: real, b: real, x: real)
    requires a < b && x > 0.0
    ensures a * x < b * x
  {
    assert (b - a) * x > 0.0;
    assert (b - a) * x == b * x - a * x;
  }

  /** Without limits, the quantity is the greatest number of whole packs that the share of the stock covers. */
  lemma WholePacksIff(s: Settings, available: real, mq: real, q: int)
    requires s.percentage > 0.0 && mq > 0.0 && !s.useMax && !s.useMin
    ensures q == Synced(s, available, mq)
       <==> q as real * mq * 100.0 <= available * s.percentage < (q + 1) as real * mq * 100.0
  {
    FloorBounds(Scaled(s, available, mq), q);
    ScaledTimes(s, available, mq, q as real);
    ScaledTimes(s, available, mq, (q + 1) as real);
  }

  /** With limits it is that quantity, but the maximum where it exceeds it and the minimum where it falls short. */
  lemma Limited(s: Settings, available: real, mq: real)
    requires Accepted(s) && mq > 0.0
    ensures var q := Synced(s.(useMax := false, useMin := false), available, mq);
            Synced(s, available, mq)
            == if s.useMax && q > s.max then s.max else if s.useMin && q < s.min then s.min else q
  {
    var t := s.(useMax := false, useMin := false);
    assert Scaled(t, available, mq) == Scaled(s, available, mq);
  }

  /** A variant shows what is synced for its own stock, never less than zero; without a product, what no stock gives. */
  lemma FreeQtyIs(s: Settings, stock: map<nat, real>, product: Option<nat>)
    requires Accepted(s)
    ensures product.Some? && product.value in stock ==>
              var q := Synced(s, stock[product.value], 1.0);
              FreeQty(s, stock, product) == if q < 0 then 0 else q
    ensures product.None? ==> FreeQty(s, stock, product) == if s.useMin then s.min else 0
  {
    assert Scaled(s, 0.0, 1.0) == 0.0;
  }
}
