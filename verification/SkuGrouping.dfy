/**
  Export of a product with alternate SKUs (multichannel_product/wizard/export_product_composer.py):
  the i-th SKUs of all variants make up the i-th listing on the store.
*/
module SkuGrouping {
  import opened Wrappers

  /** `product` is 0 while the alternate SKU names no variant. */
  datatype Alt = Alt(id: nat, name: string, sequence: int, product: nat, channel: nat, mapped: bool)

  datatype Variant = Variant(id: nat, code: string, mapped: bool)

  datatype Error = Unsupported | SkuRequired | DuplicateSku | IndexOutOfRange

  /** The alternate SKUs of a template, and the next record id. */
  datatype Pool = Pool(alts: seq<Alt>, next: nat)

  function OnChannel(alts: seq<Alt>, channel: nat): seq<Alt> {
    if alts == [] then []
    else OnChannel(alts[..|alts| - 1], channel) + if alts[|alts| - 1].channel == channel then [alts[|alts| - 1]] else []
  }

  /** The names given to product `k`, in the order of `s`. */
  function NamesOf(s: seq<Alt>, k: nat): seq<string> {
    if s == [] then []
    else NamesOf(s[..|s| - 1], k) + if s[|s| - 1].product == k then [s[|s| - 1].name] else []
  }

  /** `len(get_alt_skus(variant, channel)) or 1`. */
  function Size(alts: seq<Alt>, channel: nat, v: Variant): nat {
    var n := |NamesOf(OnChannel(alts, channel), v.id)|;
    if n == 0 then 1 else n
  }

  function Smallest(alts: seq<Alt>, channel: nat, variants: seq<Variant>): nat
    requires variants != []
  {
    var n := |variants| - 1;
    if n == 0 then Size(alts, channel, variants[0])
    else
      var m := Smallest(alts, channel, variants[..n]);
      if Size(alts, channel, variants[n]) < m then Size(alts, channel, variants[n]) else m
  }

  function Sizes(variants: seq<Variant>, alts: seq<Alt>, channel: nat): set<nat> {
    set v | v in variants :: Size(alts, channel, v)
  }

  /** `_check_invalid_product`; without variants there is not exactly one size. */
  function Check(variants: seq<Variant>, alts: seq<Alt>, channel: nat): (r: Option<Error>)
    ensures r == None ==> variants != []
  {
    assert variants == [] ==> Sizes(variants, alts, channel) == {};
    if !((forall v :: v in variants ==> v.mapped) || (forall v :: v in variants ==> !v.mapped)) then Some(Unsupported)
    else if !((forall a :: a in alts ==> a.mapped) || (forall a :: a in alts ==> !a.mapped)) then Some(Unsupported)
    else if |Sizes(variants, alts, channel)| != 1 then Some(Unsupported)
    else if exists v :: v in variants && NamesOf(OnChannel(alts, channel), v.id) == [] && v.code == ""
    then Some(SkuRequired)
    else None
  }

  function Missing(variants: seq<Variant>, alts: seq<Alt>, channel: nat): seq<Variant> {
    if variants == [] then []
    else
      var v := variants[|variants| - 1];
      Missing(variants[..|variants| - 1], alts, channel)
      + if NamesOf(OnChannel(alts, channel), v.id) == [] then [v] else []
  }

  predicate NameTaken(pool: Pool, channel: nat, taken: set<string>, name: string) {
    name in taken || exists a :: a in pool.alts && a.channel == channel && a.name == name
  }

  function WithCode(pool: Pool, channel: nat, v: Variant): Pool {
    Pool(pool.alts + [Alt(pool.next, v.code, 0, v.id, channel, false)], pool.next + 1)
  }

  /** One SKU with the variant's own code for each of `vs`; a name already on the store is refused. */
  function Filled(vs: seq<Variant>, pool: Pool, channel: nat, taken: set<string>): Result<Pool, Error> {
    if vs == [] then Ok(pool)
    else
      match Filled(vs[..|vs| - 1], pool, channel, taken)
      case Err(e) => Err(e)
      case Ok(p) =>
        var v := vs[|vs| - 1];
        if NameTaken(p, channel, taken, v.code) then Err(DuplicateSku) else Ok(WithCode(p, channel, v))
  }

  /** The sort key `(product, sequence, id)`. */
  predicate Less(a: Alt, b: Alt) {
    a.product < b.product
    || (a.product == b.product && (a.sequence < b.sequence || (a.sequence == b.sequence && a.id < b.id)))
  }

  function Insert(s: seq<Alt>, a: Alt): seq<Alt> {
    if s == [] || !Less(a, s[|s| - 1]) then s + [a] else Insert(s[..|s| - 1], a) + [s[|s| - 1]]
  }

  function Sorted(s: seq<Alt>): seq<Alt> {
    if s == [] then [] else Insert(Sorted(s[..|s| - 1]), s[|s| - 1])
  }

  /** `groupby` into a dictionary: a group ends where the product changes, a later group replaces an earlier one. */
  function Grouped(s: seq<Alt>): (d: map<nat, seq<string>>)
    ensures s != [] ==> s[|s| - 1].product in d
  {
    if s == [] then map[]
    else
      var front, a := s[..|s| - 1], s[|s| - 1];
      if front != [] && front[|front| - 1].product == a.product
      then Grouped(front)[a.product := Grouped(front)[a.product] + [a.name]]
      else Grouped(front)[a.product := [a.name]]
  }

  /** Every group reaches past index `i`. */
  predicate Reaches(d: map<nat, seq<string>>, i: nat) {
    forall k :: k in d ==> i < |d[k]|
  }

  function RowAt(d: map<nat, seq<string>>, i: nat): map<nat, string>
    requires Reaches(d, i)
  {
    map k | k in d :: d[k][i]
  }

  /** One map from product to SKU per listing. */
  function Rows(d: map<nat, seq<string>>, n: nat): Result<seq<map<nat, string>>, Error> {
    if n == 0 then Ok([])
    else
      match Rows(d, n - 1)
      case Err(e) => Err(e)
      case Ok(rows) => if Reaches(d, n - 1) then Ok(rows + [RowAt(d, n - 1)]) else Err(IndexOutOfRange)
  }

  /** What the export of a template to one store works with: the SKUs after filling, and one map per listing. */
  datatype Exported = Exported(pool: Pool, rows: seq<map<nat, string>>)

  function Export(variants: seq<Variant>, pool: Pool, channel: nat, taken: set<string>): Result<Exported, Error> {
    match Check(variants, pool.alts, channel)
    case Some(e) => Err(e)
    case None =>
      match Filled(Missing(variants, pool.alts, channel), pool, channel, taken)
      case Err(e) => Err(e)
      case Ok(p) =>
        match Rows(Grouped(Sorted(OnChannel(p.alts, channel))), Smallest(p.alts, channel, variants))
        case Err(e) => Err(e)
        case Ok(rows) => Ok(Exported(p, rows))
  }

  class Template {
    const variants: seq<Variant>
    var pool: Pool

    constructor (variants: seq<Variant>, pool: Pool)
      ensures this.variants == variants && this.pool == pool
    {
      this.variants, this.pool := variants, pool;
    }

    /** `_add_alt_sku_to_variant_if_not_exists`. */
    method AddAltSkus(channel: nat, taken: set<string>) returns (r: Option<Error>)
      modifies this
      ensures match Filled(Missing(variants, old(pool).alts, channel), old(pool), channel, taken)
              case Ok(p) => r == None && pool == p
              case Err(e) => r == Some(e)
    {
      var missing: seq<Variant> := [];
      for i := 0 to |variants|
        invariant pool == old(pool) && missing == Missing(variants[..i], pool.alts, channel)
      {
        assert variants[..i + 1][..i] == variants[..i];
        if NamesOf(OnChannel(pool.alts, channel), variants[i].id) == [] {
          missing := missing + [variants[i]];
        }
      }
      assert variants[..|variants|] == variants;
      for i := 0 to |missing|
        invariant Filled(missing[..i], old(pool), channel, taken) == Ok(pool)
      {
        assert missing[..i + 1][..i] == missing[..i];
        if NameTaken(pool, channel, taken, missing[i].code) {
          FillFails(missing, i + 1, old(pool), channel, taken);
          return Some(DuplicateSku);
        }
        pool := WithCode(pool, channel, missing[i]);
      }
      assert missing[..|missing|] == missing;
      r := None;
    }

    /** `prepare_product_channel_data_for_export_separately`. */
    method ProductDict(channel: nat) returns (d: map<nat, seq<string>>)
      ensures d == Grouped(Sorted(OnChannel(pool.alts, channel)))
    {
      var s := Sorted(OnChannel(pool.alts, channel));
      d := map[];
      for i := 0 to |s|
        invariant d == Grouped(s[..i])
      {
        assert s[..i + 1][..i] == s[..i];
        var k := s[i].product;
        if i > 0 && s[i - 1].product == k {
          d := d[k := d[k] + [s[i].name]];
        } else {
          d := d[k := [s[i].name]];
        }
      }
      assert s[..|s|] == s;
    }

    /** The part of `export` for one store that settles which SKU goes into which listing. */
    method DoExport(channel: nat, taken: set<string>) returns (r: Result<seq<map<nat, string>>, Error>)
      modifies this
      ensures match Export(variants, old(pool), channel, taken)
              case Ok(e) => r == Ok(e.rows) && pool == e.pool
              case Err(e) => r == Err(e)
    {
      var invalid := Check(variants, pool.alts, channel);
      if invalid.Some? { return Err(invalid.value); }
      var refused := AddAltSkus(channel, taken);
      if refused.Some? { return Err(refused.value); }
      var d := ProductDict(channel);
      var rows: seq<map<nat, string>> := [];
      var n := Smallest(pool.alts, channel, variants);
      for i := 0 to n
        invariant Rows(d, i) == Ok(rows)
      {
        if !Reaches(d, i) {
          RowsFail(d, i + 1, n);
          return Err(IndexOutOfRange);
        }
        rows := rows + [RowAt(d, i)];
      }
      r := Ok(rows);
    }
  }

  lemma {:induction false} FillFails(vs: seq<Variant>, n: nat, pool: Pool, channel: nat, taken: set<string>)
    requires n <= |vs| && Filled(vs[..n], pool, channel, taken).Err?
    ensures Filled(vs, pool, channel, taken) == Filled(vs[..n], pool, channel, taken)
    decreases |vs|
  {
    if n == |vs| {
      assert vs[..n] == vs;
    } else {
      assert vs[..|vs| - 1][..n] == vs[..n];
      FillFails(vs[..|vs| - 1], n, pool, channel, taken);
    }
  }

  lemma {:induction false} RowsFail(d: map<nat, seq<string>>, m: nat, n: nat)
    requires m <= n && Rows(d, m).Err?
    ensures Rows(d, n) == Rows(d, m)
  {
    if m < n { RowsFail(d, m, n - 1); }
  }

  // ---- sorting and grouping ----

  predicate InOrder(s: seq<Alt>) {
    forall i, j :: 0 <= i < j < |s| ==> !Less(s[j], s[i])
  }

  ghost predicate DistinctNames(s: seq<Alt>) {
    forall i, j :: 0 <= i < j < |s| ==> s[i].name != s[j].name
  }

  lemma NamesSnoc(s: seq<Alt>, a: Alt, k: nat)
    ensures NamesOf(s + [a], k) == NamesOf(s, k) + if a.product == k then [a.name] else []
  {
    assert (s + [a])[..|s|] == s;
  }

  lemma {:induction false} InsertKeeps(s: seq<Alt>, a: Alt)
    ensures multiset(Insert(s, a)) == multiset(s) + multiset{a}
  {
    if !(s == [] || !Less(a, s[|s| - 1])) {
      assert s == s[..|s| - 1] + [s[|s| - 1]];
      InsertKeeps(s[..|s| - 1], a);
    }
  }

  lemma {:induction false} InsertCounts(s: seq<Alt>, a: Alt, k: nat)
    ensures |NamesOf(Insert(s, a), k)| == |NamesOf(s, k)| + if a.product == k then 1 else 0
  {
    if s == [] || !Less(a, s[|s| - 1]) {
      NamesSnoc(s, a, k);
    } else {
      InsertCounts(s[..|s| - 1], a, k);
      NamesSnoc(Insert(s[..|s| - 1], a), s[|s| - 1], k);
    }
  }

  lemma {:induction false} InsertOrders(s: seq<Alt>, a: Alt)
    requires InOrder(s)
    ensures InOrder(Insert(s, a))
  {
    if s == [] {
    } else if !Less(a, s[|s| - 1]) {
      forall i | 0 <= i < |s| ensures !Less(a, s[i]) {
        if i < |s| - 1 { assert !Less(s[|s| - 1], s[i]); }
      }
    } else {
      var front, z := s[..|s| - 1], s[|s| - 1];
      InsertOrders(front, a);
      InsertKeeps(front, a);
      var t := Insert(front, a);
      forall i | 0 <= i < |t| ensures !Less(z, t[i]) {
        assert t[i] in multiset(t);
        if t[i] in front {
          var j :| 0 <= j < |front| && front[j] == t[i];
          assert s[j] == t[i];
        }
      }
    }
  }

  /** Sorting keeps the records, and how many each product has. */
  lemma {:induction false} SortedFacts(s: seq<Alt>, k: nat)
    ensures InOrder(Sorted(s)) && multiset(Sorted(s)) == multiset(s)
    ensures |NamesOf(Sorted(s), k)| == |NamesOf(s, k)|
  {
    if s != [] {
      var front, a := s[..|s| - 1], s[|s| - 1];
      assert s == front + [a];
      SortedFacts(front, k);
      InsertKeeps(Sorted(front), a);
      InsertCounts(Sorted(front), a, k);
      InsertOrders(Sorted(front), a);
    }
  }

  lemma {:induction false} NamesMembers(s: seq<Alt>, k: nat, x: string)
    ensures x in NamesOf(s, k) <==> exists i :: 0 <= i < |s| && s[i].product == k && s[i].name == x
    ensures |NamesOf(s, k)| > 0 <==> exists i :: 0 <= i < |s| && s[i].product == k
  {
    if s != [] {
      NamesMembers(s[..|s| - 1], k, x);
      assert s == s[..|s| - 1] + [s[|s| - 1]];
    }
  }

  lemma {:induction false} NamesDistinct(s: seq<Alt>, k: nat, i: nat, j: nat)
    requires DistinctNames(s) && i < j < |NamesOf(s, k)|
    ensures NamesOf(s, k)[i] != NamesOf(s, k)[j]
  {
    var front, a := s[..|s| - 1], s[|s| - 1];
    if j < |NamesOf(front, k)| {
      NamesDistinct(front, k, i, j);
    } else {
      NamesMembers(front, k, NamesOf(front, k)[i]);
    }
  }

  lemma NewKey(s: seq<Alt>)
    requires s != [] && InOrder(s)
    requires |s| == 1 || s[|s| - 2].product != s[|s| - 1].product
    ensures forall i :: 0 <= i < |s| - 1 ==> s[i].product < s[|s| - 1].product
  {
    var n := |s| - 1;
    forall i | 0 <= i < n ensures s[i].product < s[n].product {
      assert !Less(s[n], s[n - 1]);
      assert s[i].product <= s[n - 1].product by {
        if i < n - 1 { assert !Less(s[n - 1], s[i]); }
      }
    }
  }

  /** On a sorted list, grouping neighbours collects exactly the names of each product. */
  lemma {:induction false} GroupedIsFilter(s: seq<Alt>, k: nat)
    requires InOrder(s)
    ensures k in Grouped(s) <==> NamesOf(s, k) != []
    ensures k in Grouped(s) ==> Grouped(s)[k] == NamesOf(s, k)
  {
    if s != [] {
      var front, a := s[..|s| - 1], s[|s| - 1];
      GroupedIsFilter(front, k);
      if !(front != [] && front[|front| - 1].product == a.product) && k == a.product {
        NewKey(s);
        NamesMembers(front, k, a.name);
      }
    }
  }

  /** The dictionary the export works with, stated by counting: per product, all its SKUs on the store. */
  lemma DictMeaning(alts: seq<Alt>, channel: nat, k: nat)
    ensures var on := OnChannel(alts, channel);
            var d := Grouped(Sorted(on));
            && (k in d <==> NamesOf(on, k) != [])
            && (k in d ==> d[k] == NamesOf(Sorted(on), k) && |d[k]| == |NamesOf(on, k)|)
  {
    SortedFacts(OnChannel(alts, channel), k);
    GroupedIsFilter(Sorted(OnChannel(alts, channel)), k);
  }

  // ---- filling ----

  lemma OnChannelSnoc(alts: seq<Alt>, a: Alt, channel: nat)
    ensures OnChannel(alts + [a], channel) == OnChannel(alts, channel) + if a.channel == channel then [a] else []
  {
    assert (alts + [a])[..|alts|] == alts;
  }

  lemma {:induction false} OnChannelMembers(alts: seq<Alt>, channel: nat, a: Alt)
    ensures a in OnChannel(alts, channel) <==> a in alts && a.channel == channel
  {
    if alts != [] {
      OnChannelMembers(alts[..|alts| - 1], channel, a);
      assert alts == alts[..|alts| - 1] + [alts[|alts| - 1]];
    }
  }

  predicate DistinctIds(variants: seq<Variant>) {
    forall i, j :: 0 <= i < j < |variants| ==> variants[i].id != variants[j].id
  }

  predicate Named(variants: seq<Variant>, id: nat) { exists v :: v in variants && v.id == id }

  /** One more SKU for variant `v`, under a name that is free on the store. */
  lemma CodeAdded(p: Pool, channel: nat, v: Variant, k: nat)
    requires forall b :: b in OnChannel(p.alts, channel) ==> b.name != v.code
    ensures var before, after := OnChannel(p.alts, channel), OnChannel(WithCode(p, channel, v).alts, channel);
            && |NamesOf(after, k)| == |NamesOf(before, k)| + (if v.id == k then 1 else 0)
            && (DistinctNames(before) ==> DistinctNames(after))
  {
    var a := Alt(p.next, v.code, 0, v.id, channel, false);
    OnChannelSnoc(p.alts, a, channel);
    NamesSnoc(OnChannel(p.alts, channel), a, k);
  }

  lemma FreeName(p: Pool, channel: nat, taken: set<string>, code: string)
    requires !NameTaken(p, channel, taken, code)
    ensures forall b :: b in OnChannel(p.alts, channel) ==> b.name != code
  {
    forall b | b in OnChannel(p.alts, channel) ensures b.name != code {
      OnChannelMembers(p.alts, channel, b);
    }
  }

  lemma NamedSnoc(front: seq<Variant>, v: Variant, k: nat)
    requires DistinctIds(front + [v])
    ensures DistinctIds(front) && (Named(front + [v], k) <==> Named(front, k) || v.id == k)
    ensures !(Named(front, k) && v.id == k)
  {
    var vs := front + [v];
    assert vs[|front|] == v;
    forall i, j | 0 <= i < j < |front| ensures front[i].id != front[j].id { assert vs[i].id != vs[j].id; }
    forall i | 0 <= i < |front| ensures front[i].id != v.id { assert vs[i].id != vs[|front|].id; }
  }

  /** Filling adds one SKU to every variant in `vs`, and keeps the names on the store distinct. */
  lemma {:induction false} FilledFacts(vs: seq<Variant>, pool: Pool, channel: nat, taken: set<string>, k: nat)
    requires Filled(vs, pool, channel, taken).Ok? && DistinctIds(vs)
    ensures var p := Filled(vs, pool, channel, taken).value;
            && |NamesOf(OnChannel(p.alts, channel), k)|
              == |NamesOf(OnChannel(pool.alts, channel), k)| + (if Named(vs, k) then 1 else 0)
            && (DistinctNames(OnChannel(pool.alts, channel)) ==> DistinctNames(OnChannel(p.alts, channel)))
  {
    if vs != [] {
      var front, v := vs[..|vs| - 1], vs[|vs| - 1];
      assert vs == front + [v];
      NamedSnoc(front, v, k);
      FilledFacts(front, pool, channel, taken, k);
      var p := Filled(front, pool, channel, taken).value;
      FreeName(p, channel, taken, v.code);
      CodeAdded(p, channel, v, k);
    }
  }

  lemma {:induction false} MissingMembers(variants: seq<Variant>, alts: seq<Alt>, channel: nat, v: Variant)
    requires DistinctIds(variants)
    ensures DistinctIds(Missing(variants, alts, channel))
    ensures v in Missing(variants, alts, channel) <==> v in variants && NamesOf(OnChannel(alts, channel), v.id) == []
  {
    if variants != [] {
      var front, z := variants[..|variants| - 1], variants[|variants| - 1];
      assert variants == front + [z];
      MissingMembers(front, alts, channel, v);
      forall w | w in Missing(front, alts, channel) ensures w.id != z.id {
        MissingMembers(front, alts, channel, w);
      }
    }
  }

  /** The one size that the check found, shared by all variants. */
  lemma SameSize(variants: seq<Variant>, alts: seq<Alt>, channel: nat, v: Variant, w: Variant)
    requires |Sizes(variants, alts, channel)| == 1 && v in variants && w in variants
    ensures Size(alts, channel, v) == Size(alts, channel, w)
  {
    var sizes := Sizes(variants, alts, channel);
    var a, b := Size(alts, channel, v), Size(alts, channel, w);
    assert a in sizes && b in sizes;
    assert |sizes - {a}| == 0;
    assert b !in sizes - {a};
  }

  lemma {:induction false} SmallestOfEqual(alts: seq<Alt>, channel: nat, variants: seq<Variant>, n: nat)
    requires variants != [] && forall v :: v in variants ==> Size(alts, channel, v) == n
    ensures Smallest(alts, channel, variants) == n
  {
    if |variants| > 1 { SmallestOfEqual(alts, channel, variants[..|variants| - 1], n); }
  }

  /** A template as the store of records keeps it: variants with their own ids, names distinct on each store. */
  ghost predicate WellFormed(variants: seq<Variant>, pool: Pool, channel: nat) {
    DistinctIds(variants) && DistinctNames(OnChannel(pool.alts, channel))
  }

  /** The export got past the checks and the filling; `p` are the SKUs it then groups. */
  predicate Ready(variants: seq<Variant>, pool: Pool, channel: nat, taken: set<string>, p: Pool) {
    Check(variants, pool.alts, channel) == None
    && Filled(Missing(variants, pool.alts, channel), pool, channel, taken) == Ok(p)
  }

  /** After filling, every variant has exactly as many SKUs on the store as there are listings. */
  lemma EveryVariantFull(variants: seq<Variant>, pool: Pool, channel: nat, taken: set<string>, p: Pool, v: Variant)
    requires WellFormed(variants, pool, channel) && Ready(variants, pool, channel, taken, p) && v in variants
    ensures |NamesOf(OnChannel(p.alts, channel), v.id)| == Smallest(p.alts, channel, variants) >= 1
    ensures DistinctNames(OnChannel(p.alts, channel))
  {
    var n := Size(pool.alts, channel, v);
    var missing := Missing(variants, pool.alts, channel);
    forall w | w in variants
      ensures |NamesOf(OnChannel(p.alts, channel), w.id)| == n && Size(p.alts, channel, w) == n
      ensures DistinctNames(OnChannel(p.alts, channel))
    {
      SameSize(variants, pool.alts, channel, v, w);
      MissingMembers(variants, pool.alts, channel, w);
      FilledFacts(missing, pool, channel, taken, w.id);
      if Named(missing, w.id) {
        var u :| u in missing && u.id == w.id;
        MissingMembers(variants, pool.alts, channel, u);
      }
    }
    SmallestOfEqual(p.alts, channel, variants, n);
  }

  // ---- main results ----

  lemma {:induction false} RowsMeaning(d: map<nat, seq<string>>, n: nat)
    ensures Rows(d, n).Ok? <==> forall i :: 0 <= i < n ==> Reaches(d, i)
    ensures Rows(d, n).Ok? ==>
              |Rows(d, n).value| == n && forall i :: 0 <= i < n ==> Reaches(d, i) && Rows(d, n).value[i] == RowAt(d, i)
    ensures Rows(d, n).Err? ==> Rows(d, n).error == IndexOutOfRange
  {
    if n > 0 { RowsMeaning(d, n - 1); }
  }

  /**
    Once the checks and the filling pass, the export fails exactly when some product that is not a
    variant of the template (or an alternate SKU without one) has SKUs on the store, but fewer than
    there are listings; the failure is an index out of range.
  */
  lemma ExportFailsIff(variants: seq<Variant>, pool: Pool, channel: nat, taken: set<string>, p: Pool)
    requires WellFormed(variants, pool, channel) && Ready(variants, pool, channel, taken, p)
    ensures Export(variants, pool, channel, taken).Err? <==>
            exists k :: !Named(variants, k)
              && 0 < |NamesOf(OnChannel(p.alts, channel), k)| < Smallest(p.alts, channel, variants)
    ensures Export(variants, pool, channel, taken).Err?
            ==> Export(variants, pool, channel, taken).error == IndexOutOfRange
  {
    var n := Smallest(p.alts, channel, variants);
    var on := OnChannel(p.alts, channel);
    var d := Grouped(Sorted(on));
    RowsMeaning(d, n);
    EveryVariantFull(variants, pool, channel, taken, p, variants[0]);
    if Rows(d, n).Err? {
      var i :| 0 <= i < n && !Reaches(d, i);
      var k :| k in d && |d[k]| <= i;
      DictMeaning(p.alts, channel, k);
      if Named(variants, k) {
        var v :| v in variants && v.id == k;
        EveryVariantFull(variants, pool, channel, taken, p, v);
      }
    } else {
      assert Reaches(d, n - 1);
      forall k ensures !(0 < |NamesOf(on, k)| < n) {
        DictMeaning(p.alts, channel, k);
      }
    }
  }

  /** Listing `i` gives product `k` the SKU `x`. */
  predicate Uses(rows: seq<map<nat, string>>, i: nat, k: nat, x: string) {
    i < |rows| && k in rows[i] && rows[i][k] == x
  }

  /**
    What a finished export built: one listing per index below the common size, each with a SKU for
    every variant, namely its i-th by sequence and id.
  */
  lemma RowsComplete(variants: seq<Variant>, pool: Pool, channel: nat, taken: set<string>, p: Pool, v: Variant)
    requires WellFormed(variants, pool, channel) && Ready(variants, pool, channel, taken, p) && v in variants
    requires Export(variants, pool, channel, taken).Ok?
    ensures var rows := Export(variants, pool, channel, taken).value.rows;
            var names := NamesOf(Sorted(OnChannel(p.alts, channel)), v.id);
            |rows| == |names| && forall i :: 0 <= i < |rows| ==> v.id in rows[i] && rows[i][v.id] == names[i]
  {
    var d := Grouped(Sorted(OnChannel(p.alts, channel)));
    RowsMeaning(d, Smallest(p.alts, channel, variants));
    EveryVariantFull(variants, pool, channel, taken, p, v);
    DictMeaning(p.alts, channel, v.id);
  }

  /** No SKU goes into two listings, or to two products. */
  lemma UsedAtMostOnce(variants: seq<Variant>, pool: Pool, channel: nat, taken: set<string>, p: Pool,
                       i: nat, k: nat, j: nat, l: nat, x: string)
    requires WellFormed(variants, pool, channel) && Ready(variants, pool, channel, taken, p)
    requires Export(variants, pool, channel, taken).Ok?
    requires Uses(Export(variants, pool, channel, taken).value.rows, i, k, x)
    requires Uses(Export(variants, pool, channel, taken).value.rows, j, l, x)
    ensures i == j && k == l
    ensures exists a :: a in p.alts && a.channel == channel && a.name == x && a.product == k
  {
    var on := OnChannel(p.alts, channel);
    RowsMeaning(Grouped(Sorted(on)), Smallest(p.alts, channel, variants));
    EveryVariantFull(variants, pool, channel, taken, p, variants[0]);
    SortedDistinct(on);
    UsedFrom(p.alts, channel, k, i, x);
    UsedFrom(p.alts, channel, l, j, x);
    var a :| 0 <= a < |Sorted(on)| && Sorted(on)[a].product == k && Sorted(on)[a].name == x;
    var b :| 0 <= b < |Sorted(on)| && Sorted(on)[b].product == l && Sorted(on)[b].name == x;
    assert a == b;
    if i < j { NamesDistinct(Sorted(on), k, i, j); } else if j < i { NamesDistinct(Sorted(on), k, j, i); }
    SortedFacts(on, k);
    assert Sorted(on)[a] in multiset(Sorted(on));
    OnChannelMembers(p.alts, channel, Sorted(on)[a]);
  }

  lemma UsedFrom(alts: seq<Alt>, channel: nat, k: nat, i: nat, x: string)
    requires var d := Grouped(Sorted(OnChannel(alts, channel))); k in d && i < |d[k]| && d[k][i] == x
    ensures var s := Sorted(OnChannel(alts, channel));
            && i < |NamesOf(s, k)| && NamesOf(s, k)[i] == x
            && exists a :: 0 <= a < |s| && s[a].product == k && s[a].name == x
  {
    DictMeaning(alts, channel, k);
    NamesMembers(Sorted(OnChannel(alts, channel)), k, x);
  }

  lemma {:induction false} SortedDistinct(s: seq<Alt>)
    requires DistinctNames(s)
    ensures DistinctNames(Sorted(s))
  {
    SortedFacts(s, 0);
    var t := Sorted(s);
    forall i, j | 0 <= i < j < |t| ensures t[i].name != t[j].name {
      if t[i].name == t[j].name {
        TwoOf(t, i, j);
        assert t[i] in multiset(s) && t[j] in multiset(s);
        var a :| 0 <= a < |s| && s[a] == t[i];
        var b :| 0 <= b < |s| && s[b] == t[j];
        assert a == b;
        OneOf(s, a);
        assert false;
      }
    }
  }

  lemma TwoOf(t: seq<Alt>, i: nat, j: nat)
    requires i < j < |t|
    ensures t[i] == t[j] ==> multiset(t)[t[i]] >= 2
  {
    assert t == t[..j] + t[j..];
    assert t[i] in multiset(t[..j]) && t[j] in multiset(t[j..]) by {
      assert t[..j][i] == t[i] && t[j..][0] == t[j];
    }
  }

  lemma OneOf(s: seq<Alt>, a: nat)
    requires a < |s| && DistinctNames(s)
    ensures multiset(s)[s[a]] == 1
  {
    assert s == s[..a] + [s[a]] + s[a + 1..];
    assert s[a] !in s[..a] && s[a] !in s[a + 1..];
  }

  /** Every name in the dictionary is that of an alternate SKU of the store. */
  lemma NamedAlt(alts: seq<Alt>, channel: nat, k: nat, i: nat, x: string) returns (a: Alt)
    requires var d := Grouped(Sorted(OnChannel(alts, channel))); k in d && i < |d[k]| && d[k][i] == x
    ensures a in alts && a.channel == channel && a.product == k && a.name == x
  {
    var on := OnChannel(alts, channel);
    UsedFrom(alts, channel, k, i, x);
    var b :| 0 <= b < |Sorted(on)| && Sorted(on)[b].product == k && Sorted(on)[b].name == x;
    a := Sorted(on)[b];
    SortedFacts(on, k);
    assert a in multiset(Sorted(on));
    OnChannelMembers(alts, channel, a);
  }

  /** The dictionary gives a product no name twice. */
  lemma GroupDistinct(alts: seq<Alt>, channel: nat, k: nat, i: nat, j: nat)
    requires DistinctNames(OnChannel(alts, channel))
    requires var d := Grouped(Sorted(OnChannel(alts, channel))); k in d && i < j < |d[k]|
    ensures var d := Grouped(Sorted(OnChannel(alts, channel))); d[k][i] != d[k][j]
  {
    SortedDistinct(OnChannel(alts, channel));
    DictMeaning(alts, channel, k);
    NamesDistinct(Sorted(OnChannel(alts, channel)), k, i, j);
  }

  /** The SKUs of a group beyond the number of listings are left out. */
  lemma SurplusUnused(variants: seq<Variant>, pool: Pool, channel: nat, taken: set<string>, p: Pool, k: nat)
    requires WellFormed(variants, pool, channel) && Ready(variants, pool, channel, taken, p)
    requires Export(variants, pool, channel, taken).Ok?
    requires |NamesOf(OnChannel(p.alts, channel), k)| > Smallest(p.alts, channel, variants)
    ensures exists a :: a in p.alts && a.channel == channel
                        && !Used(Export(variants, pool, channel, taken).value.rows, a)
  {
    var rows := Export(variants, pool, channel, taken).value.rows;
    var n := Smallest(p.alts, channel, variants);
    var d := Grouped(Sorted(OnChannel(p.alts, channel)));
    RowsMeaning(d, n);
    EveryVariantFull(variants, pool, channel, taken, p, variants[0]);
    DictMeaning(p.alts, channel, k);
    var a := NamedAlt(p.alts, channel, k, n, d[k][n]);
    forall i | 0 <= i < n ensures !Uses(rows, i, k, a.name) {
      GroupDistinct(p.alts, channel, k, i, n);
    }
  }

  /** Every alternate SKU of the store has its place in the dictionary. */
  lemma PlaceOf(alts: seq<Alt>, channel: nat, a: Alt) returns (i: nat)
    requires a in alts && a.channel == channel
    ensures var d := Grouped(Sorted(OnChannel(alts, channel)));
            a.product in d && i < |d[a.product]| && d[a.product][i] == a.name
            && |d[a.product]| == |NamesOf(OnChannel(alts, channel), a.product)|
  {
    var on := OnChannel(alts, channel);
    OnChannelMembers(alts, channel, a);
    SortedFacts(on, a.product);
    assert a in multiset(on);
    var b :| 0 <= b < |Sorted(on)| && Sorted(on)[b] == a;
    NamesMembers(Sorted(on), a.product, a.name);
    DictMeaning(alts, channel, a.product);
    i :| 0 <= i < |NamesOf(Sorted(on), a.product)| && NamesOf(Sorted(on), a.product)[i] == a.name;
  }

  lemma ReachedIsUsed(variants: seq<Variant>, pool: Pool, channel: nat, taken: set<string>, p: Pool, a: Alt)
    requires WellFormed(variants, pool, channel) && Ready(variants, pool, channel, taken, p)
    requires Export(variants, pool, channel, taken).Ok?
    requires a in p.alts && a.channel == channel
    requires |NamesOf(OnChannel(p.alts, channel), a.product)| <= Smallest(p.alts, channel, variants)
    ensures Used(Export(variants, pool, channel, taken).value.rows, a)
  {
    var rows := Export(variants, pool, channel, taken).value.rows;
    RowsMeaning(Grouped(Sorted(OnChannel(p.alts, channel))), Smallest(p.alts, channel, variants));
    var i := PlaceOf(p.alts, channel, a);
    assert Uses(rows, i, a.product, a.name);
  }

  predicate Used(rows: seq<map<nat, string>>, a: Alt) {
    exists i :: 0 <= i < |rows| && Uses(rows, i, a.product, a.name)
  }

  /**
    Every alternate SKU of the store goes into a listing exactly when no group, not even one of SKUs
    without a variant, has more SKUs than there are listings.
  */
  lemma AllUsedIff(variants: seq<Variant>, pool: Pool, channel: nat, taken: set<string>, p: Pool)
    requires WellFormed(variants, pool, channel) && Ready(variants, pool, channel, taken, p)
    requires Export(variants, pool, channel, taken).Ok?
    ensures (forall a :: a in p.alts && a.channel == channel ==>
               Used(Export(variants, pool, channel, taken).value.rows, a))
            <==>
            forall k :: |NamesOf(OnChannel(p.alts, channel), k)| <= Smallest(p.alts, channel, variants)
  {
    var n := Smallest(p.alts, channel, variants);
    if k: nat :| |NamesOf(OnChannel(p.alts, channel), k)| > n {
      SurplusUnused(variants, pool, channel, taken, p, k);
    } else {
      forall a | a in p.alts && a.channel == channel
        ensures Used(Export(variants, pool, channel, taken).value.rows, a)
      {
        ReachedIsUsed(variants, pool, channel, taken, p, a);
      }
    }
  }

  /**
    When the checks pass and every alternate SKU of the store names a variant, the export does not
    fail, and every SKU goes into exactly one listing.
  */
  lemma NamedSkusExport(variants: seq<Variant>, pool: Pool, channel: nat, taken: set<string>, p: Pool)
    requires WellFormed(variants, pool, channel) && Ready(variants, pool, channel, taken, p)
    requires forall a :: a in p.alts && a.channel == channel ==> Named(variants, a.product)
    ensures Export(variants, pool, channel, taken).Ok?
    ensures forall a :: a in p.alts && a.channel == channel ==>
              Used(Export(variants, pool, channel, taken).value.rows, a)
  {
    var on := OnChannel(p.alts, channel);
    forall k ensures |NamesOf(on, k)| == 0 || |NamesOf(on, k)| == Smallest(p.alts, channel, variants) {
      NamesMembers(on, k, "");
      if |NamesOf(on, k)| > 0 {
        var i :| 0 <= i < |on| && on[i].product == k;
        OnChannelMembers(p.alts, channel, on[i]);
        var v :| v in variants && v.id == k;
        EveryVariantFull(variants, pool, channel, taken, p, v);
      }
    }
    ExportFailsIff(variants, pool, channel, taken, p);
    AllUsedIff(variants, pool, channel, taken, p);
  }

  lemma {:induction false} AllOnChannel(s: seq<Alt>, channel: nat)
    requires forall i :: 0 <= i < |s| ==> s[i].channel == channel
    ensures OnChannel(s, channel) == s
    decreases |s|
  {
    if s != [] {
      AllOnChannel(s[..|s| - 1], channel);
      assert s == s[..|s| - 1] + [s[|s| - 1]];
    }
  }

  lemma NamesPrefix(s: seq<Alt>, n: nat, k: nat)
    requires n < |s|
    ensures NamesOf(s[..n + 1], k) == NamesOf(s[..n], k) + if s[n].product == k then [s[n].name] else []
  {
    assert s[..n + 1][..n] == s[..n];
  }

  lemma TwoMoreNames(s: seq<Alt>, n: nat, k: nat)
    requires n + 2 <= |s|
    ensures |NamesOf(s[..n + 2], k)| == |NamesOf(s[..n], k)| + (if s[n].product == k then 1 else 0)
                                        + (if s[n + 1].product == k then 1 else 0)
  {
    NamesPrefix(s, n, k);
    NamesPrefix(s, n + 1, k);
  }

  lemma FiveNames(s: seq<Alt>, k: nat)
    requires |s| == 5
    ensures |NamesOf(s, k)| == (if s[0].product == k then 1 else 0) + (if s[1].product == k then 1 else 0)
                               + (if s[2].product == k then 1 else 0) + (if s[3].product == k then 1 else 0)
                               + (if s[4].product == k then 1 else 0)
  {
    NamesPrefix(s, 0, k);
    TwoMoreNames(s, 1, k);
    TwoMoreNames(s, 3, k);
    assert s[..5] == s;
  }

  /** Two variants with two SKUs each, and a fifth SKU that names none. */
  predicate OneUnnamed(v: Variant, w: Variant, s: seq<Alt>, channel: nat) {
    && v.id != w.id && v.id != 0 && w.id != 0 && !v.mapped && !w.mapped
    && |s| == 5 && (forall i :: 0 <= i < 5 ==> s[i].channel == channel && !s[i].mapped)
    && (forall i, j :: 0 <= i < j < 5 ==> s[i].name != s[j].name)
    && s[0].product == s[1].product == v.id && s[2].product == s[3].product == w.id && s[4].product == 0
  }

  lemma OneUnnamedReady(v: Variant, w: Variant, s: seq<Alt>, next: nat, channel: nat)
    requires OneUnnamed(v, w, s, channel)
    ensures OnChannel(s, channel) == s
    ensures Ready([v, w], Pool(s, next), channel, {}, Pool(s, next)) && Smallest(s, channel, [v, w]) == 2
  {
    AllOnChannel(s, channel);
    FiveNames(s, v.id);
    FiveNames(s, w.id);
    assert Sizes([v, w], s, channel) == {2} by {
      assert v in [v, w] && Size(s, channel, v) == 2 && Size(s, channel, w) == 2;
    }
    assert [v, w][..1] == [v] && [v][..0] == [];
    assert Missing([v], s, channel) == Missing([], s, channel) + [];
    assert Missing([v, w], s, channel) == Missing([v], s, channel) + [];
  }

  /** The checks do not ask for it: one SKU without a variant beside two for every variant stops the export. */
  lemma UnnamedSkuFails(v: Variant, w: Variant, s: seq<Alt>, next: nat, channel: nat)
    requires OneUnnamed(v, w, s, channel)
    ensures Export([v, w], Pool(s, next), channel, {}) == Err(IndexOutOfRange)
  {
    OneUnnamedReady(v, w, s, next, channel);
    FiveNames(s, 0);
    assert !Named([v, w], 0) && 0 < |NamesOf(OnChannel(s, channel), 0)| < 2;
    ExportFailsIff([v, w], Pool(s, next), channel, {}, Pool(s, next));
  }

  // ---- checks, filling and order, by the fields of the records ----

  lemma OneSizeIff(variants: seq<Variant>, alts: seq<Alt>, channel: nat)
    ensures |Sizes(variants, alts, channel)| == 1 <==>
            variants != [] && forall v :: v in variants ==> Size(alts, channel, v) == Size(alts, channel, variants[0])
  {
    var sizes := Sizes(variants, alts, channel);
    assert variants == [] ==> sizes == {};
    if |sizes| == 1 {
      forall v | v in variants ensures Size(alts, channel, v) == Size(alts, channel, variants[0]) {
        SameSize(variants, alts, channel, v, variants[0]);
      }
    }
    if variants != [] && forall v :: v in variants ==> Size(alts, channel, v) == Size(alts, channel, variants[0]) {
      assert variants[0] in variants;
      assert sizes == {Size(alts, channel, variants[0])};
    }
  }

  /**
    The export is let through exactly if there are variants, all or none of them are mapped already, and
    the same holds for the SKUs; every variant has as many SKUs on the store as every other (none counts
    as one); and a variant without any has a code of its own.
  */
  lemma CheckPassesIff(variants: seq<Variant>, alts: seq<Alt>, channel: nat)
    ensures Check(variants, alts, channel) == None <==>
            && variants != []
            && (forall v, w :: v in variants && w in variants ==> v.mapped == w.mapped)
            && (forall a, b :: a in alts && b in alts ==> a.mapped == b.mapped)
            && (forall v, w :: v in variants && w in variants ==>
                  var m, n := |NamesOf(OnChannel(alts, channel), v.id)|, |NamesOf(OnChannel(alts, channel), w.id)|;
                  m == n || m + n == 1)
            && (forall v :: v in variants && NamesOf(OnChannel(alts, channel), v.id) == [] ==> v.code != "")
  {
    OneSizeIff(variants, alts, channel);
    AlikeIff(variants, alts);
    SizesAlike(variants, alts, channel);
  }

  lemma AlikeIff(variants: seq<Variant>, alts: seq<Alt>)
    ensures (forall v, w :: v in variants && w in variants ==> v.mapped == w.mapped)
       <==> (forall v :: v in variants ==> v.mapped) || (forall v :: v in variants ==> !v.mapped)
    ensures (forall a, b :: a in alts && b in alts ==> a.mapped == b.mapped)
       <==> (forall a :: a in alts ==> a.mapped) || (forall a :: a in alts ==> !a.mapped)
  { }

  lemma SizesAlike(variants: seq<Variant>, alts: seq<Alt>, channel: nat)
    ensures (variants != []
             && forall v :: v in variants ==> Size(alts, channel, v) == Size(alts, channel, variants[0]))
       <==> variants != []
            && forall v, w :: v in variants && w in variants ==>
                 var m, n := |NamesOf(OnChannel(alts, channel), v.id)|, |NamesOf(OnChannel(alts, channel), w.id)|;
                 m == n || m + n == 1
  {
    if variants != [] && forall v :: v in variants ==> Size(alts, channel, v) == Size(alts, channel, variants[0]) {
      forall v, w | v in variants && w in variants ensures Size(alts, channel, v) == Size(alts, channel, w) { }
    }
    if variants != [] { assert variants[0] in variants; }
  }

  /** Filling appends one SKU per variant: its own code, on this store, for this variant. */
  lemma {:induction false} FilledAdds(vs: seq<Variant>, pool: Pool, channel: nat, taken: set<string>)
    requires Filled(vs, pool, channel, taken).Ok?
    ensures var p, n := Filled(vs, pool, channel, taken).value, |pool.alts|;
            && |p.alts| == n + |vs| && p.alts[..n] == pool.alts && p.next == pool.next + |vs|
            && forall i :: 0 <= i < |vs| ==>
                 p.alts[n + i] == Alt(pool.next + i, vs[i].code, 0, vs[i].id, channel, false)
    decreases |vs|
  {
    if vs != [] { FilledAdds(vs[..|vs| - 1], pool, channel, taken); }
  }

  /** The codes are not on the store yet, and no two of them are the same. */
  ghost predicate FreshCodes(vs: seq<Variant>, pool: Pool, channel: nat, taken: set<string>) {
    && (forall i :: 0 <= i < |vs| ==> FreshCode(vs[i].code, pool, channel, taken))
    && (forall i, j :: 0 <= i < j < |vs| ==> vs[i].code != vs[j].code)
  }

  predicate FreshCode(code: string, pool: Pool, channel: nat, taken: set<string>) {
    code !in taken && forall a :: a in pool.alts && a.channel == channel ==> a.name != code
  }

  lemma FreshCodesSnoc(front: seq<Variant>, v: Variant, pool: Pool, channel: nat, taken: set<string>)
    ensures FreshCodes(front + [v], pool, channel, taken)
       <==> FreshCodes(front, pool, channel, taken) && FreshCode(v.code, pool, channel, taken)
            && forall i :: 0 <= i < |front| ==> front[i].code != v.code
  {
    var vs := front + [v];
    assert vs[|front|] == v && forall i :: 0 <= i < |front| ==> vs[i] == front[i];
  }

  /** Filling is refused exactly if a code is on the store already, or two of the variants have the same. */
  lemma {:induction false} FilledIff(vs: seq<Variant>, pool: Pool, channel: nat, taken: set<string>)
    ensures Filled(vs, pool, channel, taken).Ok? <==> FreshCodes(vs, pool, channel, taken)
    decreases |vs|
  {
    if vs != [] {
      var front, v := vs[..|vs| - 1], vs[|vs| - 1];
      assert vs == front + [v];
      FilledIff(front, pool, channel, taken);
      FreshCodesSnoc(front, v, pool, channel, taken);
      if Filled(front, pool, channel, taken).Ok? {
        FilledAdds(front, pool, channel, taken);
        TakenIff(front, pool, Filled(front, pool, channel, taken).value, channel, taken, v.code);
      }
    }
  }

  lemma TakenIff(front: seq<Variant>, pool: Pool, p: Pool, channel: nat, taken: set<string>, name: string)
    requires |p.alts| == |pool.alts| + |front| && p.alts[..|pool.alts|] == pool.alts
    requires forall i :: 0 <= i < |front| ==>
               p.alts[|pool.alts| + i].name == front[i].code && p.alts[|pool.alts| + i].channel == channel
    ensures NameTaken(p, channel, taken, name) <==>
            || name in taken
            || (exists a :: a in pool.alts && a.channel == channel && a.name == name)
            || (exists i :: 0 <= i < |front| && front[i].code == name)
  {
    var n := |pool.alts|;
    assert p.alts == pool.alts + p.alts[n..];
    if a :| a in p.alts && a.channel == channel && a.name == name {
      var k :| 0 <= k < |p.alts| && p.alts[k] == a;
      if k < n {
        assert p.alts[..n][k] == a;
      } else {
        assert front[k - n].code == name;
      }
    }
    if i :| 0 <= i < |front| && front[i].code == name { assert p.alts[n + i] in p.alts; }
  }

  /** SKUs are taken by product, then by sequence, then by age. */
  lemma SortedByKey(s: seq<Alt>, i: nat, j: nat)
    requires i < j < |s|
    ensures |Sorted(s)| == |s|
    ensures var a, b := Sorted(s)[i], Sorted(s)[j];
            a.product < b.product
            || (a.product == b.product && (a.sequence < b.sequence || (a.sequence == b.sequence && a.id <= b.id)))
  {
    SortedFacts(s, 0);
    assert |multiset(Sorted(s))| == |Sorted(s)| && |multiset(s)| == |s|;
    assert !Less(Sorted(s)[j], Sorted(s)[i]);
  }
}
