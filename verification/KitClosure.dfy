/**
  Products whose stock has to be sent because a component changed
  (multichannel_fulfillment_mrp/models/stock_move.py): the recursive query that walks from
  components to the phantom kits built from them, to any depth.
*/
module KitClosure {

  /** A bill-of-materials line: `component` is part of the bill of template `template`. */
  datatype BomLine = BomLine(component: nat, template: nat, phantom: bool)

  /** `templates` maps every product to its template. */
  datatype Database = Database(lines: set<BomLine>, templates: map<nat, nat>)

  /** The joins of one pass: variants of templates with a phantom bill that has a component in `s`. */
  function KitsWith(db: Database, s: set<nat>): set<nat> {
    set p, l | l in db.lines && l.phantom && l.component in s && p in db.templates && db.templates[p] == l.template :: p
  }

  /** The recursive part of the query: `UNION` keeps only rows not seen before as the next working table. */
  function KitTable(db: Database, seen: set<nat>, working: set<nat>): set<nat>
    requires working <= seen <= db.templates.Keys
    decreases |db.templates.Keys - seen|, |working|
  {
    var novel := KitsWith(db, working) - seen;
    if novel == {} then seen
    else
      assert db.templates.Keys - (seen + novel) < db.templates.Keys - seen;
      SmallerSet(db.templates.Keys - (seen + novel), db.templates.Keys - seen);
      KitTable(db, seen + novel, novel)
  }

  lemma SmallerSet(a: set<nat>, b: set<nat>)
    requires a < b
    ensures |a| < |b|
  {
    var x :| x in b && x !in a;
    assert a <= b - {x};
    SubsetSize(a, b - {x});
  }

  lemma SubsetSize(a: set<nat>, b: set<nat>)
    requires a <= b
    ensures |a| <= |b|
  {
    if a != {} {
      var x :| x in a;
      SubsetSize(a - {x}, b - {x});
    }
  }

  /** `_get_products_to_sync_inventory`, given the products with a stock change. */
  function ProductsToSync(db: Database, changed: set<nat>): set<nat> {
    if changed == {} then {}
    else KitTable(db, KitsWith(db, changed), KitsWith(db, changed)) + changed
  }

  /** Every phantom kit with a component in the set is in the set. */
  ghost predicate Closed(db: Database, s: set<nat>) {
    KitsWith(db, s) <= s
  }

  lemma KitsWithUnion(db: Database, s: set<nat>, t: set<nat>)
    ensures KitsWith(db, s + t) == KitsWith(db, s) + KitsWith(db, t)
  { }

  lemma KitsOfSeen(db: Database, seen: set<nat>, working: set<nat>)
    requires working <= seen && KitsWith(db, seen - working) <= seen
    ensures KitsWith(db, seen) <= seen + (KitsWith(db, working) - seen)
  {
    assert seen == (seen - working) + working;
    KitsWithUnion(db, seen - working, working);
  }

  /** What was already expanded is closed up to the working table. */
  lemma {:induction false} KitTableCloses(db: Database, seen: set<nat>, working: set<nat>)
    requires working <= seen <= db.templates.Keys
    requires KitsWith(db, seen - working) <= seen
    ensures seen <= KitTable(db, seen, working) && Closed(db, KitTable(db, seen, working))
    decreases |db.templates.Keys - seen|, |working|
  {
    var novel := KitsWith(db, working) - seen;
    KitsOfSeen(db, seen, working);
    if novel != {} {
      SmallerSet(db.templates.Keys - (seen + novel), db.templates.Keys - seen);
      assert (seen + novel) - novel == seen;
      KitTableCloses(db, seen + novel, novel);
    }
  }

  /** Nothing is added that a closed set containing the start could do without. */
  lemma {:induction false} KitTableLeast(db: Database, seen: set<nat>, working: set<nat>, s: set<nat>)
    requires working <= seen <= db.templates.Keys
    requires seen <= s && Closed(db, s)
    ensures KitTable(db, seen, working) <= s
    decreases |db.templates.Keys - seen|, |working|
  {
    var novel := KitsWith(db, working) - seen;
    assert s == s + working;
    KitsWithUnion(db, s, working);
    if novel != {} {
      SmallerSet(db.templates.Keys - (seen + novel), db.templates.Keys - seen);
      KitTableLeast(db, seen + novel, novel, s);
    }
  }

  /**
    For every database, cyclic bills included: the products to sync are the least set that contains
    the changed products and is closed under "phantom kit with a component in the set".
  */
  lemma LeastClosedSet(db: Database, changed: set<nat>)
    ensures changed <= ProductsToSync(db, changed)
    ensures Closed(db, ProductsToSync(db, changed))
    ensures forall s :: changed <= s && Closed(db, s) ==> ProductsToSync(db, changed) <= s
  {
    var first := KitsWith(db, changed);
    if changed != {} {
      assert first - first == {} && KitsWith(db, {}) == {};
      KitTableCloses(db, first, first);
      KitsWithUnion(db, KitTable(db, first, first), changed);
      forall s | changed <= s && Closed(db, s) ensures ProductsToSync(db, changed) <= s {
        assert s == s + changed;
        KitsWithUnion(db, s, changed);
        KitTableLeast(db, first, first, s);
      }
    }
  }

  /** A phantom bill of the kit's template has `part` as a component. */
  predicate BuiltFrom(db: Database, kit: nat, part: nat) {
    kit in db.templates
    && exists l :: l in db.lines && l.phantom && l.component == part && l.template == db.templates[kit]
  }

  lemma BuiltFromIff(db: Database, kit: nat, part: nat)
    ensures BuiltFrom(db, kit, part) <==> kit in KitsWith(db, {part})
  { }

  /** A chain of kits: each contains the one before as a component. */
  ghost predicate IsChain(db: Database, p: seq<nat>) {
    |p| > 0 && forall k :: 0 < k < |p| ==> BuiltFrom(db, p[k], p[k - 1])
  }

  /** A product is synced whenever a chain of phantom kits, of any length, leads to it from a changed product. */
  lemma {:induction false} ChainSynced(db: Database, changed: set<nat>, p: seq<nat>)
    requires IsChain(db, p) && p[0] in changed
    ensures p[|p| - 1] in ProductsToSync(db, changed)
    decreases |p|
  {
    LeastClosedSet(db, changed);
    if |p| > 1 {
      var n := |p| - 1;
      ChainSynced(db, changed, p[..n]);
      var all := ProductsToSync(db, changed);
      assert all == all + {p[n - 1]};
      BuiltFromIff(db, p[n], p[n - 1]);
      KitsWithUnion(db, all, {p[n - 1]});
    }
  }

  ghost predicate LeadsTo(db: Database, changed: set<nat>, p: seq<nat>, q: nat) {
    IsChain(db, p) && p[0] in changed && p[|p| - 1] == q
  }

  /** Synced means changed, or reached from a changed product by a chain of phantom kits; nothing else. */
  lemma SyncedIffChain(db: Database, changed: set<nat>, q: nat)
    ensures q in ProductsToSync(db, changed) <==> exists p :: LeadsTo(db, changed, p, q)
  {
    LeastClosedSet(db, changed);
    if p :| LeadsTo(db, changed, p, q) { ChainSynced(db, changed, p); }
    var reached := set x | x in db.templates.Keys + changed && exists p :: LeadsTo(db, changed, p, x);
    forall x | x in changed ensures x in reached { assert LeadsTo(db, changed, [x], x); }
    forall k | k in KitsWith(db, reached) ensures k in reached {
      var l :| l in db.lines && l.phantom && l.component in reached && db.templates[k] == l.template;
      var p :| LeadsTo(db, changed, p, l.component);
      var longer := p + [k];
      assert IsChain(db, longer) by {
        forall i | 0 < i < |longer| ensures BuiltFrom(db, longer[i], longer[i - 1]) {
          if i < |p| { assert longer[i] == p[i] && longer[i - 1] == p[i - 1]; }
        }
      }
      assert LeadsTo(db, changed, longer, k);
    }
    assert Closed(db, reached);
  }

  /** What is synced for several products is what is synced for each of them. */
  lemma SyncedByOne(db: Database, changed: set<nat>, q: nat)
    ensures q in ProductsToSync(db, changed) <==> exists p :: p in changed && q in ProductsToSync(db, {p})
  {
    SyncedIffChain(db, changed, q);
    if q in ProductsToSync(db, changed) {
      var p :| LeadsTo(db, changed, p, q);
      assert LeadsTo(db, {p[0]}, p, q);
      SyncedIffChain(db, {p[0]}, q);
    }
    if p :| p in changed && q in ProductsToSync(db, {p}) {
      SyncedIffChain(db, {p}, q);
      var c :| LeadsTo(db, {p}, c, q);
      assert LeadsTo(db, changed, c, q);
    }
  }

  /** Expanding twice adds nothing; more changes never give fewer products. */
  lemma ExpansionIsClosure(db: Database, a: set<nat>, b: set<nat>)
    ensures ProductsToSync(db, ProductsToSync(db, a)) == ProductsToSync(db, a)
    ensures a <= b ==> ProductsToSync(db, a) <= ProductsToSync(db, b)
  {
    LeastClosedSet(db, a);
    LeastClosedSet(db, b);
    LeastClosedSet(db, ProductsToSync(db, a));
  }
}
