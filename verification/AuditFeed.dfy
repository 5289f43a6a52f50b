/**
  The inventory feed driven by the audit table (multichannel_fulfillment/models/stock_move.py and
  hooks.py): a trigger notes every product whose stock changes, a sync reads the notes, empties the
  table and hands the products to the channels.
*/
module AuditFeed {
  import opened Wrappers
  import KitClosure

  /** Arguments of `inventory_sync`; an empty product list is the same as none. */
  datatype Call = Call(channel: Option<nat>, allRecords: bool, products: seq<nat>)

  /** One step of a run; `enabled` are the channels found active and enabled at that moment. */
  datatype Event = Changed(product: nat) | Synced(call: Call, enabled: seq<nat>)

  /** What the outside world saw, in order. */
  datatype Entry = Noted(product: nat) | Handed(channel: nat, products: set<nat>, bulk: bool)

  /** Bills of materials, and the products of the tracked variants of each channel. */
  datatype Shop = Shop(db: KitClosure.Database, mapped: map<nat, set<nat>>)

  datatype State = State(table: set<nat>, log: seq<Entry>)

  function SetOf(s: seq<nat>): set<nat> { set x | x in s }

  function Selected(table: set<nat>, products: seq<nat>): set<nat> {
    if products == [] then table else table * SetOf(products)
  }

  /** The products handed over: the selected rows and every kit built from them. */
  function ToSync(shop: Shop, table: set<nat>, products: seq<nat>): set<nat> {
    KitClosure.ProductsToSync(shop.db, Selected(table, products))
  }

  function Targets(call: Call, enabled: seq<nat>): seq<nat> {
    if call.channel.Some? then [call.channel.value] else enabled
  }

  function HandOver(channels: seq<nat>, products: set<nat>, bulk: bool): seq<Entry> {
    if channels == [] then []
    else HandOver(channels[..|channels| - 1], products, bulk) + [Handed(channels[|channels| - 1], products, bulk)]
  }

  function Entries(shop: Shop, table: set<nat>, call: Call, enabled: seq<nat>): seq<Entry> {
    var products := ToSync(shop, table, call.products);
    if products != {} || call.allRecords then HandOver(Targets(call, enabled), products, call.allRecords) else []
  }

  function Step(shop: Shop, s: State, e: Event): State {
    match e
    case Changed(p) => State(s.table + {p}, s.log + [Noted(p)])
    case Synced(call, enabled) =>
      State(if call.allRecords then s.table else {}, s.log + Entries(shop, s.table, call, enabled))
  }

  function Run(shop: Shop, es: seq<Event>): State {
    if es == [] then State({}, []) else Step(shop, Run(shop, es[..|es| - 1]), es[|es| - 1])
  }

  /** The table, the trigger that fills it and the sync that empties it. */
  class Feed {
    const shop: Shop
    var rows: seq<nat>
    var log: seq<Entry>

    ghost predicate Valid()
      reads this
    {
      forall i, j :: 0 <= i < j < |rows| ==> rows[i] != rows[j]
    }

    function Current(): State
      reads this
    {
      State(SetOf(rows), log)
    }

    constructor (shop: Shop)
      ensures Valid() && this.shop == shop && Current() == Run(shop, [])
    {
      this.shop := shop;
      rows, log := [], [];
      new;
      assert SetOf([]) == {};
    }

    /** The trigger on `stock_quant`: one row per product, however often it changes. */
    method StockChanged(p: nat)
      requires Valid()
      modifies this
      ensures Valid()
      ensures Current() == Step(shop, old(Current()), Changed(p))
    {
      if p !in rows {
        rows := rows + [p];
      }
      log := log + [Noted(p)];
      assert SetOf(rows) == SetOf(old(rows)) + {p};
    }

    /** `_get_products_to_sync_inventory`: reads the rows, and empties the table unless run manually. */
    method TakeProducts(products: seq<nat>, runManual: bool) returns (found: set<nat>)
      requires Valid()
      modifies this`rows
      ensures Valid()
      ensures found == ToSync(shop, SetOf(old(rows)), products)
      ensures rows == if runManual then old(rows) else []
    {
      var chosen: set<nat> := {};
      var i := 0;
      while i < |rows|
        invariant i <= |rows| && rows == old(rows)
        invariant chosen == Selected(SetOf(rows[..i]), products)
      {
        if products == [] || rows[i] in products {
          chosen := chosen + {rows[i]};
        }
        assert SetOf(rows[..i + 1]) == SetOf(rows[..i]) + {rows[i]};
        i := i + 1;
      }
      assert rows[..|rows|] == rows;
      found := KitClosure.ProductsToSync(shop.db, chosen);
      if !runManual {
        rows := [];
      }
    }

    /** One job per channel. */
    method HandToAll(channels: seq<nat>, products: set<nat>, bulk: bool)
      modifies this`log
      ensures log == old(log) + HandOver(channels, products, bulk)
    {
      assert old(log) + [] == old(log);
      for i := 0 to |channels|
        invariant log == old(log) + HandOver(channels[..i], products, bulk)
      {
        assert channels[..i + 1][..i] == channels[..i];
        log := log + [Handed(channels[i], products, bulk)];
      }
      assert channels[..|channels|] == channels;
    }

    method InventorySync(call: Call, enabled: seq<nat>)
      requires Valid()
      modifies this
      ensures Valid()
      ensures Current() == Step(shop, old(Current()), Synced(call, enabled))
    {
      var channels := if call.channel.Some? then [call.channel.value] else enabled;
      var products := TakeProducts(call.products, call.allRecords);
      if products != {} || call.allRecords {
        HandToAll(channels, products, call.allRecords);
      }
      assert SetOf([]) == {};
    }
  }

  /** What a channel is given by one export: in bulk mode also everything mapped to it. */
  function Given(shop: Shop, e: Entry): set<nat>
    requires e.Handed?
  {
    e.products + if e.bulk && e.channel in shop.mapped then shop.mapped[e.channel] else {}
  }

  /** `p` and every kit built from it. */
  function WithKits(shop: Shop, p: nat): set<nat> { KitClosure.ProductsToSync(shop.db, {p}) }

  /** Since the last change of `p`, channel `c` was handed `p` together with every kit built from it. */
  predicate UpToDate(shop: Shop, log: seq<Entry>, c: nat, p: nat) {
    log != [] &&
    var last := log[|log| - 1];
    if last == Noted(p) then false
    else (last.Handed? && last.channel == c && WithKits(shop, p) <= Given(shop, last))
         || UpToDate(shop, log[..|log| - 1], c, p)
  }

  predicate EverChanged(es: seq<Event>, p: nat) {
    Changed(p) in es
  }

  /** The channels enabled when the note about the last change of `p` was thrown away; none while it is kept. */
  function Due(shop: Shop, es: seq<Event>, p: nat): set<nat> {
    if es == [] then {}
    else
      var front := es[..|es| - 1];
      match es[|es| - 1]
      case Changed(q) => if q == p then {} else Due(shop, front, p)
      case Synced(call, enabled) =>
        if !call.allRecords && p in Run(shop, front).table then SetOf(enabled) else Due(shop, front, p)
  }

  /** No change is forgotten: every channel that was enabled when the note went away has the product. */
  ghost predicate NothingLost(shop: Shop, es: seq<Event>) {
    forall p, c :: c in Due(shop, es, p) ==> UpToDate(shop, Run(shop, es).log, c, p)
  }

  /**
    What a caller of `inventory_sync` can check: it passes `all_records`, or no product list and no
    channel that leaves another enabled channel out.
  */
  predicate Careful(call: Call, enabled: seq<nat>) {
    call.allRecords || enabled == []
    || (call.products == [] && (call.channel.None? || forall c :: c in enabled ==> c == call.channel.value))
  }

  lemma HandOverReaches(shop: Shop, channels: seq<nat>, products: set<nat>, bulk: bool, log: seq<Entry>, c: nat, p: nat)
    requires c in channels && WithKits(shop, p) <= products
    ensures UpToDate(shop, log + HandOver(channels, products, bulk), c, p)
  {
    var front, last := channels[..|channels| - 1], channels[|channels| - 1];
    var all := log + HandOver(channels, products, bulk);
    assert all[..|all| - 1] == log + HandOver(front, products, bulk);
    if last != c { HandOverReaches(shop, front, products, bulk, log, c, p); }
  }

  /** Handing products over never makes a channel out of date, and does not help the channels left out. */
  lemma {:induction false} HandOverKeeps(shop: Shop, channels: seq<nat>, products: set<nat>, bulk: bool,
                                         log: seq<Entry>,
                                         c: nat, p: nat)
    ensures UpToDate(shop, log, c, p) ==> UpToDate(shop, log + HandOver(channels, products, bulk), c, p)
    ensures c !in channels && UpToDate(shop, log + HandOver(channels, products, bulk), c, p)
            ==> UpToDate(shop, log, c, p)
  {
    if channels == [] {
      assert log + [] == log;
    } else {
      var all := log + HandOver(channels, products, bulk);
      assert all[..|all| - 1] == log + HandOver(channels[..|channels| - 1], products, bulk);
      HandOverKeeps(shop, channels[..|channels| - 1], products, bulk, log, c, p);
    }
  }

  lemma NoteKeeps(shop: Shop, log: seq<Entry>, q: nat, c: nat, p: nat)
    ensures UpToDate(shop, log + [Noted(q)], c, p) == (q != p && UpToDate(shop, log, c, p))
  {
    assert (log + [Noted(q)])[..|log|] == log;
  }

  lemma KitsCovered(shop: Shop, table: set<nat>, p: nat)
    requires p in table
    ensures WithKits(shop, p) <= ToSync(shop, table, []) && p in WithKits(shop, p)
  {
    KitClosure.ExpansionIsClosure(shop.db, {p}, table);
    KitClosure.LeastClosedSet(shop.db, {p});
  }

  lemma RunSnoc(shop: Shop, es: seq<Event>, e: Event, p: nat)
    ensures Run(shop, es + [e]) == Step(shop, Run(shop, es), e)
    ensures Due(shop, es + [e], p) ==
            match e
            case Changed(q) => if q == p then {} else Due(shop, es, p)
            case Synced(call, enabled) =>
              if !call.allRecords && p in Run(shop, es).table then SetOf(enabled) else Due(shop, es, p)
  {
    assert (es + [e])[..|es|] == es;
  }

  /** A changed product is noted in the table until a sync that is not a bulk sync throws the note away. */
  lemma {:induction false} NotedOrSynced(shop: Shop, es: seq<Event>, p: nat)
    ensures p in Run(shop, es).table ==> EverChanged(es, p) && Due(shop, es, p) == {}
    ensures EverChanged(es, p) && p !in Run(shop, es).table ==>
              exists i :: 0 <= i < |es| && es[i].Synced? && !es[i].call.allRecords
                && Due(shop, es, p) == SetOf(es[i].enabled)
  {
    if es != [] {
      var front, last := es[..|es| - 1], es[|es| - 1];
      NotedOrSynced(shop, front, p);
      assert es == front + [last];
      assert EverChanged(es, p) <==> EverChanged(front, p) || last == Changed(p);
      if EverChanged(es, p) && p !in Run(shop, es).table {
        if p in Run(shop, front).table {
          assert es[|es| - 1].Synced? && Due(shop, es, p) == SetOf(last.enabled);
        } else {
          var i :| 0 <= i < |front| && front[i].Synced? && !front[i].call.allRecords
            && Due(shop, front, p) == SetOf(front[i].enabled);
          assert es[i] == front[i];
        }
      }
    }
  }

  /** A careful step loses nothing, whatever happened before. */
  lemma CarefulStep(shop: Shop, es: seq<Event>, e: Event)
    requires NothingLost(shop, es)
    requires e.Synced? ==> Careful(e.call, e.enabled)
    ensures NothingLost(shop, es + [e])
  {
    var before := Run(shop, es);
    forall p, c | c in Due(shop, es + [e], p) ensures UpToDate(shop, Run(shop, es + [e]).log, c, p) {
      RunSnoc(shop, es, e, p);
      match e
      case Changed(q) => NoteKeeps(shop, before.log, q, c, p);
      case Synced(call, enabled) =>
        var products := ToSync(shop, before.table, call.products);
        if !call.allRecords && p in before.table {
          KitsCovered(shop, before.table, p);
          HandOverReaches(shop, Targets(call, enabled), products, false, before.log, c, p);
        } else {
          HandOverKeeps(shop, Targets(call, enabled), products, call.allRecords, before.log, c, p);
          assert before.log + [] == before.log;
        }
    }
  }

  /**
    Over every run whose syncs are careful, every product that ever changed is still noted in the
    table, or was handed with all its kits, since its last change, to every channel enabled when its
    note was removed.
  */
  lemma {:induction false} CarefulRun(shop: Shop, es: seq<Event>)
    requires forall i :: 0 <= i < |es| && es[i].Synced? ==> Careful(es[i].call, es[i].enabled)
    ensures NothingLost(shop, es)
    ensures forall p :: EverChanged(es, p) ==>
              p in Run(shop, es).table || forall c :: c in Due(shop, es, p) ==> UpToDate(shop, Run(shop, es).log, c, p)
  {
    if es != [] {
      var front := es[..|es| - 1];
      assert forall i :: 0 <= i < |front| ==> front[i] == es[i];
      CarefulRun(shop, front);
      assert es == front + [es[|es| - 1]];
      CarefulStep(shop, front, es[|es| - 1]);
    }
  }

  function Above(products: seq<nat>): (p: nat)
    ensures forall i :: 0 <= i < |products| ==> products[i] < p
  {
    if products == [] then 0
    else
      var q := Above(products[..|products| - 1]);
      if products[|products| - 1] < q then q else products[|products| - 1] + 1
  }

  ghost predicate KeepsEverything(shop: Shop, call: Call, enabled: seq<nat>) {
    forall es :: NothingLost(shop, es) ==> NothingLost(shop, es + [Synced(call, enabled)])
  }

  lemma NothingYet(shop: Shop, es: seq<Event>)
    requires |es| == 0
    ensures Run(shop, es) == State({}, []) && NothingLost(shop, es)
  { }

  lemma JustChanged(shop: Shop, es: seq<Event>, p: nat, c: nat)
    ensures p in Run(shop, es + [Changed(p)]).table
    ensures !UpToDate(shop, Run(shop, es + [Changed(p)]).log, c, p)
  {
    RunSnoc(shop, es, Changed(p), p);
    NoteKeeps(shop, Run(shop, es).log, p, c, p);
  }

  /** After a change of `p`, a call that hands channel `c` nothing for `p` loses the change. */
  lemma LeftOut(shop: Shop, es: seq<Event>, call: Call, enabled: seq<nat>, p: nat, c: nat)
    requires !call.allRecords && c in enabled
    requires ToSync(shop, Run(shop, es + [Changed(p)]).table, call.products) == {} || c !in Targets(call, enabled)
    ensures !NothingLost(shop, (es + [Changed(p)]) + [Synced(call, enabled)])
  {
    var before := es + [Changed(p)];
    var s := Run(shop, before);
    JustChanged(shop, es, p, c);
    RunSnoc(shop, before, Synced(call, enabled), p);
    HandOverKeeps(shop, Targets(call, enabled), ToSync(shop, s.table, call.products), false, s.log, c, p);
    assert s.log + [] == s.log;
    assert c in Due(shop, before + [Synced(call, enabled)], p);
    assert !UpToDate(shop, Run(shop, before + [Synced(call, enabled)]).log, c, p);
  }

  /** A call that is not careful loses a change: that of a product that changed just before it. */
  lemma CarelessLoses(shop: Shop, call: Call, enabled: seq<nat>)
    requires !Careful(call, enabled)
    ensures !KeepsEverything(shop, call, enabled)
  {
    var none: seq<Event> := [];
    var p := Above(call.products);
    NothingYet(shop, none);
    CarefulStep(shop, none, Changed(p));
    RunSnoc(shop, none, Changed(p), p);
    if call.products == [] {
      var c :| c in enabled && c != call.channel.value;
      LeftOut(shop, none, call, enabled, p, c);
    } else {
      assert Selected(Run(shop, none + [Changed(p)]).table, call.products) == {};
      LeftOut(shop, none, call, enabled, p, enabled[0]);
    }
  }

  /**
    Exactly when a call of `inventory_sync` keeps the promise in every history. The syncs started for
    one listing, or to repeat a failed export, pass a product list and one channel without
    `all_records`; they are careful only when no channel is enabled.
  */
  lemma KeepsIffCareful(shop: Shop, call: Call, enabled: seq<nat>)
    ensures KeepsEverything(shop, call, enabled) <==> Careful(call, enabled)
  {
    if Careful(call, enabled) {
      forall es | NothingLost(shop, es) ensures NothingLost(shop, es + [Synced(call, enabled)]) {
        CarefulStep(shop, es, Synced(call, enabled));
      }
    } else {
      CarelessLoses(shop, call, enabled);
    }
  }

  /**
    What one listed sync drops: the note about a pending product outside the closure of the listed
    ones goes away, and no channel is any more up to date than before.
  */
  lemma ListedSyncDrops(shop: Shop, es: seq<Event>, call: Call, enabled: seq<nat>, p: nat, c: nat)
    requires !call.allRecords && p in Run(shop, es).table
    requires p !in ToSync(shop, Run(shop, es).table, call.products)
    ensures p !in Run(shop, es + [Synced(call, enabled)]).table
    ensures UpToDate(shop, Run(shop, es + [Synced(call, enabled)]).log, c, p) == UpToDate(shop, Run(shop, es).log, c, p)
  {
    var before := Run(shop, es);
    RunSnoc(shop, es, Synced(call, enabled), p);
    KitClosure.LeastClosedSet(shop.db, {p});
    var products := ToSync(shop, before.table, call.products);
    UselessHandOver(shop, Targets(call, enabled), products, before.log, c, p);
    assert before.log + [] == before.log;
  }

  lemma {:induction false} UselessHandOver(shop: Shop, channels: seq<nat>, products: set<nat>, log: seq<Entry>,
                                           c: nat, p: nat)
    requires !(WithKits(shop, p) <= products)
    ensures UpToDate(shop, log + HandOver(channels, products, false), c, p) == UpToDate(shop, log, c, p)
  {
    if channels == [] {
      assert log + [] == log;
    } else {
      var all := log + HandOver(channels, products, false);
      assert all[..|all| - 1] == log + HandOver(channels[..|channels| - 1], products, false);
      UselessHandOver(shop, channels[..|channels| - 1], products, log, c, p);
    }
  }

  // ---- what one sync hands over ----

  lemma {:induction false} HandOverAt(channels: seq<nat>, products: set<nat>, bulk: bool)
    ensures |HandOver(channels, products, bulk)| == |channels|
    ensures forall i :: 0 <= i < |channels| ==>
              HandOver(channels, products, bulk)[i] == Handed(channels[i], products, bulk)
    decreases |channels|
  {
    if channels != [] { HandOverAt(channels[..|channels| - 1], products, bulk); }
  }

  /** The products of one sync are those noted (and listed, if a list is given), and the kits built from them. */
  ghost predicate IsSelection(shop: Shop, table: set<nat>, listed: seq<nat>, products: set<nat>) {
    forall q :: q in products <==> exists p :: p in table && (listed == [] || p in listed) && q in WithKits(shop, p)
  }

  /**
    A sync hands exactly the selected products to the channel it names, or to every enabled channel, once
    each and in order; it hands over nothing when nothing is selected, unless it is a bulk sync. The table
    is emptied, unless it is a bulk sync.
  */
  lemma SyncHands(shop: Shop, s: State, call: Call, enabled: seq<nat>) returns (products: set<nat>)
    ensures IsSelection(shop, s.table, call.products, products)
    ensures var after := Step(shop, s, Synced(call, enabled));
            && after.table == (if call.allRecords then s.table else {})
            && |after.log| == |s.log| + (if products == {} && !call.allRecords then 0
                                         else if call.channel.Some? then 1 else |enabled|)
            && after.log[..|s.log|] == s.log
            && forall i :: |s.log| <= i < |after.log| ==>
                 after.log[i] == Handed(if call.channel.Some? then call.channel.value else enabled[i - |s.log|],
                                        products, call.allRecords)
  {
    products := ToSync(shop, s.table, call.products);
    HandOverAt(Targets(call, enabled), products, call.allRecords);
    forall q ensures q in products <==>
                     exists p :: p in s.table && (call.products == [] || p in call.products) && q in WithKits(shop, p)
    {
      KitClosure.SyncedByOne(shop.db, Selected(s.table, call.products), q);
    }
  }

  /** After a bulk sync every target was handed all that is mapped to it, and the table still has every note. */
  lemma BulkHandsEverything(shop: Shop, s: State, call: Call, enabled: seq<nat>, c: nat)
    requires call.allRecords && if call.channel.Some? then call.channel.value == c else c in enabled
    ensures var after := Step(shop, s, Synced(call, enabled));
            && after.table == s.table
            && exists i :: && |s.log| <= i < |after.log| && after.log[i].Handed? && after.log[i].channel == c
                           && (c in shop.mapped ==> shop.mapped[c] <= Given(shop, after.log[i]))
                           && forall p :: p in s.table && (call.products == [] || p in call.products) ==>
                                WithKits(shop, p) <= Given(shop, after.log[i])
  {
    var products := SyncHands(shop, s, call, enabled);
    var after := Step(shop, s, Synced(call, enabled));
    var k := 0;
    if call.channel.None? { k :| 0 <= k < |enabled| && enabled[k] == c; }
    var i := |s.log| + k;
    assert after.log[i] == Handed(c, products, true);
    forall p | p in s.table && (call.products == [] || p in call.products)
      ensures WithKits(shop, p) <= Given(shop, after.log[i])
    {
      forall q | q in WithKits(shop, p) ensures q in products { }
    }
  }
}
