/**
  Export of variant options (multichannel_bigcommerce/utils/bigcommerce_product_helper.py,
  ProductAttributeMapping2ChannelExporter): plan deletions, creations and additions from the
  difference between the local attribute lines and the store's options, then execute the plan.
*/
module VariantOptions {

  /** A local attribute line with the names of its values. */
  datatype AttributeLine = AttributeLine(name: string, values: set<string>)

  /** An option on the store; `values` maps each label to the ID of its option value. */
  datatype RemoteOption = RemoteOption(name: string, values: map<string, nat>)

  type Options = map<nat, RemoteOption>

  ghost predicate UniqueNames(o: Options) {
    forall j, k :: j in o && k in o && o[j].name == o[k].name ==> j == k
  }

  ghost predicate UniqueValueIds(o: Options) {
    forall j, k, l, m :: j in o && k in o && l in o[j].values && m in o[k].values ==>
      o[j].values[l] == o[k].values[m] ==> j == k && l == m
  }

  /** IDs below `n` are taken. */
  ghost predicate IdsBelow(o: Options, n: nat) {
    && (forall k :: k in o ==> k < n)
    && (forall k, l :: k in o && l in o[k].values ==> o[k].values[l] < n)
  }

  ghost predicate UniqueLines(lines: seq<AttributeLine>) {
    forall i, j :: 0 <= i < j < |lines| ==> lines[i].name != lines[j].name
  }

  function SetOf<T(==)>(s: seq<T>): set<T> {
    set x | x in s
  }

  lemma SetOfAppend<T>(s: seq<T>, x: T)
    ensures SetOf(s + [x]) == SetOf(s) + {x}
  { }

  lemma SetOfSnoc<T>(s: seq<T>, i: nat)
    requires i < |s|
    ensures SetOf(s[..i + 1]) == SetOf(s[..i]) + {s[i]}
  {
    assert s[..i + 1] == s[..i] + [s[i]];
  }

  function Names(lines: seq<AttributeLine>): set<string> {
    set l | l in lines :: l.name
  }

  // ----- The attribute dictionary and the plan -----

  /** One option as a dictionary: its ID under `id`, then one key per label; a label `id` overwrites the first. */
  function Dict(k: nat, option: RemoteOption): map<string, nat> {
    map["id" := k] + option.values
  }

  function Attributes(o: Options): (a: map<string, map<string, nat>>)
    requires UniqueNames(o)
    ensures forall k :: k in o ==> o[k].name in a && a[o[k].name] == Dict(k, o[k])
    ensures forall n :: n in a ==> exists k :: k in o && o[k].name == n
  {
    map k | k in o :: o[k].name := Dict(k, o[k])
  }

  type Attrs = a: map<string, map<string, nat>> | forall n :: n in a ==> "id" in a[n] witness map[]

  function RemovedNames(a: Attrs, lines: seq<AttributeLine>): set<string> { a.Keys - Names(lines) }

  function KeysOf(a: Attrs, names: set<string>): set<nat>
    requires names <= a.Keys
  {
    set n | n in names :: a[n]["id"]
  }

  lemma KeysOfAdd(a: Attrs, names: set<string>, n: string)
    requires names <= a.Keys && n in a
    ensures KeysOf(a, names + {n}) == KeysOf(a, names) + {a[n]["id"]}
  { }

  function DeleteKeys(a: Attrs, lines: seq<AttributeLine>): set<nat> { KeysOf(a, RemovedNames(a, lines)) }

  function RemoteLabels(a: Attrs, name: string): set<string>
    requires name in a
  {
    a[name].Keys - {"id"}
  }

  function NewLabels(a: Attrs, l: AttributeLine): set<string>
    requires l.name in a
  {
    l.values - RemoteLabels(a, l.name)
  }

  function GoneLabels(a: Attrs, l: AttributeLine): set<string>
    requires l.name in a
  {
    RemoteLabels(a, l.name) - l.values
  }

  function Added(a: Attrs, lines: seq<AttributeLine>): set<AttributeLine> {
    set l | l in lines && l.name !in a
  }

  function UpdateOf(a: Attrs, l: AttributeLine): set<(nat, set<string>)> {
    if l.name in a && NewLabels(a, l) != {} then {(a[l.name]["id"], NewLabels(a, l))} else {}
  }

  function Updates(a: Attrs, lines: seq<AttributeLine>): set<(nat, set<string>)> {
    set l, u | l in lines && u in UpdateOf(a, l) :: u
  }

  function ValueKeys(a: Attrs, name: string, labels: set<string>): set<(nat, nat)>
    requires name in a && labels <= a[name].Keys
  {
    set v | v in labels :: (a[name]["id"], a[name][v])
  }

  lemma ValueKeysAdd(a: Attrs, name: string, labels: set<string>, v: string)
    requires name in a && labels <= a[name].Keys && v in a[name]
    ensures ValueKeys(a, name, labels + {v}) == ValueKeys(a, name, labels) + {(a[name]["id"], a[name][v])}
  { }

  function ValueDeletesOf(a: Attrs, l: AttributeLine): set<(nat, nat)> {
    if l.name in a then ValueKeys(a, l.name, GoneLabels(a, l)) else {}
  }

  function ValueDeletes(a: Attrs, lines: seq<AttributeLine>): set<(nat, nat)> {
    set l, d | l in lines && d in ValueDeletesOf(a, l) :: d
  }

  ghost predicate PlanEmpty(a: Attrs, lines: seq<AttributeLine>) {
    RemovedNames(a, lines) == {} && Added(a, lines) == {} && Updates(a, lines) == {} && ValueDeletes(a, lines) == {}
  }

  // ----- What the store does with each group of requests; a missing target is a 404 and changes nothing -----

  ghost predicate Deleted(o: Options, keys: set<nat>, o': Options) {
    o' == o - keys
  }

  ghost predicate NewOption(option: RemoteOption, k: nat, added: set<AttributeLine>, n: nat) {
    && k >= n && AttributeLine(option.name, option.values.Keys) in added
    && forall l :: l in option.values ==> option.values[l] >= n
  }

  ghost predicate HasNew(o: Options, o': Options, name: string) {
    exists k :: k in o' && k !in o && o'[k].name == name
  }

  /** New options get IDs from `n` on. */
  ghost predicate Created(o: Options, added: set<AttributeLine>, o': Options, n: nat) {
    && o.Keys <= o'.Keys
    && (forall k :: k in o ==> o'[k] == o[k])
    && (forall k :: k in o' && k !in o ==> NewOption(o'[k], k, added, n))
    && (forall l :: l in added ==> HasNew(o, o', l.name))
    && (forall j, k :: j in o' && k in o' && j !in o && k !in o ==> o'[j].name == o'[k].name ==> j == k)
  }

  function Requested(updates: set<(nat, set<string>)>, k: nat): set<string> {
    set u, l | u in updates && u.0 == k && l in u.1 :: l
  }

  ghost predicate Extended(option: RemoteOption, labels: set<string>, option': RemoteOption, n: nat) {
    && option'.name == option.name
    && option'.values.Keys == option.values.Keys + labels
    && (forall l :: l in option.values ==> option'.values[l] == option.values[l])
    && (forall l :: l in option'.values && l !in option.values ==> option'.values[l] >= n)
  }

  /** An update adds the labels it names, with value IDs from `n` on. */
  ghost predicate Updated(o: Options, updates: set<(nat, set<string>)>, o': Options, n: nat) {
    && o'.Keys == o.Keys
    && forall k :: k in o ==> Extended(o[k], Requested(updates, k), o'[k], n)
  }

  ghost predicate ValuesDeleted(o: Options, deletes: set<(nat, nat)>, o': Options) {
    && o'.Keys == o.Keys
    && forall k :: k in o ==>
         && o'[k].name == o[k].name
         && o'[k].values == map l | l in o[k].values && (k, o[k].values[l]) !in deletes :: o[k].values[l]
  }

  /** The four phases of `_do_export`, in the order of the action dictionary. */
  ghost predicate Executed(o: Options, lines: seq<AttributeLine>, n: nat, o1: Options, o2: Options, o3: Options,
                           o4: Options)
    requires UniqueNames(o)
  {
    var a := Attributes(o);
    && Deleted(o, DeleteKeys(a, lines), o1)
    && Created(o1, Added(a, lines), o2, n)
    && Updated(o2, Updates(a, lines), o3, n)
    && ValuesDeleted(o3, ValueDeletes(a, lines), o4)
  }

  // ----- The exporter -----

  lemma RequestedOne(key: nat, labels: set<string>, k: nat)
    ensures Requested({(key, labels)}, k) == if k == key then labels else {}
  { }

  lemma PutIsUpdate(o: Options, key: nat, labels: set<string>, o': Options, n: nat)
    requires o'.Keys == o.Keys
    requires forall k :: k in o && k != key ==> o'[k] == o[k]
    requires key in o ==> Extended(o[key], labels, o'[key], n)
    ensures Updated(o, {(key, labels)}, o', n)
  {
    forall k | k in o ensures Extended(o[k], Requested({(key, labels)}, k), o'[k], n) {
      RequestedOne(key, labels, k);
    }
  }

  /** The store: IDs are handed out from `next` on, never reused. */
  class Store {
    var options: Options
    var next: nat

    constructor (o: Options, n: nat)
      ensures options == o && next == n
    {
      options, next := o, n;
    }

    method DeleteOption(key: nat)
      modifies this`options
      ensures Deleted(old(options), {key}, options)
    {
      options := options - {key};
    }

    method NewValues(labels: set<string>) returns (values: map<string, nat>)
      modifies this`next
      ensures values.Keys == labels && next >= old(next)
      ensures forall l :: l in labels ==> values[l] >= old(next)
    {
      values := map[];
      var todo := labels;
      while todo != {}
        invariant todo <= labels && values.Keys == labels - todo && next >= old(next)
        invariant forall l :: l in values ==> values[l] >= old(next)
        decreases todo
      {
        var l :| l in todo;
        values := values[l := next];
        next := next + 1;
        todo := todo - {l};
      }
    }

    method PublishOption(line: AttributeLine)
      requires forall k :: k in options ==> k < next
      modifies this
      ensures Created(old(options), {line}, options, old(next))
      ensures next >= old(next) && forall k :: k in options ==> k < next
    {
      var k := next;
      next := next + 1;
      var values := NewValues(line.values);
      options := options[k := RemoteOption(line.name, values)];
      assert k in options && k !in old(options) && options[k].name == line.name;
    }

    method PutOption(key: nat, labels: set<string>)
      modifies this
      ensures Updated(old(options), {(key, labels)}, options, old(next)) && next >= old(next)
    {
      if key in options {
        var values := NewValues(labels - options[key].values.Keys);
        options := options[key := options[key].(values := values + options[key].values)];
      }
      PutIsUpdate(old(options), key, labels, options, old(next));
    }

    method DeleteValue(key: nat, value: nat)
      modifies this`options
      ensures ValuesDeleted(old(options), {(key, value)}, options)
    {
      if key in options {
        var values := options[key].values;
        options := options[key := options[key].(values := map l | l in values && values[l] != value :: values[l])];
      }
    }
  }

  class Exporter {
    const lines: seq<AttributeLine>
    const store: Store
    const attributes: Attrs
    var optionDeletes: seq<nat>
    var optionCreates: seq<AttributeLine>
    var optionUpdates: seq<(nat, set<string>)>
    var valueDeletes: seq<(nat, nat)>

    constructor (lines: seq<AttributeLine>, store: Store, attributes: Attrs)
      ensures this.lines == lines && this.store == store && this.attributes == attributes
      ensures optionDeletes == [] && optionCreates == [] && optionUpdates == [] && valueDeletes == []
    {
      this.lines, this.store, this.attributes := lines, store, attributes;
      optionDeletes, optionCreates, optionUpdates, valueDeletes := [], [], [], [];
    }

    /** `_build_bulk_actions_option_delete`. */
    method BuildOptionDeletes()
      modifies this`optionDeletes
      ensures SetOf(optionDeletes) == DeleteKeys(attributes, lines)
    {
      optionDeletes := [];
      var names, done := RemovedNames(attributes, lines), {};
      while names != {}
        invariant names + done == RemovedNames(attributes, lines)
        invariant SetOf(optionDeletes) == KeysOf(attributes, done)
        decreases names
      {
        var n :| n in names;
        SetOfAppend(optionDeletes, attributes[n]["id"]);
        optionDeletes := optionDeletes + [attributes[n]["id"]];
        KeysOfAdd(attributes, done, n);
        names, done := names - {n}, done + {n};
      }
    }

    /** `_build_bulk_actions_option_create`. */
    method BuildOptionCreates()
      modifies this`optionCreates
      ensures SetOf(optionCreates) == Added(attributes, lines)
      ensures UniqueLines(lines) ==> UniqueLines(optionCreates)
    {
      optionCreates := [];
      for i := 0 to |lines|
        invariant SetOf(optionCreates) == Added(attributes, lines[..i])
        invariant UniqueLines(lines) ==> UniqueLines(optionCreates)
      {
        Prefix(lines, i);
        SetOfAppend(optionCreates, lines[i]);
        if lines[i].name !in attributes {
          forall l | l in optionCreates ensures UniqueLines(lines) ==> l.name != lines[i].name {
            assert l in SetOf(optionCreates);
          }
          optionCreates := optionCreates + [lines[i]];
          assert Added(attributes, lines[..i + 1]) == Added(attributes, lines[..i]) + {lines[i]};
        } else {
          assert Added(attributes, lines[..i + 1]) == Added(attributes, lines[..i]);
        }
      }
      assert lines[..|lines|] == lines;
    }

    /** `_build_bulk_actions_option_update`. */
    method BuildOptionUpdates()
      modifies this`optionUpdates
      ensures SetOf(optionUpdates) == Updates(attributes, lines)
    {
      optionUpdates := [];
      for i := 0 to |lines|
        invariant SetOf(optionUpdates) == Updates(attributes, lines[..i])
      {
        Prefix(lines, i);
        var l := lines[i];
        if l.name in attributes && NewLabels(attributes, l) != {} {
          optionUpdates := optionUpdates + [(attributes[l.name]["id"], NewLabels(attributes, l))];
        }
        assert Updates(attributes, lines[..i + 1]) == Updates(attributes, lines[..i]) + UpdateOf(attributes, l);
      }
      assert lines[..|lines|] == lines;
    }

    /** `_build_bulk_actions_option_value_delete`. */
    method BuildValueDeletes()
      modifies this`valueDeletes
      ensures SetOf(valueDeletes) == ValueDeletes(attributes, lines)
    {
      valueDeletes := [];
      for i := 0 to |lines|
        invariant SetOf(valueDeletes) == ValueDeletes(attributes, lines[..i])
      {
        Prefix(lines, i);
        var l := lines[i];
        if l.name in attributes {
          var more := ValueDeletesOfLine(l);
          valueDeletes := valueDeletes + more;
        }
        assert ValueDeletes(attributes, lines[..i + 1])
          == ValueDeletes(attributes, lines[..i]) + ValueDeletesOf(attributes, l);
      }
      assert lines[..|lines|] == lines;
    }

    method ValueDeletesOfLine(l: AttributeLine) returns (r: seq<(nat, nat)>)
      requires l.name in attributes
      ensures SetOf(r) == ValueDeletesOf(attributes, l)
    {
      r := [];
      var a := attributes;
      var gone, done := GoneLabels(a, l), {};
      while gone != {}
        invariant gone + done == GoneLabels(a, l)
        invariant SetOf(r) == ValueKeys(a, l.name, done)
        decreases gone
      {
        var v :| v in gone;
        SetOfAppend(r, (a[l.name]["id"], a[l.name][v]));
        r := r + [(a[l.name]["id"], a[l.name][v])];
        ValueKeysAdd(a, l.name, done, v);
        gone, done := gone - {v}, done + {v};
      }
    }

    method DoDeletes()
      modifies store`options
      ensures Deleted(old(store.options), SetOf(optionDeletes), store.options)
    {
      for i := 0 to |optionDeletes|
        invariant Deleted(old(store.options), SetOf(optionDeletes[..i]), store.options)
      {
        SetOfSnoc(optionDeletes, i);
        store.DeleteOption(optionDeletes[i]);
      }
      assert optionDeletes[..|optionDeletes|] == optionDeletes;
    }

    method DoCreates(ghost n: nat)
      requires UniqueLines(optionCreates) && store.next >= n && forall k :: k in store.options ==> k < store.next
      modifies store
      ensures store.next >= n && Created(old(store.options), SetOf(optionCreates), store.options, n)
    {
      for i := 0 to |optionCreates|
        invariant store.next >= n && forall k :: k in store.options ==> k < store.next
        invariant Created(old(store.options), SetOf(optionCreates[..i]), store.options, n)
      {
        SetOfSnoc(optionCreates, i);
        ghost var before, m := store.options, store.next;
        store.PublishOption(optionCreates[i]);
        CreatedSnoc(old(store.options), SetOf(optionCreates[..i]), before, optionCreates[i], store.options, n, m);
      }
      assert optionCreates[..|optionCreates|] == optionCreates;
    }

    method DoUpdates(ghost n: nat)
      requires store.next >= n
      modifies store
      ensures Updated(old(store.options), SetOf(optionUpdates), store.options, n)
    {
      for i := 0 to |optionUpdates|
        invariant store.next >= n
        invariant Updated(old(store.options), SetOf(optionUpdates[..i]), store.options, n)
      {
        SetOfSnoc(optionUpdates, i);
        ghost var before, m := store.options, store.next;
        store.PutOption(optionUpdates[i].0, optionUpdates[i].1);
        UpdatedSnoc(old(store.options), SetOf(optionUpdates[..i]), before, optionUpdates[i], store.options, n, m);
      }
      assert optionUpdates[..|optionUpdates|] == optionUpdates;
    }

    method DoValueDeletes()
      modifies store`options
      ensures ValuesDeleted(old(store.options), SetOf(valueDeletes), store.options)
    {
      for i := 0 to |valueDeletes|
        invariant ValuesDeleted(old(store.options), SetOf(valueDeletes[..i]), store.options)
      {
        SetOfSnoc(valueDeletes, i);
        ghost var before := store.options;
        store.DeleteValue(valueDeletes[i].0, valueDeletes[i].1);
        ValuesDeletedSnoc(old(store.options), SetOf(valueDeletes[..i]), before, valueDeletes[i], store.options);
      }
      assert valueDeletes[..|valueDeletes|] == valueDeletes;
    }

    ghost predicate Planned()
      reads this
    {
      && SetOf(optionDeletes) == DeleteKeys(attributes, lines)
      && SetOf(optionCreates) == Added(attributes, lines) && UniqueLines(optionCreates)
      && SetOf(optionUpdates) == Updates(attributes, lines)
      && SetOf(valueDeletes) == ValueDeletes(attributes, lines)
    }

    /** `_build_bulk_actions`. */
    method BuildBulkActions()
      requires UniqueLines(lines)
      modifies this
      ensures Planned()
    {
      BuildOptionDeletes();
      BuildOptionCreates();
      BuildOptionUpdates();
      BuildValueDeletes();
    }

    /** `_do_export`: deletes, creates, updates, then value deletes. */
    method ExecuteBulkActions() returns (ghost o1: Options, ghost o2: Options, ghost o3: Options)
      requires forall k :: k in store.options ==> k < store.next
      requires UniqueLines(optionCreates)
      modifies store
      ensures Deleted(old(store.options), SetOf(optionDeletes), o1)
      ensures Created(o1, SetOf(optionCreates), o2, old(store.next))
      ensures Updated(o2, SetOf(optionUpdates), o3, old(store.next))
      ensures ValuesDeleted(o3, SetOf(valueDeletes), store.options)
    {
      ghost var n := store.next;
      DoDeletes();
      o1 := store.options;
      DoCreates(n);
      o2 := store.options;
      DoUpdates(n);
      o3 := store.options;
      DoValueDeletes();
    }

    /** `do_export`. */
    method DoExport() returns (ghost o1: Options, ghost o2: Options, ghost o3: Options)
      requires UniqueNames(store.options) && forall k :: k in store.options ==> k < store.next
      requires UniqueLines(lines) && attributes == Attributes(store.options)
      modifies this, store
      ensures Executed(old(store.options), lines, old(store.next), o1, o2, o3, store.options)
    {
      BuildBulkActions();
      o1, o2, o3 := ExecuteBulkActions();
      PhasesExecute(old(store.options), attributes, lines, old(store.next),
                    SetOf(optionDeletes), SetOf(optionCreates), SetOf(optionUpdates), SetOf(valueDeletes),
                    o1, o2, o3, store.options);
    }
  }

  lemma PhasesExecute(o: Options, a: Attrs, lines: seq<AttributeLine>, n: nat, d: set<nat>, c: set<AttributeLine>,
                      u: set<(nat, set<string>)>, v: set<(nat, nat)>, o1: Options, o2: Options, o3: Options,
                          o4: Options)
    requires UniqueNames(o) && a == Attributes(o)
    requires d == DeleteKeys(a, lines) && c == Added(a, lines) && u == Updates(a, lines) && v == ValueDeletes(a, lines)
    requires Deleted(o, d, o1) && Created(o1, c, o2, n) && Updated(o2, u, o3, n) && ValuesDeleted(o3, v, o4)
    ensures Executed(o, lines, n, o1, o2, o3, o4)
  { }

  // ----- One request after another adds up to a phase -----

  lemma Prefix<T>(s: seq<T>, i: nat)
    requires i < |s|
    ensures forall x :: x in s[..i + 1] <==> x in s[..i] || x == s[i]
    ensures forall x :: x in s[..i] ==> x in s
  {
    assert s[..i + 1] == s[..i] + [s[i]];
  }

  lemma CreatedSnoc(o: Options, done: set<AttributeLine>, mid: Options, line: AttributeLine, o': Options, n: nat,
                    m: nat)
    requires Created(o, done, mid, n) && m >= n && Created(mid, {line}, o', m)
    requires forall l :: l in done ==> l.name != line.name
    ensures Created(o, done + {line}, o', n)
  {
    forall k | k in o' && k !in o ensures NewOption(o'[k], k, done + {line}, n) {
      if k in mid { assert NewOption(mid[k], k, done, n); } else { assert NewOption(o'[k], k, {line}, m); }
    }
    forall l | l in done + {line} ensures HasNew(o, o', l.name) {
      if l in done {
        assert HasNew(o, mid, l.name);
        var k :| k in mid && k !in o && mid[k].name == l.name;
        assert k in o' && o'[k].name == l.name;
      } else {
        assert HasNew(mid, o', l.name);
      }
    }
    forall j, k | j in o' && k in o' && j !in o && k !in o && o'[j].name == o'[k].name ensures j == k {
      assert j in mid ==> NewOption(mid[j], j, done, n);
      assert k in mid ==> NewOption(mid[k], k, done, n);
      assert j !in mid ==> NewOption(o'[j], j, {line}, m);
      assert k !in mid ==> NewOption(o'[k], k, {line}, m);
    }
  }

  lemma UpdatedSnoc(o: Options, done: set<(nat, set<string>)>, mid: Options, u: (nat, set<string>), o': Options,
                    n: nat, m: nat)
    requires Updated(o, done, mid, n) && m >= n && Updated(mid, {u}, o', m)
    ensures Updated(o, done + {u}, o', n)
  {
    forall k | k in o ensures Extended(o[k], Requested(done + {u}, k), o'[k], n) {
      RequestedUnion(done, {u}, k);
      ExtendedTwice(o[k], Requested(done, k), mid[k], Requested({u}, k), o'[k], n, m);
    }
  }

  lemma RequestedUnion(a: set<(nat, set<string>)>, b: set<(nat, set<string>)>, k: nat)
    ensures Requested(a + b, k) == Requested(a, k) + Requested(b, k)
  { }

  lemma ExtendedTwice(o: RemoteOption, a: set<string>, mid: RemoteOption, b: set<string>, o': RemoteOption, n: nat,
                      m: nat)
    requires Extended(o, a, mid, n) && Extended(mid, b, o', m) && m >= n
    ensures Extended(o, a + b, o', n)
  { }

  lemma ValuesDeletedSnoc(o: Options, done: set<(nat, nat)>, mid: Options, d: (nat, nat), o': Options)
    requires ValuesDeleted(o, done, mid) && ValuesDeleted(mid, {d}, o')
    ensures ValuesDeleted(o, done + {d}, o')
  {
    forall k | k in o
      ensures o'[k].values == map l | l in o[k].values && (k, o[k].values[l]) !in done + {d} :: o[k].values[l]
    {
      assert mid[k].values == map l | l in o[k].values && (k, o[k].values[l]) !in done :: o[k].values[l];
    }
  }

  // ----- Convergence -----

  /** The store's options are the local attribute lines: same names, same labels. */
  ghost predicate Mirrors(o: Options, lines: seq<AttributeLine>) {
    && (forall k :: k in o ==> AttributeLine(o[k].name, o[k].values.Keys) in lines)
    && (forall l :: l in lines ==> exists k :: k in o && o[k].name == l.name)
  }

  /**
    What a caller can check beforehand: no local value and no label of a kept option is called
    `id`, and the IDs planned for deletion, where they exist, are those of the removed options.
  */
  ghost predicate Clean(o: Options, lines: seq<AttributeLine>)
    requires UniqueNames(o)
  {
    && (forall l :: l in lines ==> "id" !in l.values)
    && (forall k :: k in o && o[k].name in Names(lines) ==> "id" !in o[k].values)
    && Aimed(o, Names(lines), DeleteKeys(Attributes(o), lines))
  }

  /** The keys are, among the options, those of the names that are gone. */
  ghost predicate Aimed(o: Options, names: set<string>, keys: set<nat>) {
    forall k :: k in o ==> (k in keys <==> o[k].name !in names)
  }

  lemma LineOf(lines: seq<AttributeLine>, name: string) returns (l: AttributeLine)
    requires name in Names(lines)
    ensures l in lines && l.name == name
  {
    l :| l in lines && l.name == name;
  }

  lemma SameLine(lines: seq<AttributeLine>, l: AttributeLine, m: AttributeLine)
    requires UniqueLines(lines) && l in lines && m in lines && l.name == m.name
    ensures l == m
  {
    var i :| 0 <= i < |lines| && lines[i] == l;
    var j :| 0 <= j < |lines| && lines[j] == m;
  }

  /** Names after the export: surviving names and added names, each once. */
  lemma NamesAfter(o: Options, lines: seq<AttributeLine>, n: nat, o1: Options, o2: Options, o3: Options, o4: Options)
    requires UniqueNames(o) && IdsBelow(o, n) && UniqueLines(lines) && Executed(o, lines, n, o1, o2, o3, o4)
    ensures o4.Keys == o2.Keys && o1.Keys <= o2.Keys
    ensures forall k :: k in o2 ==> o4[k].name == o2[k].name
    ensures forall k :: k in o4 && k in o ==> k in o1 && o4[k].name == o[k].name
    ensures forall k :: k in o4 && k !in o1 ==> NewOption(o2[k], k, Added(Attributes(o), lines), n)
    ensures UniqueNames(o4)
  {
    var a := Attributes(o);
    forall k | k in o2 ensures o4[k].name == o2[k].name {
      assert Extended(o2[k], Requested(Updates(a, lines), k), o3[k], n);
    }
    forall k | k in o4 && k !in o1 ensures NewOption(o2[k], k, Added(a, lines), n) { }
    forall j, k | j in o4 && k in o4 && o4[j].name == o4[k].name ensures j == k {
      assert j in o1 ==> o[j].name in a;
      assert k in o1 ==> o[k].name in a;
    }
  }

  lemma LineDict(o: Options, lines: seq<AttributeLine>, k: nat, l: AttributeLine)
    requires UniqueNames(o) && k in o && l in lines && o[k].name == l.name
    ensures l.name in Names(lines) && l.name in Attributes(o) && Attributes(o)[l.name] == Dict(k, o[k])
    ensures "id" !in o[k].values ==>
              RemoteLabels(Attributes(o), l.name) == o[k].values.Keys && Attributes(o)[l.name]["id"] == k
  { }

  /** On a clean input the ID found under a line's name is that of its option. */
  lemma CleanKey(o: Options, lines: seq<AttributeLine>, m: AttributeLine) returns (j: nat)
    requires UniqueNames(o) && Clean(o, lines) && m in lines && m.name in Attributes(o)
    ensures j in o && o[j].name == m.name && Attributes(o)[m.name]["id"] == j
  {
    j :| j in o && o[j].name == m.name;
    LineDict(o, lines, j, m);
  }

  lemma UpdateKeys(a: Attrs, lines: seq<AttributeLine>, k: nat, l: AttributeLine)
    requires UniqueLines(lines) && l in lines && l.name in a && a[l.name]["id"] == k
    requires forall m :: m in lines && m.name in a && a[m.name]["id"] == k ==> m == l
    ensures Requested(Updates(a, lines), k) == NewLabels(a, l)
  {
    forall x ensures x in Requested(Updates(a, lines), k) <==> x in NewLabels(a, l) {
      if x in NewLabels(a, l) {
        assert (k, NewLabels(a, l)) in UpdateOf(a, l);
        assert (k, NewLabels(a, l)) in Updates(a, lines);
      }
    }
  }

  /** On a clean input every kept option ends with exactly the local labels. */
  lemma KeptOption(o: Options, lines: seq<AttributeLine>, n: nat, o1: Options, o2: Options, o3: Options, o4: Options,
                   k: nat, l: AttributeLine)
    requires UniqueNames(o) && UniqueValueIds(o) && IdsBelow(o, n) && UniqueLines(lines)
    requires Executed(o, lines, n, o1, o2, o3, o4) && Clean(o, lines)
    requires k in o && l in lines && o[k].name == l.name
    ensures k in o4 && o4[k].name == l.name && o4[k].values.Keys == l.values
  {
    var a: Attrs := Attributes(o);
    LineDict(o, lines, k, l);
    RequestedFor(o, lines, k, l);
    assert k in o1 && o2[k] == o[k];
    ExtendedLabels(o[k], NewLabels(a, l), o3[k], n, l.values);
    forall x | x in o3[k].values ensures (k, o3[k].values[x]) in ValueDeletes(a, lines) <==> x !in l.values {
      GoneValue(o, lines, n, k, l, x, o3[k].values[x]);
    }
    FilteredLabels(k, o3[k].values, ValueDeletes(a, lines), l.values);
  }

  lemma RequestedFor(o: Options, lines: seq<AttributeLine>, k: nat, l: AttributeLine)
    requires UniqueNames(o) && UniqueLines(lines) && Clean(o, lines)
    requires k in o && l in lines && o[k].name == l.name
    ensures l.name in Attributes(o) && Requested(Updates(Attributes(o), lines), k) == NewLabels(Attributes(o), l)
  {
    var a: Attrs := Attributes(o);
    LineDict(o, lines, k, l);
    forall m | m in lines && m.name in a && a[m.name]["id"] == k ensures m == l {
      var j := CleanKey(o, lines, m);
      SameLine(lines, l, m);
    }
    UpdateKeys(a, lines, k, l);
  }

  lemma ExtendedLabels(old_: RemoteOption, labels: set<string>, new_: RemoteOption, n: nat, local: set<string>)
    requires Extended(old_, labels, new_, n) && labels == local - old_.values.Keys
    ensures new_.values.Keys == old_.values.Keys + local
  { }

  lemma FilteredLabels(k: nat, values: map<string, nat>, deletes: set<(nat, nat)>, local: set<string>)
    requires local <= values.Keys
    requires forall x :: x in values ==> ((k, values[x]) in deletes <==> x !in local)
    ensures (map x | x in values && (k, values[x]) !in deletes :: values[x]).Keys == local
  { }

  lemma GoneValue(o: Options, lines: seq<AttributeLine>, n: nat, k: nat, l: AttributeLine, x: string, id: nat)
    requires UniqueNames(o) && UniqueValueIds(o) && IdsBelow(o, n) && UniqueLines(lines) && Clean(o, lines)
    requires k in o && l in lines && o[k].name == l.name
    requires x in o[k].values || x in l.values
    requires if x in o[k].values then id == o[k].values[x] else id >= n
    ensures (k, id) in ValueDeletes(Attributes(o), lines) <==> x !in l.values
  {
    var a: Attrs := Attributes(o);
    assert l.name in Names(lines) && a[l.name] == Dict(k, o[k]);
    if x !in l.values {
      assert x in GoneLabels(a, l);
      assert (k, id) == (a[l.name]["id"], a[l.name][x]);
      assert (k, id) in ValueDeletesOf(a, l);
    } else {
      DeletedValues(o, lines);
    }
  }

  /** Every planned value deletion names a value ID of an existing label other than `id`. */
  lemma DeletedValues(o: Options, lines: seq<AttributeLine>)
    requires UniqueNames(o)
    ensures forall d :: d in ValueDeletes(Attributes(o), lines) ==>
              exists j, v, m :: j in o && v in o[j].values && v != "id" && o[j].values[v] == d.1
                                && m in lines && m.name == o[j].name && v !in m.values
  {
    var a: Attrs := Attributes(o);
    forall d | d in ValueDeletes(a, lines)
      ensures exists j, v, m :: j in o && v in o[j].values && v != "id" && o[j].values[v] == d.1
                                && m in lines && m.name == o[j].name && v !in m.values
    {
      var m :| m in lines && d in ValueDeletesOf(a, m);
      var v :| v in GoneLabels(a, m) && d == (a[m.name]["id"], a[m.name][v]);
      var j :| j in o && o[j].name == m.name;
      assert a[m.name] == Dict(j, o[j]);
      assert v in o[j].values;
    }
  }

  /** On a clean input the store ends as the mirror of the local lines. */
  lemma CleanMirrors(o: Options, lines: seq<AttributeLine>, n: nat, o1: Options, o2: Options, o3: Options, o4: Options)
    requires UniqueNames(o) && UniqueValueIds(o) && IdsBelow(o, n) && UniqueLines(lines)
    requires Executed(o, lines, n, o1, o2, o3, o4) && Clean(o, lines)
    ensures Mirrors(o4, lines)
  {
    var a: Attrs := Attributes(o);
    NamesAfter(o, lines, n, o1, o2, o3, o4);
    forall k | k in o4 ensures AttributeLine(o4[k].name, o4[k].values.Keys) in lines {
      if k in o1 {
        var l := LineOf(lines, o[k].name);
        KeptOption(o, lines, n, o1, o2, o3, o4, k, l);
      } else {
        AddedOption(o, lines, n, o1, o2, o3, o4, k);
      }
    }
    forall l | l in lines ensures exists k :: k in o4 && o4[k].name == l.name {
      assert l.name in Names(lines);
      if l.name in a {
        var k :| k in o && o[k].name == l.name;
        assert k in o4;
      } else {
        assert HasNew(o1, o2, l.name);
        var k :| k in o2 && k !in o1 && o2[k].name == l.name;
        assert o4[k].name == l.name;
      }
    }
  }

  lemma AddedOption(o: Options, lines: seq<AttributeLine>, n: nat, o1: Options, o2: Options, o3: Options, o4: Options,
                    k: nat)
    requires UniqueNames(o) && IdsBelow(o, n) && UniqueLines(lines)
    requires Executed(o, lines, n, o1, o2, o3, o4) && Clean(o, lines)
    requires k in o2 && k !in o1
    ensures k in o4 && AttributeLine(o4[k].name, o4[k].values.Keys) in lines
  {
    assert NewOption(o2[k], k, Added(Attributes(o), lines), n);
    NotTargeted(o, lines, n, k);
    Untouched(k, o2[k], o3[k], ValueDeletes(Attributes(o), lines), n);
  }

  lemma Untouched(k: nat, before: RemoteOption, after: RemoteOption, deletes: set<(nat, nat)>, n: nat)
    requires Extended(before, {}, after, n) && forall d :: d in deletes ==> d.0 != k
    ensures (map l | l in after.values && (k, after.values[l]) !in deletes :: after.values[l]).Keys
            == before.values.Keys
  { }

  lemma NotTargeted(o: Options, lines: seq<AttributeLine>, n: nat, k: nat)
    requires UniqueNames(o) && IdsBelow(o, n) && Clean(o, lines) && k >= n
    ensures Requested(Updates(Attributes(o), lines), k) == {}
    ensures forall d :: d in ValueDeletes(Attributes(o), lines) ==> d.0 != k
  {
    forall m | m in lines && m.name in Attributes(o) ensures Attributes(o)[m.name]["id"] != k {
      var j := CleanKey(o, lines, m);
    }
    NoLineTargets(Attributes(o), lines, k);
  }

  lemma NoLineTargets(a: Attrs, lines: seq<AttributeLine>, k: nat)
    requires forall m :: m in lines && m.name in a ==> a[m.name]["id"] != k
    ensures Requested(Updates(a, lines), k) == {}
    ensures forall d :: d in ValueDeletes(a, lines) ==> d.0 != k
  { }

  /** Of a mirror, a plan asks for nothing but labels called `id`. */
  lemma MirrorLine(o: Options, lines: seq<AttributeLine>, l: AttributeLine)
    requires UniqueNames(o) && UniqueLines(lines) && Mirrors(o, lines) && l in lines
    ensures l.name in Attributes(o)
    ensures NewLabels(Attributes(o), l) == l.values * {"id"} && GoneLabels(Attributes(o), l) == {}
  {
    var k :| k in o && o[k].name == l.name;
    SameLine(lines, l, AttributeLine(o[k].name, o[k].values.Keys));
    LineDict(o, lines, k, l);
  }

  lemma MirrorLinePlan(o: Options, lines: seq<AttributeLine>, l: AttributeLine)
    requires UniqueNames(o) && UniqueLines(lines) && Mirrors(o, lines) && l in lines
    ensures ValueDeletesOf(Attributes(o), l) == {} && (UpdateOf(Attributes(o), l) == {} <==> "id" !in l.values)
  {
    MirrorLine(o, lines, l);
    NoGoneNoDeletes(Attributes(o), l);
  }

  lemma NoGoneNoDeletes(a: Attrs, l: AttributeLine)
    requires l.name in a && GoneLabels(a, l) == {}
    ensures ValueDeletesOf(a, l) == {}
    ensures UpdateOf(a, l) == {} <==> NewLabels(a, l) == {}
  { }

  /** Of a mirror, planning again asks for nothing unless a local value is called `id`. */
  lemma MirrorPlan(o: Options, lines: seq<AttributeLine>)
    requires UniqueNames(o) && UniqueLines(lines) && Mirrors(o, lines)
    ensures PlanEmpty(Attributes(o), lines) <==> forall l :: l in lines ==> "id" !in l.values
  {
    MirrorNames(o, lines);
    forall l | l in lines
      ensures ValueDeletesOf(Attributes(o), l) == {} && (UpdateOf(Attributes(o), l) == {} <==> "id" !in l.values)
    {
      MirrorLinePlan(o, lines, l);
    }
    PlanEmptyIff(Attributes(o), lines);
  }

  lemma PlanEmptyIff(a: Attrs, lines: seq<AttributeLine>)
    requires RemovedNames(a, lines) == {} && Added(a, lines) == {}
    requires forall l :: l in lines ==> ValueDeletesOf(a, l) == {}
    ensures PlanEmpty(a, lines) <==> forall l :: l in lines ==> UpdateOf(a, l) == {}
  {
    EmptyUnions(a, lines);
  }

  lemma MirrorNames(o: Options, lines: seq<AttributeLine>)
    requires UniqueNames(o) && Mirrors(o, lines)
    ensures RemovedNames(Attributes(o), lines) == {} && Added(Attributes(o), lines) == {}
  {
    forall nm | nm in Attributes(o) ensures nm in Names(lines) {
      var k :| k in o && o[k].name == nm;
      assert AttributeLine(o[k].name, o[k].values.Keys) in lines;
    }
  }

  lemma EmptyUnions(a: Attrs, lines: seq<AttributeLine>)
    ensures Updates(a, lines) == {} <==> forall l :: l in lines ==> UpdateOf(a, l) == {}
    ensures ValueDeletes(a, lines) == {} <==> forall l :: l in lines ==> ValueDeletesOf(a, l) == {}
  {
    forall l, u | l in lines && u in UpdateOf(a, l) ensures u in Updates(a, lines) { }
    forall l, d | l in lines && d in ValueDeletesOf(a, l) ensures d in ValueDeletes(a, lines) { }
  }

  /** The name of a deleted option is not created again. */
  lemma NoRebirth(o: Options, lines: seq<AttributeLine>, n: nat, o1: Options, o2: Options, o3: Options, o4: Options,
                  k: nat)
    requires UniqueNames(o) && IdsBelow(o, n) && UniqueLines(lines) && Executed(o, lines, n, o1, o2, o3, o4)
    requires k in o && k !in o1
    ensures forall j :: j in o4 ==> o4[j].name != o[k].name
  {
    NamesAfter(o, lines, n, o1, o2, o3, o4);
    forall j | j in o4 ensures o4[j].name != o[k].name {
      assert o[k].name in Attributes(o);
      assert j !in o1 ==> NewOption(o2[j], j, Added(Attributes(o), lines), n);
    }
  }

  /** A mirror can only come out of a clean input: kept options survive, removed ones go, no label `id` stays. */
  lemma MirrorNeedsClean(o: Options, lines: seq<AttributeLine>, n: nat, o1: Options, o2: Options, o3: Options,
                         o4: Options)
    requires UniqueNames(o) && UniqueValueIds(o) && IdsBelow(o, n) && UniqueLines(lines)
    requires Executed(o, lines, n, o1, o2, o3, o4) && Mirrors(o4, lines)
    requires forall l :: l in lines ==> "id" !in l.values
    ensures Clean(o, lines)
  {
    var a: Attrs := Attributes(o);
    NamesAfter(o, lines, n, o1, o2, o3, o4);
    forall k | k in o ensures k in DeleteKeys(a, lines) <==> o[k].name !in Names(lines) {
      if k in o1 {
        assert k in o4;
        assert AttributeLine(o4[k].name, o4[k].values.Keys) in lines;
      } else {
        NoRebirth(o, lines, n, o1, o2, o3, o4, k);
        assert forall l :: l in lines ==> l.name != o[k].name;
      }
    }
    forall k | k in o && o[k].name in Names(lines) ensures "id" !in o[k].values {
      assert k in o1 && k in o4;
      assert AttributeLine(o4[k].name, o4[k].values.Keys) in lines;
      KeptIdLabel(o, lines, n, o1, o2, o3, o4, k);
    }
  }

  /** The label `id` is never planned for deletion. */
  lemma KeptIdLabel(o: Options, lines: seq<AttributeLine>, n: nat, o1: Options, o2: Options, o3: Options, o4: Options,
                    k: nat)
    requires UniqueNames(o) && UniqueValueIds(o) && Executed(o, lines, n, o1, o2, o3, o4)
    requires k in o1
    ensures k in o4 && ("id" in o[k].values ==> "id" in o4[k].values)
  {
    var a: Attrs := Attributes(o);
    assert Extended(o2[k], Requested(Updates(a, lines), k), o3[k], n);
    DeletedValues(o, lines);
  }

  /**
    The export converges, that is, it leaves the store's options equal to the local attribute lines
    and a second plan empty, if and only if the input is clean.  In particular a local value called
    `id` is re-sent for ever, and a store label called `id` hides the ID of its option.
  */
  lemma ConvergesIffClean(o: Options, lines: seq<AttributeLine>, n: nat, o1: Options, o2: Options, o3: Options,
                          o4: Options)
    requires UniqueNames(o) && UniqueValueIds(o) && IdsBelow(o, n) && UniqueLines(lines)
    requires Executed(o, lines, n, o1, o2, o3, o4)
    ensures UniqueNames(o4)
    ensures Mirrors(o4, lines) && PlanEmpty(Attributes(o4), lines) <==> Clean(o, lines)
  {
    NamesAfter(o, lines, n, o1, o2, o3, o4);
    if Clean(o, lines) {
      CleanMirrors(o, lines, n, o1, o2, o3, o4);
      MirrorPlan(o4, lines);
    } else if Mirrors(o4, lines) && PlanEmpty(Attributes(o4), lines) {
      MirrorPlan(o4, lines);
      MirrorNeedsClean(o, lines, n, o1, o2, o3, o4);
    }
  }

  /** No option value has the ID of an option. */
  ghost predicate SeparateIds(o: Options) {
    forall j, k, l :: j in o && k in o && l in o[k].values ==> o[k].values[l] != j
  }

  /** Nothing is called `id`, neither a local value nor a label on the store. */
  ghost predicate NothingCalledId(o: Options, lines: seq<AttributeLine>) {
    && (forall l :: l in lines ==> "id" !in l.values)
    && (forall k :: k in o ==> "id" !in o[k].values)
  }

  /** The keys planned for deletion: for each removed option its ID, or the ID of its label `id`. */
  lemma DeleteKeysMeaning(o: Options, lines: seq<AttributeLine>, k: nat)
    requires UniqueNames(o)
    ensures k in DeleteKeys(Attributes(o), lines) <==>
            exists j :: j in o && o[j].name !in Names(lines) && Dict(j, o[j])["id"] == k
  {
    var a: Attrs := Attributes(o);
    if k in DeleteKeys(a, lines) {
      var n :| n in RemovedNames(a, lines) && a[n]["id"] == k;
      var j :| j in o && o[j].name == n;
      assert o[j].name !in Names(lines) && Dict(j, o[j])["id"] == k;
    }
    if j :| j in o && o[j].name !in Names(lines) && Dict(j, o[j])["id"] == k {
      assert o[j].name in RemovedNames(a, lines) && a[o[j].name]["id"] == k;
    }
  }

  lemma DictId(k: nat, option: RemoteOption)
    ensures Dict(k, option)["id"] == if "id" in option.values then option.values["id"] else k
  { }

  lemma AimedAt(o: Options, lines: seq<AttributeLine>, k: nat)
    requires UniqueNames(o) && SeparateIds(o) && k in o
    ensures k in DeleteKeys(Attributes(o), lines) <==> o[k].name !in Names(lines) && "id" !in o[k].values
  {
    DeleteKeysMeaning(o, lines, k);
    DictId(k, o[k]);
    if j :| j in o && o[j].name !in Names(lines) && Dict(j, o[j])["id"] == k {
      DictId(j, o[j]);
    }
  }

  lemma AllAimedAt(o: Options, lines: seq<AttributeLine>)
    requires UniqueNames(o) && SeparateIds(o)
    ensures forall k :: k in o ==>
              (k in DeleteKeys(Attributes(o), lines) <==> o[k].name !in Names(lines) && "id" !in o[k].values)
  {
    forall k | k in o
      ensures k in DeleteKeys(Attributes(o), lines) <==> o[k].name !in Names(lines) && "id" !in o[k].values
    {
      AimedAt(o, lines, k);
    }
  }

  /** Where values and options do not share IDs, clean means that nothing is called `id`. */
  lemma CleanIffNothingCalledId(o: Options, lines: seq<AttributeLine>)
    requires UniqueNames(o) && SeparateIds(o)
    ensures Clean(o, lines) <==> NothingCalledId(o, lines)
  {
    AllAimedAt(o, lines);
    CleanByNames(o, lines, DeleteKeys(Attributes(o), lines), Names(lines));
  }

  lemma CleanByNames(o: Options, lines: seq<AttributeLine>, keys: set<nat>, names: set<string>)
    requires forall k :: k in o ==> (k in keys <==> o[k].name !in names && "id" !in o[k].values)
    ensures (forall k :: k in o && o[k].name in names ==> "id" !in o[k].values)
            && Aimed(o, names, keys)
            <==> forall k :: k in o ==> "id" !in o[k].values
  { }

  /** The same in terms of names alone: the export converges if and only if nothing is called `id`. */
  lemma ConvergesIffNothingCalledId(o: Options, lines: seq<AttributeLine>, n: nat, o1: Options, o2: Options,
                                    o3: Options, o4: Options)
    requires UniqueNames(o) && UniqueValueIds(o) && SeparateIds(o) && IdsBelow(o, n) && UniqueLines(lines)
    requires Executed(o, lines, n, o1, o2, o3, o4)
    ensures UniqueNames(o4)
    ensures Mirrors(o4, lines) && PlanEmpty(Attributes(o4), lines) <==> NothingCalledId(o, lines)
  {
    ConvergesIffClean(o, lines, n, o1, o2, o3, o4);
    CleanIffNothingCalledId(o, lines);
  }

  /** A store label `id` on an option to be removed sends the deletion to the wrong key, and the option stays. */
  lemma IdLabelKeepsOption(key: nat, value: nat, o: Options)
    requires key != value && o == map[key := RemoteOption("Color", map["id" := value])]
    ensures UniqueNames(o) && DeleteKeys(Attributes(o), []) == {value} && o - {value} == o && !Clean(o, [])
  {
    assert key in o && "Color" in Attributes(o);
    var a: Attrs := Attributes(o);
    assert a["Color"] == Dict(key, o[key]);
    assert RemovedNames(a, []) == {"Color"} && Names([]) == {};
    KeysOfAdd(a, {}, "Color");
    assert {} + {"Color"} == {"Color"} && KeysOf(a, {}) == {};
  }
}
