/**
  Import of the channel's category tree (multichannel_bigcommerce/utils/bigcommerce_category_helper.py
  and models/product_channel_category.py): the forest is turned into one nested list of one2many
  commands per root.  Categories that already have a record are linked, new ones are created inside
  their parent's list, and the list under a linked category is dropped.
*/
module CategoryForest {
  import opened Wrappers

  datatype Cat = Cat(id: nat, name: string, children: seq<Cat>)

  datatype Command = Clear | Link(id: nat) | Create(id: nat, name: string, children: seq<Command>)

  /** The values of one root category. */
  datatype Root = Root(id: nat, name: string, children: seq<Command>)

  /** `_extract_tree([p], child_flag=True)`; `existing` holds the channel IDs that have a record. */
  function ChildCommands(p: Cat, existing: set<nat>): seq<Command>
    decreases p, 1
  {
    [Clear] + CommandsOf(p.children, existing)
  }

  function CommandsOf(cs: seq<Cat>, existing: set<nat>): seq<Command>
    decreases cs, 0
  {
    if cs == [] then []
    else
      var c := cs[|cs| - 1];
      assert c in cs;
      CommandsOf(cs[..|cs| - 1], existing)
      + [if c.id in existing then Link(c.id) else Create(c.id, c.name, ChildCommands(c, existing))]
  }

  function RootOf(p: Cat, existing: set<nat>): Root { Root(p.id, p.name, ChildCommands(p, existing)) }

  /** The roots of one kind, in forest order. */
  function RootsOf(forest: seq<Cat>, existing: set<nat>, old_: bool): seq<Root> {
    if forest == [] then []
    else
      var p := forest[|forest| - 1];
      RootsOf(forest[..|forest| - 1], existing, old_) + if (p.id in existing) == old_ then [RootOf(p, existing)] else []
  }

  method ExtractChildren(p: Cat, existing: set<nat>) returns (childIds: seq<Command>)
    ensures childIds == ChildCommands(p, existing)
    decreases p
  {
    childIds := [Clear];
    for i := 0 to |p.children|
      invariant childIds == [Clear] + CommandsOf(p.children[..i], existing)
    {
      var c := p.children[i];
      assert p.children[..i + 1][..i] == p.children[..i];
      var nested := ExtractChildren(c, existing);
      if c.id in existing {
        childIds := childIds + [Link(c.id)];
      }
      if c.id !in existing {
        childIds := childIds + [Create(c.id, c.name, nested)];
      }
    }
    assert p.children[..|p.children|] == p.children;
  }

  /** `SingularCategoryTreeDataInTrans.__call__`: new and existing roots are collected separately. */
  method ExtractTree(forest: seq<Cat>, existing: set<nat>) returns (newResults: seq<Root>, existingResults: seq<Root>)
    ensures newResults == RootsOf(forest, existing, false) && existingResults == RootsOf(forest, existing, true)
  {
    newResults, existingResults := [], [];
    for i := 0 to |forest|
      invariant newResults == RootsOf(forest[..i], existing, false)
      invariant existingResults == RootsOf(forest[..i], existing, true)
    {
      assert forest[..i + 1][..i] == forest[..i];
      var childIds := ExtractChildren(forest[i], existing);
      var root := Root(forest[i].id, forest[i].name, childIds);
      if forest[i].id in existing {
        existingResults := existingResults + [root];
      } else {
        newResults := newResults + [root];
      }
    }
    assert forest[..|forest|] == forest;
  }

  // ----- How often an ID occurs, how often it is created -----

  function Occurs(c: Cat, x: nat): nat
    decreases c, 1
  {
    (if c.id == x then 1 else 0) + OccursIn(c.children, x)
  }

  function OccursIn(cs: seq<Cat>, x: nat): nat
    decreases cs, 0
  {
    if cs == [] then 0
    else assert cs[|cs| - 1] in cs; OccursIn(cs[..|cs| - 1], x) + Occurs(cs[|cs| - 1], x)
  }

  function Creations(cmd: Command, x: nat): nat
    decreases cmd, 1
  {
    match cmd
    case Create(id, _, nested) => (if id == x then 1 else 0) + CreationsIn(nested, x)
    case _ => 0
  }

  function CreationsIn(cmds: seq<Command>, x: nat): nat
    decreases cmds, 0
  {
    if cmds == [] then 0
    else assert cmds[|cmds| - 1] in cmds; CreationsIn(cmds[..|cmds| - 1], x) + Creations(cmds[|cmds| - 1], x)
  }

  /** Creations of `x` by a list of roots; new roots are created themselves. */
  function RootCreations(rs: seq<Root>, isNew: bool, x: nat): nat {
    if rs == [] then 0
    else
      var r := rs[|rs| - 1];
      RootCreations(rs[..|rs| - 1], isNew, x) + (if isNew && r.id == x then 1 else 0) + CreationsIn(r.children, x)
  }

  function Emitted(forest: seq<Cat>, existing: set<nat>, x: nat): nat {
    RootCreations(RootsOf(forest, existing, false), true, x) + RootCreations(RootsOf(forest, existing, true), false, x)
  }

  /** A chain of categories, each a child of the one before. */
  ghost predicate IsChain(p: seq<Cat>) {
    |p| > 0 && forall k :: 0 < k < |p| ==> p[k] in p[k - 1].children
  }

  lemma {:induction false} CreationsSnoc(cmds: seq<Command>, c: Command, x: nat)
    ensures CreationsIn(cmds + [c], x) == CreationsIn(cmds, x) + Creations(c, x)
  {
    assert (cmds + [c])[..|cmds|] == cmds;
  }

  lemma {:induction false} ClearCreatesNothing(cmds: seq<Command>, x: nat)
    ensures CreationsIn([Clear] + cmds, x) == CreationsIn(cmds, x)
    decreases |cmds|
  {
    if cmds == [] {
      assert [Clear] + cmds == [] + [Clear];
      CreationsSnoc([], Clear, x);
    } else {
      var n := |cmds| - 1;
      ClearCreatesNothing(cmds[..n], x);
      assert [Clear] + cmds == ([Clear] + cmds[..n]) + [cmds[n]];
      CreationsSnoc([Clear] + cmds[..n], cmds[n], x);
    }
  }

  /** What child `c` contributes to its parent's list. */
  function Contribution(c: Cat, existing: set<nat>, x: nat): nat {
    if c.id in existing then 0 else (if c.id == x then 1 else 0) + CreationsIn(CommandsOf(c.children, existing), x)
  }

  lemma {:induction false} CommandsSnoc(front: seq<Cat>, c: Cat, existing: set<nat>, x: nat)
    ensures CreationsIn(CommandsOf(front + [c], existing), x)
            == CreationsIn(CommandsOf(front, existing), x) + Contribution(c, existing, x)
  {
    assert (front + [c])[..|front|] == front;
    var cmd := if c.id in existing then Link(c.id) else Create(c.id, c.name, ChildCommands(c, existing));
    CreationsSnoc(CommandsOf(front, existing), cmd, x);
    ClearCreatesNothing(CommandsOf(c.children, existing), x);
  }

  lemma OccursSnoc(cs: seq<Cat>, x: nat)
    requires cs != []
    ensures OccursIn(cs, x) == OccursIn(cs[..|cs| - 1], x) + (if cs[|cs| - 1].id == x then 1 else 0)
                               + OccursIn(cs[|cs| - 1].children, x)
  { }

  /** Nothing is created that does not occur. */
  lemma {:induction false} CreatedOccurs(cs: seq<Cat>, existing: set<nat>, x: nat)
    ensures OccursIn(cs, x) == 0 ==> CreationsIn(CommandsOf(cs, existing), x) == 0
    decreases cs
  {
    if cs != [] {
      var n := |cs| - 1;
      assert cs[n] in cs && cs == cs[..n] + [cs[n]];
      OccursSnoc(cs, x);
      CreatedOccurs(cs[..n], existing, x);
      CreatedOccurs(cs[n].children, existing, x);
      CommandsSnoc(cs[..n], cs[n], existing, x);
    }
  }

  lemma {:induction false} ChainOccurs(p: seq<Cat>)
    requires IsChain(p)
    ensures Occurs(p[0], p[|p| - 1].id) >= 1
    decreases |p|
  {
    if |p| > 1 {
      ChainOccurs(p[1..]);
      MemberOccurs(p[0].children, p[1], p[|p| - 1].id);
    }
  }

  lemma {:induction false} MemberOccurs(cs: seq<Cat>, c: Cat, x: nat)
    requires c in cs
    ensures OccursIn(cs, x) >= Occurs(c, x)
    decreases |cs|
  {
    if c != cs[|cs| - 1] { MemberOccurs(cs[..|cs| - 1], c, x); }
  }

  /** Every category strictly between the ends of the chain is new. */
  predicate NewBetween(p: seq<Cat>, existing: set<nat>) {
    forall k :: 0 < k < |p| - 1 ==> p[k].id !in existing
  }

  /** Below its first category, the end of the chain is created once if all before it are new, else not at all. */
  lemma {:induction false} ChainContribution(p: seq<Cat>, existing: set<nat>, x: nat)
    requires IsChain(p) && p[|p| - 1].id == x && x !in existing && Occurs(p[0], x) <= 1
    ensures Contribution(p[0], existing, x) == if NewExceptLast(p, existing) then 1 else 0
    decreases |p|, 0
  {
    var c := p[0];
    if |p| == 1 {
      CreatedOccurs(c.children, existing, x);
    } else {
      ChainOccurs(p[1..]);
      MemberOccurs(c.children, p[1], x);
      ChainCreations(p[1..], c.children, existing, x);
      NewExceptLastCons(p, existing);
    }
  }

  lemma {:induction false} ChainCreations(p: seq<Cat>, cs: seq<Cat>, existing: set<nat>, x: nat)
    requires IsChain(p) && p[0] in cs && p[|p| - 1].id == x && x !in existing && OccursIn(cs, x) <= 1
    ensures CreationsIn(CommandsOf(cs, existing), x) == if NewExceptLast(p, existing) then 1 else 0
    decreases |p|, |cs| + 1
  {
    var n := |cs| - 1;
    var c := cs[n];
    assert cs == cs[..n] + [c];
    CommandsSnoc(cs[..n], c, existing, x);
    OccursSnoc(cs, x);
    ChainOccurs(p);
    if c == p[0] {
      CreatedOccurs(cs[..n], existing, x);
      ChainContribution(p, existing, x);
    } else {
      MemberOccurs(cs[..n], p[0], x);
      ChainCreations(p, cs[..n], existing, x);
      CreatedOccurs(c.children, existing, x);
    }
  }

  /** Every category but the last of the chain is new. */
  predicate NewExceptLast(p: seq<Cat>, existing: set<nat>) {
    forall k :: 0 <= k < |p| - 1 ==> p[k].id !in existing
  }

  lemma NewExceptLastCons(p: seq<Cat>, existing: set<nat>)
    requires |p| > 1
    ensures NewExceptLast(p, existing) <==> p[0].id !in existing && NewExceptLast(p[1..], existing)
    ensures NewBetween(p, existing) <==> NewExceptLast(p[1..], existing)
  {
    forall k | 0 < k < |p| - 1 ensures p[k] == p[1..][k - 1] { }
    forall k | 0 <= k < |p[1..]| - 1 ensures p[1..][k] == p[k + 1] { }
  }

  lemma {:induction false} EmittedSnoc(forest: seq<Cat>, existing: set<nat>, x: nat)
    requires forest != []
    ensures var n := |forest| - 1;
            Emitted(forest, existing, x) == Emitted(forest[..n], existing, x)
              + (if forest[n].id == x && x !in existing then 1 else 0)
                + CreationsIn(CommandsOf(forest[n].children, existing), x)
  {
    var n := |forest| - 1;
    var r := RootOf(forest[n], existing);
    ClearCreatesNothing(CommandsOf(forest[n].children, existing), x);
    var news, olds := RootsOf(forest[..n], existing, false), RootsOf(forest[..n], existing, true);
    assert (news + [r])[..|news|] == news && (olds + [r])[..|olds|] == olds;
    assert news + [] == news && olds + [] == olds;
  }

  lemma {:induction false} EmittedOccurs(forest: seq<Cat>, existing: set<nat>, x: nat)
    ensures OccursIn(forest, x) == 0 ==> Emitted(forest, existing, x) == 0
    decreases |forest|
  {
    if forest != [] {
      var n := |forest| - 1;
      OccursSnoc(forest, x);
      EmittedOccurs(forest[..n], existing, x);
      EmittedSnoc(forest, existing, x);
      CreatedOccurs(forest[n].children, existing, x);
    }
  }

  lemma RootContribution(p: seq<Cat>, existing: set<nat>, x: nat)
    requires IsChain(p) && p[|p| - 1].id == x && x !in existing && Occurs(p[0], x) <= 1
    ensures (if p[0].id == x then 1 else 0) + CreationsIn(CommandsOf(p[0].children, existing), x)
            == if NewBetween(p, existing) then 1 else 0
  {
    if |p| == 1 {
      CreatedOccurs(p[0].children, existing, x);
    } else {
      ChainOccurs(p[1..]);
      MemberOccurs(p[0].children, p[1], x);
      ChainCreations(p[1..], p[0].children, existing, x);
      NewExceptLastCons(p, existing);
    }
  }

  lemma {:induction false} EmittedOnce(forest: seq<Cat>, existing: set<nat>, p: seq<Cat>, x: nat)
    requires OccursIn(forest, x) <= 1
    requires IsChain(p) && p[0] in forest && p[|p| - 1].id == x && x !in existing
    ensures Emitted(forest, existing, x) == if NewBetween(p, existing) then 1 else 0
    decreases |forest|
  {
    var front, c := forest[..|forest| - 1], forest[|forest| - 1];
    assert forest == front + [c];
    EmittedSnoc(forest, existing, x);
    OccursSnoc(forest, x);
    ChainOccurs(p);
    if c == p[0] {
      EmittedOccurs(front, existing, x);
      RootContribution(p, existing, x);
    } else {
      MemberOccurs(front, p[0], x);
      EmittedOnce(front, existing, p, x);
      CreatedOccurs(c.children, existing, x);
    }
  }

  /**
    For every forest whose IDs are distinct and every new category at the end of a chain from a
    root: the import creates it exactly once if every ancestor strictly between it and its root is
    new, and not at all otherwise.
  */
  lemma NewCategoryEmitted(forest: seq<Cat>, existing: set<nat>, p: seq<Cat>)
    requires forall x :: OccursIn(forest, x) <= 1
    requires IsChain(p) && p[0] in forest && p[|p| - 1].id !in existing
    ensures Emitted(forest, existing, p[|p| - 1].id) == if NewBetween(p, existing) then 1 else 0
  {
    EmittedOnce(forest, existing, p, p[|p| - 1].id);
  }

  /** A category that has a record is never created, whatever the forest. */
  lemma {:induction false} ExistingNotEmitted(forest: seq<Cat>, existing: set<nat>, x: nat)
    requires x in existing
    ensures Emitted(forest, existing, x) == 0
    decreases |forest|
  {
    if forest != [] {
      ExistingNotEmitted(forest[..|forest| - 1], existing, x);
      EmittedSnoc(forest, existing, x);
      ExistingNotCreated(forest[|forest| - 1].children, existing, x);
    }
  }

  lemma {:induction false} ExistingNotCreated(cs: seq<Cat>, existing: set<nat>, x: nat)
    requires x in existing
    ensures CreationsIn(CommandsOf(cs, existing), x) == 0
    decreases cs
  {
    if cs != [] {
      var n := |cs| - 1;
      assert cs[n] in cs && cs == cs[..n] + [cs[n]];
      ExistingNotCreated(cs[..n], existing, x);
      ExistingNotCreated(cs[n].children, existing, x);
      CommandsSnoc(cs[..n], cs[n], existing, x);
    }
  }

  // ----- The records -----

  /** A stored category; `child_ids` is the inverse of the single `parent` pointer. */
  datatype Record = Record(name: string, parent: Option<nat>)

  /** The records of the channel, by ID on the store. */
  type Records = map<nat, Record>

  /** A link moves the record: it leaves its old parent. */
  function Linked(recs: Records, id: nat, owner: nat): Records {
    if id in recs then recs[id := recs[id].(parent := Some(owner))] else recs
  }

  /** A clear makes roots of all children. */
  function Orphaned(recs: Records, owner: nat): Records {
    map x | x in recs :: if recs[x].parent == Some(owner) then recs[x].(parent := None) else recs[x]
  }

  /** The commands of one list; a record that is being created has no children to clear. */
  function Executed(recs: Records, owner: nat, cmds: seq<Command>, creating: bool): Records
    decreases cmds, 0
  {
    if cmds == [] then recs
    else
      var last := cmds[|cmds| - 1];
      assert last in cmds;
      var before := Executed(recs, owner, cmds[..|cmds| - 1], creating);
      match last
      case Clear => if creating then before else Orphaned(before, owner)
      case Link(id) => Linked(before, id, owner)
      case Create(id, name, nested) => Executed(before[id := Record(name, Some(owner))], id, nested, true)
  }

  /** Creating a root, or writing its values on the record it has. */
  function RootWritten(recs: Records, r: Root, isNew: bool): Records {
    if isNew then Executed(recs[r.id := Record(r.name, None)], r.id, r.children, true)
    else if r.id in recs then Executed(recs[r.id := recs[r.id].(name := r.name)], r.id, r.children, false)
    else recs
  }

  function RootsWritten(recs: Records, rs: seq<Root>, isNew: bool): Records {
    if rs == [] then recs else RootWritten(RootsWritten(recs, rs[..|rs| - 1], isNew), rs[|rs| - 1], isNew)
  }

  /** The tree import: new roots are created, then existing ones are written. */
  function Imported(recs: Records, forest: seq<Cat>): Records {
    RootsWritten(RootsWritten(recs, RootsOf(forest, recs.Keys, false), true), RootsOf(forest, recs.Keys, true), false)
  }

  class Registry {
    var records: Records

    constructor (records: Records)
      ensures this.records == records
    {
      this.records := records;
    }

    method Execute(owner: nat, cmds: seq<Command>, creating: bool)
      modifies this
      ensures records == Executed(old(records), owner, cmds, creating)
      decreases cmds
    {
      for i := 0 to |cmds|
        invariant records == Executed(old(records), owner, cmds[..i], creating)
      {
        assert cmds[..i + 1][..i] == cmds[..i];
        assert cmds[i] in cmds;
        match cmds[i] {
          case Clear =>
            if !creating {
              records := Orphaned(records, owner);
            }
          case Link(id) =>
            if id in records {
              records := records[id := records[id].(parent := Some(owner))];
            }
          case Create(id, name, nested) =>
            records := records[id := Record(name, Some(owner))];
            Execute(id, nested, true);
        }
      }
      assert cmds[..|cmds|] == cmds;
    }

    method WriteRoots(rs: seq<Root>, isNew: bool)
      modifies this
      ensures records == RootsWritten(old(records), rs, isNew)
    {
      for i := 0 to |rs|
        invariant records == RootsWritten(old(records), rs[..i], isNew)
      {
        assert rs[..i + 1][..i] == rs[..i];
        var r := rs[i];
        if isNew {
          records := records[r.id := Record(r.name, None)];
          Execute(r.id, r.children, true);
        } else if r.id in records {
          records := records[r.id := records[r.id].(name := r.name)];
          Execute(r.id, r.children, false);
        }
      }
      assert rs[..|rs|] == rs;
    }

    /** The tree part of `bigcommerce_get_data`. */
    method ImportTree(forest: seq<Cat>)
      modifies this
      ensures records == Imported(old(records), forest)
    {
      var newResults, existingResults := ExtractTree(forest, records.Keys);
      WriteRoots(newResults, true);
      WriteRoots(existingResults, false);
    }
  }

  // ----- The import on the categories themselves -----

  /** What the commands for the children of `owner` do, clears apart. */
  function Below(recs: Records, owner: nat, cs: seq<Cat>, existing: set<nat>): Records
    decreases cs
  {
    if cs == [] then recs
    else
      var c := cs[|cs| - 1];
      assert c in cs;
      var before := Below(recs, owner, cs[..|cs| - 1], existing);
      if c.id in existing then Linked(before, c.id, owner)
      else Below(before[c.id := Record(c.name, Some(owner))], c.id, c.children, existing)
  }

  lemma {:induction false} ExecutedFirst(recs: Records, owner: nat, first: Command, cmds: seq<Command>, creating: bool)
    ensures Executed(recs, owner, [first] + cmds, creating)
            == Executed(Executed(recs, owner, [first], creating), owner, cmds, creating)
    decreases |cmds|
  {
    if cmds == [] {
      assert [first] + cmds == [first];
    } else {
      var n := |cmds| - 1;
      ExecutedFirst(recs, owner, first, cmds[..n], creating);
      assert ([first] + cmds)[..n + 1] == [first] + cmds[..n];
    }
  }

  lemma ExecutedClear(recs: Records, owner: nat, creating: bool)
    ensures Executed(recs, owner, [Clear], creating) == if creating then recs else Orphaned(recs, owner)
  {
    assert [Clear][..0] == [];
  }

  lemma {:induction false} ExecutedIsBelow(recs: Records, owner: nat, cs: seq<Cat>, existing: set<nat>, creating: bool)
    ensures Executed(recs, owner, CommandsOf(cs, existing), creating) == Below(recs, owner, cs, existing)
    decreases cs
  {
    if cs != [] {
      var n := |cs| - 1;
      var c := cs[n];
      assert c in cs;
      ExecutedIsBelow(recs, owner, cs[..n], existing, creating);
      var cmds := CommandsOf(cs, existing);
      assert cmds[..|cmds| - 1] == CommandsOf(cs[..n], existing);
      if c.id !in existing {
        var mid := Below(recs, owner, cs[..n], existing)[c.id := Record(c.name, Some(owner))];
        ExecutedIsBelow(mid, c.id, c.children, existing, true);
        ExecutedFirst(mid, c.id, Clear, CommandsOf(c.children, existing), true);
        ExecutedClear(mid, c.id, true);
      }
    }
  }

  /** The root itself: a new record without a parent, or the new name on the old one. */
  function Titled(recs: Records, r: Cat, existing: set<nat>): Records {
    if r.id !in existing then recs[r.id := Record(r.name, None)]
    else if r.id in recs then recs[r.id := recs[r.id].(name := r.name)]
    else recs
  }

  function Tree(recs: Records, r: Cat, existing: set<nat>): Records {
    Below(Titled(recs, r, existing), r.id, r.children, existing)
  }

  function Trees(recs: Records, rs: seq<Cat>, existing: set<nat>): Records {
    if rs == [] then recs else Tree(Trees(recs, rs[..|rs| - 1], existing), rs[|rs| - 1], existing)
  }

  /** One root as it is imported, its clear included. */
  function Written(recs: Records, r: Cat, existing: set<nat>): Records {
    Tree(if r.id in existing then Orphaned(recs, r.id) else recs, r, existing)
  }

  function WrittenAll(recs: Records, rs: seq<Cat>, existing: set<nat>): Records {
    if rs == [] then recs else Written(WrittenAll(recs, rs[..|rs| - 1], existing), rs[|rs| - 1], existing)
  }

  function Cleared(recs: Records, rs: seq<Cat>, existing: set<nat>): Records {
    if rs == [] then recs
    else
      var before := Cleared(recs, rs[..|rs| - 1], existing);
      if rs[|rs| - 1].id in existing then Orphaned(before, rs[|rs| - 1].id) else before
  }

  lemma RootIsWritten(recs: Records, r: Cat, existing: set<nat>)
    requires r.id in existing ==> r.id in recs
    ensures RootWritten(recs, RootOf(r, existing), r.id !in existing) == Written(recs, r, existing)
  {
    var start := Titled(recs, r, existing);
    var creating := r.id !in existing;
    var cmds := CommandsOf(r.children, existing);
    ExecutedFirst(start, r.id, Clear, cmds, creating);
    ExecutedClear(start, r.id, creating);
    if creating {
      ExecutedIsBelow(start, r.id, r.children, existing, creating);
    } else {
      assert Orphaned(start, r.id) == Titled(Orphaned(recs, r.id), r, existing);
      ExecutedIsBelow(Orphaned(start, r.id), r.id, r.children, existing, creating);
    }
  }

  /** The roots of one kind. */
  function Part(forest: seq<Cat>, existing: set<nat>, old_: bool): seq<Cat> {
    if forest == [] then []
    else
      var r := forest[|forest| - 1];
      Part(forest[..|forest| - 1], existing, old_) + if (r.id in existing) == old_ then [r] else []
  }

  lemma {:induction false} BelowKeys(recs: Records, owner: nat, cs: seq<Cat>, existing: set<nat>)
    ensures recs.Keys <= Below(recs, owner, cs, existing).Keys
    decreases cs
  {
    if cs != [] {
      var n := |cs| - 1;
      var c := cs[n];
      assert c in cs;
      BelowKeys(recs, owner, cs[..n], existing);
      if c.id !in existing {
        BelowKeys(Below(recs, owner, cs[..n], existing)[c.id := Record(c.name, Some(owner))], c.id, c.children,
            existing);
      }
    }
  }

  lemma {:induction false} WrittenAllKeys(recs: Records, rs: seq<Cat>, existing: set<nat>)
    ensures recs.Keys <= WrittenAll(recs, rs, existing).Keys
    decreases |rs|
  {
    if rs != [] {
      var r := rs[|rs| - 1];
      var before := WrittenAll(recs, rs[..|rs| - 1], existing);
      WrittenAllKeys(recs, rs[..|rs| - 1], existing);
      var start := if r.id in existing then Orphaned(before, r.id) else before;
      BelowKeys(Titled(start, r, existing), r.id, r.children, existing);
    }
  }

  lemma WrittenSnoc(recs: Records, rs: seq<Cat>, r: Cat, existing: set<nat>)
    ensures WrittenAll(recs, rs + [r], existing) == Written(WrittenAll(recs, rs, existing), r, existing)
  {
    assert (rs + [r])[..|rs|] == rs;
  }

  lemma {:induction false} PartWritten(recs: Records, done: seq<Cat>, forest: seq<Cat>, existing: set<nat>, old_: bool)
    requires existing <= recs.Keys
    ensures RootsWritten(WrittenAll(recs, done, existing), RootsOf(forest, existing, old_), !old_)
            == WrittenAll(recs, done + Part(forest, existing, old_), existing)
    decreases |forest|
  {
    if forest == [] {
      assert done + [] == done;
    } else {
      var front, r := forest[..|forest| - 1], forest[|forest| - 1];
      PartWritten(recs, done, front, existing, old_);
      var roots, part := RootsOf(front, existing, old_), Part(front, existing, old_);
      if (r.id in existing) == old_ {
        assert (roots + [RootOf(r, existing)])[..|roots|] == roots;
        assert done + (part + [r]) == (done + part) + [r];
        WrittenSnoc(recs, done + part, r, existing);
        WrittenAllKeys(recs, done + part, existing);
        RootIsWritten(WrittenAll(recs, done + part, existing), r, existing);
      } else {
        assert roots + [] == roots && part + [] == part;
      }
    }
  }

  /** New roots first, then existing ones. */
  function Order(forest: seq<Cat>, existing: set<nat>): seq<Cat> {
    Part(forest, existing, false) + Part(forest, existing, true)
  }

  lemma ImportedInOrder(recs: Records, forest: seq<Cat>)
    ensures Imported(recs, forest) == WrittenAll(recs, Order(forest, recs.Keys), recs.Keys)
  {
    PartWritten(recs, [], forest, recs.Keys, false);
    assert [] + Part(forest, recs.Keys, false) == Part(forest, recs.Keys, false);
    PartWritten(recs, Part(forest, recs.Keys, false), forest, recs.Keys, true);
  }

  // ----- Clears can be done first -----

  lemma {:induction false} BelowAfterClear(recs: Records, owner: nat, cs: seq<Cat>, existing: set<nat>, q: nat)
    requires owner != q && OccursIn(cs, q) == 0
    ensures Orphaned(Below(recs, owner, cs, existing), q) == Below(Orphaned(recs, q), owner, cs, existing)
    decreases cs
  {
    if cs != [] {
      var n := |cs| - 1;
      var c := cs[n];
      assert c in cs;
      OccursSnoc(cs, q);
      BelowAfterClear(recs, owner, cs[..n], existing, q);
      var before := Below(recs, owner, cs[..n], existing);
      if c.id in existing {
        LinkedAfterClear(before, c.id, owner, q);
      } else {
        BelowAfterClear(before[c.id := Record(c.name, Some(owner))], c.id, c.children, existing, q);
        AddedAfterClear(before, c.id, Record(c.name, Some(owner)), q);
      }
    }
  }

  lemma LinkedAfterClear(recs: Records, id: nat, owner: nat, q: nat)
    requires owner != q
    ensures Orphaned(Linked(recs, id, owner), q) == Linked(Orphaned(recs, q), id, owner)
  { }

  lemma AddedAfterClear(recs: Records, id: nat, rec: Record, q: nat)
    requires rec.parent != Some(q)
    ensures Orphaned(recs[id := rec], q) == Orphaned(recs, q)[id := rec]
  { }

  lemma TreeAfterClear(recs: Records, r: Cat, existing: set<nat>, q: nat)
    requires r.id != q && OccursIn(r.children, q) == 0
    ensures Orphaned(Tree(recs, r, existing), q) == Tree(Orphaned(recs, q), r, existing)
  {
    BelowAfterClear(Titled(recs, r, existing), r.id, r.children, existing, q);
    assert Orphaned(Titled(recs, r, existing), q) == Titled(Orphaned(recs, q), r, existing);
  }

  lemma {:induction false} TreesAfterClear(recs: Records, rs: seq<Cat>, existing: set<nat>, q: nat)
    requires OccursIn(rs, q) == 0
    ensures Orphaned(Trees(recs, rs, existing), q) == Trees(Orphaned(recs, q), rs, existing)
    decreases |rs|
  {
    if rs != [] {
      OccursSnoc(rs, q);
      TreesAfterClear(recs, rs[..|rs| - 1], existing, q);
      TreeAfterClear(Trees(recs, rs[..|rs| - 1], existing), rs[|rs| - 1], existing, q);
    }
  }

  ghost predicate Distinct(cs: seq<Cat>) {
    forall x :: OccursIn(cs, x) <= 1
  }

  lemma DistinctFront(cs: seq<Cat>, front: seq<Cat>, c: Cat)
    requires Distinct(cs) && cs != [] && front == cs[..|cs| - 1] && c == cs[|cs| - 1]
    ensures Distinct(front) && Distinct(c.children)
    ensures forall x :: OccursIn(front, x) > 0 ==> x != c.id && OccursIn(c.children, x) == 0
    ensures OccursIn(c.children, c.id) == 0 && OccursIn(front, c.id) == 0
  {
    forall x ensures OccursIn(front, x) + (if c.id == x then 1 else 0) + OccursIn(c.children, x) <= 1 {
      OccursSnoc(cs, x);
      assert OccursIn(cs, x) <= 1;
    }
  }

  lemma {:induction false} ClearsFirst(recs: Records, rs: seq<Cat>, existing: set<nat>)
    requires Distinct(rs)
    ensures WrittenAll(recs, rs, existing) == Trees(Cleared(recs, rs, existing), rs, existing)
    decreases |rs|
  {
    if rs != [] {
      var front, r := rs[..|rs| - 1], rs[|rs| - 1];
      DistinctFront(rs, front, r);
      ClearsFirst(recs, front, existing);
      if r.id in existing { TreesAfterClear(Cleared(recs, front, existing), front, existing, r.id); }
    }
  }

  // ----- What the records should be -----

  /** Below `owner` every category has its record, with the channel's name and parent. */
  predicate Holds(recs: Records, owner: nat, cs: seq<Cat>)
    decreases cs
  {
    forall c :: c in cs ==> c.id in recs && recs[c.id] == Record(c.name, Some(owner)) && Holds(recs, c.id, c.children)
  }

  predicate RootHolds(recs: Records, r: Cat) {
    r.id in recs && recs[r.id] == Record(r.name, None) && Holds(recs, r.id, r.children)
  }

  /** Every category of the channel has a record with the channel's name and parent. */
  predicate Rebuilt(recs: Records, forest: seq<Cat>) {
    forall r :: r in forest ==> RootHolds(recs, r)
  }

  /**
    What can be checked before: where a category with a record hangs below a root or a new category,
    only its name and what is below it must be right already; its own place will be.
  */
  predicate Fits(recs: Records, cs: seq<Cat>, existing: set<nat>)
    decreases cs
  {
    forall c :: c in cs ==>
      if c.id in existing then c.id in recs && recs[c.id].name == c.name && Holds(recs, c.id, c.children)
      else Fits(recs, c.children, existing)
  }

  ghost predicate SameOn(a: Records, b: Records, cs: seq<Cat>) {
    forall x :: OccursIn(cs, x) > 0 ==> (x in a <==> x in b) && (x in a ==> a[x] == b[x])
  }

  lemma {:induction false} ChildOccurs(cs: seq<Cat>, c: Cat, x: nat)
    requires c in cs
    ensures OccursIn(cs, c.id) > 0 && (OccursIn(c.children, x) > 0 ==> OccursIn(cs, x) > 0)
  {
    MemberOccurs(cs, c, c.id);
    MemberOccurs(cs, c, x);
  }

  lemma SameBelow(a: Records, b: Records, cs: seq<Cat>, c: Cat)
    requires SameOn(a, b, cs) && c in cs
    ensures SameOn(a, b, c.children) && (c.id in a <==> c.id in b) && (c.id in a ==> a[c.id] == b[c.id])
  {
    ChildOccurs(cs, c, c.id);
    forall x | OccursIn(c.children, x) > 0 ensures (x in a <==> x in b) && (x in a ==> a[x] == b[x]) {
      ChildOccurs(cs, c, x);
    }
  }

  lemma {:induction false} HoldsSame(a: Records, b: Records, owner: nat, cs: seq<Cat>)
    requires SameOn(a, b, cs)
    ensures Holds(a, owner, cs) <==> Holds(b, owner, cs)
    decreases cs
  {
    forall c | c in cs
      ensures (c.id in a <==> c.id in b) && (c.id in a ==> a[c.id] == b[c.id])
      ensures Holds(a, c.id, c.children) <==> Holds(b, c.id, c.children)
    {
      SameBelow(a, b, cs, c);
      HoldsSame(a, b, c.id, c.children);
    }
  }

  lemma {:induction false} FitsSame(a: Records, b: Records, cs: seq<Cat>, existing: set<nat>)
    requires SameOn(a, b, cs)
    ensures Fits(a, cs, existing) <==> Fits(b, cs, existing)
    decreases cs
  {
    forall c | c in cs
      ensures (c.id in a <==> c.id in b) && (c.id in a ==> a[c.id] == b[c.id])
      ensures Holds(a, c.id, c.children) <==> Holds(b, c.id, c.children)
      ensures Fits(a, c.children, existing) <==> Fits(b, c.children, existing)
    {
      SameBelow(a, b, cs, c);
      HoldsSame(a, b, c.id, c.children);
      FitsSame(a, b, c.children, existing);
    }
  }

  /** Only categories that occur are touched. */
  lemma {:induction false} BelowElsewhere(recs: Records, owner: nat, cs: seq<Cat>, existing: set<nat>, x: nat)
    requires OccursIn(cs, x) == 0
    ensures var after := Below(recs, owner, cs, existing);
            (x in after <==> x in recs) && (x in recs ==> after[x] == recs[x])
    decreases cs
  {
    if cs != [] {
      var n := |cs| - 1;
      var c := cs[n];
      assert c in cs;
      OccursSnoc(cs, x);
      BelowElsewhere(recs, owner, cs[..n], existing, x);
      if c.id !in existing {
        BelowElsewhere(Below(recs, owner, cs[..n], existing)[c.id := Record(c.name, Some(owner))], c.id, c.children,
            existing, x);
      }
    }
  }

  /** The last child, on the records its earlier siblings left. */
  function LastBelow(before: Records, owner: nat, c: Cat, existing: set<nat>): Records {
    if c.id in existing then Linked(before, c.id, owner)
    else Below(before[c.id := Record(c.name, Some(owner))], c.id, c.children, existing)
  }

  lemma LastElsewhere(before: Records, owner: nat, c: Cat, existing: set<nat>, cs: seq<Cat>)
    requires forall x :: OccursIn(cs, x) > 0 ==> x != c.id && OccursIn(c.children, x) == 0
    ensures SameOn(LastBelow(before, owner, c, existing), before, cs)
  {
    forall x | OccursIn(cs, x) > 0
      ensures var after := LastBelow(before, owner, c, existing);
              (x in after <==> x in before) && (x in after ==> after[x] == before[x])
    {
      if c.id !in existing {
        BelowElsewhere(before[c.id := Record(c.name, Some(owner))], c.id, c.children, existing, x);
      }
    }
  }

  predicate ChildHolds(recs: Records, owner: nat, c: Cat) {
    c.id in recs && recs[c.id] == Record(c.name, Some(owner)) && Holds(recs, c.id, c.children)
  }

  predicate ChildFits(recs: Records, c: Cat, existing: set<nat>) {
    if c.id in existing then c.id in recs && recs[c.id].name == c.name && Holds(recs, c.id, c.children)
    else Fits(recs, c.children, existing)
  }

  lemma FrontSplit(recs: Records, owner: nat, cs: seq<Cat>, existing: set<nat>)
    requires cs != []
    ensures var front, c := cs[..|cs| - 1], cs[|cs| - 1];
            && (Holds(recs, owner, cs) <==> Holds(recs, owner, front) && ChildHolds(recs, owner, c))
            && (Fits(recs, cs, existing) <==> Fits(recs, front, existing) && ChildFits(recs, c, existing))
  {
    var front, c := cs[..|cs| - 1], cs[|cs| - 1];
    assert forall d :: d in cs <==> d in front || d == c;
  }

  lemma {:induction false} BelowSame(recs: Records, owner: nat, front: seq<Cat>, existing: set<nat>, cs: seq<Cat>)
    requires forall x :: OccursIn(cs, x) > 0 ==> OccursIn(front, x) == 0
    ensures SameOn(Below(recs, owner, front, existing), recs, cs)
  {
    forall x | OccursIn(cs, x) > 0
      ensures var after := Below(recs, owner, front, existing);
              (x in after <==> x in recs) && (x in after ==> after[x] == recs[x])
    {
      BelowElsewhere(recs, owner, front, existing, x);
    }
  }

  /** One child: it ends right exactly if it fitted before. */
  lemma LastHoldsIff(recs: Records, before: Records, owner: nat, c: Cat, existing: set<nat>)
    requires SameOn(before, recs, c.children) && (c.id in before <==> c.id in recs)
             && (c.id in recs ==> before[c.id] == recs[c.id])
    requires OccursIn(c.children, c.id) == 0
    requires c.id in existing ==> c.id in recs
    requires c.id !in existing ==>
               var mid := before[c.id := Record(c.name, Some(owner))];
               Holds(Below(mid, c.id, c.children, existing), c.id, c.children) <==> Fits(mid, c.children, existing)
    ensures ChildHolds(LastBelow(before, owner, c, existing), owner, c) <==> ChildFits(recs, c, existing)
  {
    var after := LastBelow(before, owner, c, existing);
    if c.id in existing {
      assert SameOn(after, recs, c.children);
      HoldsSame(after, recs, c.id, c.children);
    } else {
      var mid := before[c.id := Record(c.name, Some(owner))];
      assert SameOn(mid, recs, c.children);
      FitsSame(mid, recs, c.children, existing);
      BelowElsewhere(mid, c.id, c.children, existing, c.id);
    }
  }

  /** Below `owner` every category ends with its name and parent exactly if it fitted before. */
  lemma {:induction false} BelowHoldsIff(recs: Records, owner: nat, cs: seq<Cat>, existing: set<nat>)
    requires Distinct(cs) && existing <= recs.Keys
    ensures Holds(Below(recs, owner, cs, existing), owner, cs) <==> Fits(recs, cs, existing)
    decreases cs
  {
    if cs != [] {
      var front, c := cs[..|cs| - 1], cs[|cs| - 1];
      assert c in cs;
      DistinctFront(cs, front, c);
      var before, after := Below(recs, owner, front, existing), Below(recs, owner, cs, existing);
      BelowHoldsIff(recs, owner, front, existing);
      LastElsewhere(before, owner, c, existing, front);
      HoldsSame(after, before, owner, front);
      FrontSplit(after, owner, cs, existing);
      FrontSplit(recs, owner, cs, existing);
      BelowSame(recs, owner, front, existing, c.children);
      BelowElsewhere(recs, owner, front, existing, c.id);
      if c.id !in existing {
        BelowKeys(recs, owner, front, existing);
        BelowHoldsIff(before[c.id := Record(c.name, Some(owner))], c.id, c.children, existing);
      }
      LastHoldsIff(recs, before, owner, c, existing);
    }
  }

  // ----- Whole forests -----

  predicate RootFits(recs: Records, r: Cat, existing: set<nat>) {
    (r.id in existing ==> r.id in recs && recs[r.id].parent == None) && Fits(recs, r.children, existing)
  }

  lemma TreeElsewhere(recs: Records, r: Cat, existing: set<nat>, x: nat)
    requires x != r.id && OccursIn(r.children, x) == 0
    ensures (x in Tree(recs, r, existing) <==> x in recs) && (x in recs ==> Tree(recs, r, existing)[x] == recs[x])
  {
    BelowElsewhere(Titled(recs, r, existing), r.id, r.children, existing, x);
  }

  lemma {:induction false} TreesElsewhere(recs: Records, rs: seq<Cat>, existing: set<nat>, x: nat)
    requires OccursIn(rs, x) == 0
    ensures (x in Trees(recs, rs, existing) <==> x in recs) && (x in recs ==> Trees(recs, rs, existing)[x] == recs[x])
    decreases |rs|
  {
    if rs != [] {
      OccursSnoc(rs, x);
      TreesElsewhere(recs, rs[..|rs| - 1], existing, x);
      TreeElsewhere(Trees(recs, rs[..|rs| - 1], existing), rs[|rs| - 1], existing, x);
    }
  }

  /** One root, on records that agree with `recs` on its tree. */
  lemma TreeHoldsIff(recs: Records, before: Records, r: Cat, existing: set<nat>)
    requires SameOn(before, recs, [r]) && Distinct([r]) && existing <= recs.Keys && existing <= before.Keys
    ensures RootHolds(Tree(before, r, existing), r) <==> RootFits(recs, r, existing)
  {
    assert [r][..0] == [] && r in [r];
    DistinctFront([r], [], r);
    SameBelow(before, recs, [r], r);
    var start := Titled(before, r, existing);
    BelowHoldsIff(start, r.id, r.children, existing);
    BelowElsewhere(start, r.id, r.children, existing, r.id);
    assert SameOn(start, before, r.children);
    FitsSame(start, before, r.children, existing);
    FitsSame(before, recs, r.children, existing);
  }

  lemma RootSame(a: Records, b: Records, rs: seq<Cat>)
    requires SameOn(a, b, rs)
    ensures forall r :: r in rs ==> (RootHolds(a, r) <==> RootHolds(b, r))
  {
    forall r | r in rs ensures RootHolds(a, r) <==> RootHolds(b, r) {
      SameBelow(a, b, rs, r);
      HoldsSame(a, b, r.id, r.children);
    }
  }

  lemma SingleOccurs(r: Cat, x: nat)
    ensures OccursIn([r], x) == (if r.id == x then 1 else 0) + OccursIn(r.children, x)
  {
    assert [r][..0] == [];
    OccursSnoc([r], x);
  }

  lemma {:induction false} TreesHoldIff(recs: Records, rs: seq<Cat>, existing: set<nat>)
    requires Distinct(rs) && existing <= recs.Keys
    ensures Rebuilt(Trees(recs, rs, existing), rs) <==> forall r :: r in rs ==> RootFits(recs, r, existing)
    decreases |rs|
  {
    if rs != [] {
      var front, r := rs[..|rs| - 1], rs[|rs| - 1];
      DistinctFront(rs, front, r);
      var before := Trees(recs, front, existing);
      var after := Tree(before, r, existing);
      TreesHoldIff(recs, front, existing);
      forall x | OccursIn(front, x) > 0
        ensures (x in after <==> x in before) && (x in after ==> after[x] == before[x])
      {
        TreeElsewhere(before, r, existing, x);
      }
      RootSame(after, before, front);
      forall x | OccursIn([r], x) > 0 ensures (x in before <==> x in recs) && (x in before ==> before[x] == recs[x]) {
        SingleOccurs(r, x);
        TreesElsewhere(recs, front, existing, x);
      }
      forall x ensures OccursIn([r], x) <= 1 {
        SingleOccurs(r, x);
        OccursSnoc(rs, x);
        assert OccursIn(rs, x) <= 1;
      }
      TreesKeys(recs, front, existing);
      TreeHoldsIff(recs, before, r, existing);
      assert forall d :: d in rs <==> d in front || d == r;
    }
  }

  lemma {:induction false} TreesKeys(recs: Records, rs: seq<Cat>, existing: set<nat>)
    ensures recs.Keys <= Trees(recs, rs, existing).Keys
    decreases |rs|
  {
    if rs != [] {
      var r := rs[|rs| - 1];
      TreesKeys(recs, rs[..|rs| - 1], existing);
      BelowKeys(Titled(Trees(recs, rs[..|rs| - 1], existing), r, existing), r.id, r.children, existing);
    }
  }

  // ----- The condition on the records as they are -----

  predicate IsRoot(rs: seq<Cat>, id: nat) { exists r :: r in rs && r.id == id }

  /** A root with a record is a root already, or hangs below a root with a record, whose clear frees it. */
  predicate Freed(recs: Records, rs: seq<Cat>, existing: set<nat>, id: nat) {
    id in recs && match recs[id].parent case None => true case Some(q) => q in existing && IsRoot(rs, q)
  }

  lemma {:induction false} ClearedAt(recs: Records, rs: seq<Cat>, existing: set<nat>, x: nat)
    ensures x in Cleared(recs, rs, existing) <==> x in recs
    ensures x in recs ==>
              Cleared(recs, rs, existing)[x]
              == if recs[x].parent.Some? && recs[x].parent.value in existing && IsRoot(rs, recs[x].parent.value)
                 then recs[x].(parent := None) else recs[x]
    decreases |rs|
  {
    if rs != [] {
      var front, r := rs[..|rs| - 1], rs[|rs| - 1];
      ClearedAt(recs, front, existing, x);
      assert forall d :: d in rs <==> d in front || d == r;
    }
  }

  lemma {:induction false} HoldsCleared(recs: Records, rs: seq<Cat>, existing: set<nat>, owner: nat, cs: seq<Cat>)
    requires !IsRoot(rs, owner) && forall x :: OccursIn(cs, x) > 0 ==> !IsRoot(rs, x)
    ensures Holds(Cleared(recs, rs, existing), owner, cs) <==> Holds(recs, owner, cs)
    decreases cs
  {
    forall c | c in cs
      ensures ChildHolds(Cleared(recs, rs, existing), owner, c) <==> ChildHolds(recs, owner, c)
    {
      ClearedAt(recs, rs, existing, c.id);
      ChildOccurs(cs, c, c.id);
      forall x | OccursIn(c.children, x) > 0 ensures !IsRoot(rs, x) { ChildOccurs(cs, c, x); }
      HoldsCleared(recs, rs, existing, c.id, c.children);
    }
    assert forall c :: c in cs ==> (ChildHolds(Cleared(recs, rs, existing), owner, c) <==> ChildHolds(recs, owner, c));
  }

  lemma {:induction false} FitsCleared(recs: Records, rs: seq<Cat>, existing: set<nat>, cs: seq<Cat>)
    requires forall x :: OccursIn(cs, x) > 0 ==> !IsRoot(rs, x)
    ensures Fits(Cleared(recs, rs, existing), cs, existing) <==> Fits(recs, cs, existing)
    decreases cs
  {
    forall c | c in cs
      ensures ChildFits(Cleared(recs, rs, existing), c, existing) <==> ChildFits(recs, c, existing)
    {
      ClearedAt(recs, rs, existing, c.id);
      ChildOccurs(cs, c, c.id);
      forall x | OccursIn(c.children, x) > 0 ensures !IsRoot(rs, x) { ChildOccurs(cs, c, x); }
      HoldsCleared(recs, rs, existing, c.id, c.children);
      FitsCleared(recs, rs, existing, c.children);
    }
    assert forall c :: c in cs ==>
      (ChildFits(Cleared(recs, rs, existing), c, existing) <==> ChildFits(recs, c, existing));
  }

  lemma {:induction false} PartMembers(forest: seq<Cat>, existing: set<nat>, old_: bool, r: Cat)
    ensures r in Part(forest, existing, old_) <==> r in forest && ((r.id in existing) == old_)
    decreases |forest|
  {
    if forest != [] {
      PartMembers(forest[..|forest| - 1], existing, old_, r);
      assert forall d :: d in forest <==> d in forest[..|forest| - 1] || d == forest[|forest| - 1];
    }
  }

  lemma OccursConcatOne(cs: seq<Cat>, c: Cat, x: nat)
    ensures OccursIn(cs + [c], x) == OccursIn(cs, x) + Occurs(c, x)
  {
    assert (cs + [c])[..|cs|] == cs;
  }

  lemma {:induction false} OccursConcat(a: seq<Cat>, b: seq<Cat>, x: nat)
    ensures OccursIn(a + b, x) == OccursIn(a, x) + OccursIn(b, x)
    decreases |b|
  {
    if b == [] {
      assert a + b == a;
    } else {
      var n := |b| - 1;
      OccursConcat(a, b[..n], x);
      assert a + b == (a + b[..n]) + [b[n]];
      OccursConcatOne(a + b[..n], b[n], x);
    }
  }

  lemma {:induction false} PartOccurs(forest: seq<Cat>, existing: set<nat>, x: nat)
    ensures OccursIn(Part(forest, existing, false), x) + OccursIn(Part(forest, existing, true), x)
            == OccursIn(forest, x)
    decreases |forest|
  {
    if forest != [] {
      var front, r := forest[..|forest| - 1], forest[|forest| - 1];
      PartOccurs(front, existing, x);
      var news, olds := Part(front, existing, false), Part(front, existing, true);
      OccursConcatOne(news, r, x);
      OccursConcatOne(olds, r, x);
      assert news + [] == news && olds + [] == olds;
    }
  }

  lemma OrderFacts(forest: seq<Cat>, existing: set<nat>)
    requires Distinct(forest)
    ensures Distinct(Order(forest, existing))
    ensures forall r :: r in Order(forest, existing) <==> r in forest
    ensures forall id :: IsRoot(Order(forest, existing), id) <==> IsRoot(forest, id)
  {
    var news, olds := Part(forest, existing, false), Part(forest, existing, true);
    forall x ensures OccursIn(news + olds, x) <= 1 {
      OccursConcat(news, olds, x);
      PartOccurs(forest, existing, x);
      assert OccursIn(forest, x) <= 1;
    }
    forall r ensures r in news + olds <==> r in forest {
      PartMembers(forest, existing, false, r);
      PartMembers(forest, existing, true, r);
    }
  }

  /** In a forest of distinct IDs nothing below a root is a root. */
  lemma {:induction false} RootsNotBelow(rs: seq<Cat>, r: Cat, x: nat)
    requires Distinct(rs) && r in rs && OccursIn(r.children, x) > 0
    ensures !IsRoot(rs, x)
    decreases |rs|
  {
    if q :| q in rs && q.id == x {
      assert OccursIn(rs, x) <= 1;
      TwoOccur(rs, r, q, x);
    }
  }

  lemma {:induction false} TwoOccur(rs: seq<Cat>, r: Cat, q: Cat, x: nat)
    requires r in rs && q in rs && q.id == x && OccursIn(r.children, x) > 0
    ensures OccursIn(rs, x) >= 2
    decreases |rs|
  {
    var front, last := rs[..|rs| - 1], rs[|rs| - 1];
    OccursSnoc(rs, x);
    if r in front && q in front {
      TwoOccur(front, r, q, x);
    } else if r in front {
      MemberOccurs(front, r, x);
    } else if q in front {
      MemberOccurs(front, q, x);
    }
  }

  /** What a caller can check: on every root, `Freed` and `Fits`. */
  predicate Importable(recs: Records, forest: seq<Cat>) {
    forall r :: r in forest ==>
      (r.id in recs ==> Freed(recs, forest, recs.Keys, r.id)) && Fits(recs, r.children, recs.Keys)
  }

  lemma ClearedFits(recs: Records, rs: seq<Cat>, r: Cat)
    requires Distinct(rs) && r in rs
    ensures RootFits(Cleared(recs, rs, recs.Keys), r, recs.Keys)
            <==> (r.id in recs ==> Freed(recs, rs, recs.Keys, r.id)) && Fits(recs, r.children, recs.Keys)
  {
    ClearedAt(recs, rs, recs.Keys, r.id);
    forall x | OccursIn(r.children, x) > 0 ensures !IsRoot(rs, x) { RootsNotBelow(rs, r, x); }
    FitsCleared(recs, rs, recs.Keys, r.children);
  }

  lemma FreedSame(recs: Records, a: seq<Cat>, b: seq<Cat>, existing: set<nat>, id: nat)
    requires forall x :: IsRoot(a, x) <==> IsRoot(b, x)
    ensures Freed(recs, a, existing, id) <==> Freed(recs, b, existing, id)
  { }

  /**
    After the import every category of the channel has a record with the channel's name and parent,
    if and only if the records were importable. Moved categories are followed wherever a command
    reaches them; what is wrong below a category that is only linked stays wrong.
  */
  lemma ImportRebuildsIff(recs: Records, forest: seq<Cat>)
    requires Distinct(forest)
    ensures Rebuilt(Imported(recs, forest), forest) <==> Importable(recs, forest)
  {
    var order := Order(forest, recs.Keys);
    OrderFacts(forest, recs.Keys);
    ImportedInOrder(recs, forest);
    ClearsFirst(recs, order, recs.Keys);
    var start := Cleared(recs, order, recs.Keys);
    forall x ensures x in start <==> x in recs { ClearedAt(recs, order, recs.Keys, x); }
    TreesHoldIff(start, order, recs.Keys);
    forall r | r in forest
      ensures RootFits(start, r, recs.Keys)
              <==> (r.id in recs ==> Freed(recs, forest, recs.Keys, r.id)) && Fits(recs, r.children, recs.Keys)
    {
      ClearedFits(recs, order, r);
      FreedSame(recs, order, forest, recs.Keys, r.id);
    }
  }

  // ----- The detail import, which writes the names again -----

  /** Every record named in the details takes that name. */
  function Renamed(recs: Records, names: map<nat, string>): Records {
    map x | x in recs :: if x in names then recs[x].(name := names[x]) else recs[x]
  }

  /** The details carry the channel's name of every category. */
  predicate Details(names: map<nat, string>, cs: seq<Cat>)
    decreases cs
  {
    forall c :: c in cs ==> c.id in names && names[c.id] == c.name && Details(names, c.children)
  }

  lemma {:induction false} BelowRenamed(recs: Records, owner: nat, cs: seq<Cat>, existing: set<nat>,
                                        names: map<nat, string>)
    requires Details(names, cs)
    ensures Renamed(Below(recs, owner, cs, existing), names) == Below(Renamed(recs, names), owner, cs, existing)
    decreases cs
  {
    if cs != [] {
      var n := |cs| - 1;
      var c := cs[n];
      assert c in cs;
      BelowRenamed(recs, owner, cs[..n], existing, names);
      var before := Below(recs, owner, cs[..n], existing);
      if c.id in existing {
        assert Renamed(Linked(before, c.id, owner), names) == Linked(Renamed(before, names), c.id, owner);
      } else {
        var rec := Record(c.name, Some(owner));
        assert Renamed(before[c.id := rec], names) == Renamed(before, names)[c.id := rec];
        BelowRenamed(before[c.id := rec], c.id, c.children, existing, names);
      }
    }
  }

  lemma OrphanedRenamed(recs: Records, owner: nat, names: map<nat, string>)
    ensures Renamed(Orphaned(recs, owner), names) == Orphaned(Renamed(recs, names), owner)
  { }

  lemma TitledRenamed(recs: Records, r: Cat, existing: set<nat>, names: map<nat, string>)
    requires r.id in names && names[r.id] == r.name
    ensures Renamed(Titled(recs, r, existing), names) == Titled(Renamed(recs, names), r, existing)
  { }

  lemma WrittenRenamed(recs: Records, r: Cat, existing: set<nat>, names: map<nat, string>)
    requires r.id in names && names[r.id] == r.name && Details(names, r.children)
    ensures Renamed(Written(recs, r, existing), names) == Written(Renamed(recs, names), r, existing)
  {
    var start := if r.id in existing then Orphaned(recs, r.id) else recs;
    OrphanedRenamed(recs, r.id, names);
    TitledRenamed(start, r, existing, names);
    BelowRenamed(Titled(start, r, existing), r.id, r.children, existing, names);
  }

  lemma {:induction false} AllRenamed(recs: Records, rs: seq<Cat>, existing: set<nat>, names: map<nat, string>)
    requires Details(names, rs)
    ensures Renamed(WrittenAll(recs, rs, existing), names) == WrittenAll(Renamed(recs, names), rs, existing)
    decreases |rs|
  {
    if rs != [] {
      assert rs[|rs| - 1] in rs;
      AllRenamed(recs, rs[..|rs| - 1], existing, names);
      WrittenRenamed(WrittenAll(recs, rs[..|rs| - 1], existing), rs[|rs| - 1], existing, names);
    }
  }

  /** After the detail import only places matter: the same condition, on records that have their names already. */
  lemma ImportWithDetailsIff(recs: Records, forest: seq<Cat>, names: map<nat, string>)
    requires Distinct(forest) && Details(names, forest)
    ensures Rebuilt(Renamed(Imported(recs, forest), names), forest) <==> Importable(Renamed(recs, names), forest)
  {
    var named := Renamed(recs, names);
    assert named.Keys == recs.Keys;
    OrderFacts(forest, recs.Keys);
    ImportedInOrder(recs, forest);
    ImportedInOrder(named, forest);
    AllRenamed(recs, Order(forest, recs.Keys), recs.Keys, names);
    ImportRebuildsIff(named, forest);
  }

  // ----- Exactly the channel's children -----

  /** The records below `owner` are the channel's categories and no others. */
  ghost predicate Exact(recs: Records, owner: nat, cs: seq<Cat>)
    decreases cs
  {
    && (forall x :: x in recs && recs[x].parent == Some(owner) ==> IsRoot(cs, x))
    && (forall c :: c in cs ==>
          c.id in recs && recs[c.id] == Record(c.name, Some(owner)) && Exact(recs, c.id, c.children))
  }

  ghost predicate RootExact(recs: Records, r: Cat) {
    r.id in recs && recs[r.id] == Record(r.name, None) && Exact(recs, r.id, r.children)
  }

  ghost predicate ExactlyRebuilt(recs: Records, forest: seq<Cat>) {
    forall r :: r in forest ==> RootExact(recs, r)
  }

  /** Record `x` hangs below `owner` or a category of `cs`. */
  predicate Hangs(recs: Records, x: nat, owner: nat, cs: seq<Cat>) {
    x in recs && recs[x].parent.Some? && (recs[x].parent.value == owner || OccursIn(cs, recs[x].parent.value) > 0)
  }

  ghost predicate Closed(recs: Records, owner: nat, cs: seq<Cat>) {
    forall x :: Hangs(recs, x, owner, cs) ==> OccursIn(cs, x) > 0
  }

  /** Nothing from outside the forest hangs below a category of the forest. */
  ghost predicate NoStray(recs: Records, forest: seq<Cat>) {
    forall x :: x in recs && OccursIn(forest, x) == 0 && recs[x].parent.Some? ==>
      OccursIn(forest, recs[x].parent.value) == 0
  }

  /** What a caller can check: such a record hangs below nothing but a root with a record, whose clear frees it. */
  ghost predicate StraysFreed(recs: Records, forest: seq<Cat>) {
    forall x :: x in recs && OccursIn(forest, x) == 0 && recs[x].parent.Some?
                && OccursIn(forest, recs[x].parent.value) > 0 ==>
      recs[x].parent.value in recs && IsRoot(forest, recs[x].parent.value)
  }

  lemma {:induction false} FindMember(cs: seq<Cat>, x: nat) returns (c: Cat)
    requires OccursIn(cs, x) > 0
    ensures c in cs && Occurs(c, x) > 0
    decreases |cs|
  {
    var front, last := cs[..|cs| - 1], cs[|cs| - 1];
    OccursSnoc(cs, x);
    c := last;
    if Occurs(last, x) == 0 { c := FindMember(front, x); }
  }

  lemma {:induction false} TwoMembers(cs: seq<Cat>, c: Cat, d: Cat, x: nat)
    requires c in cs && d in cs && c != d && Occurs(c, x) > 0 && Occurs(d, x) > 0
    ensures OccursIn(cs, x) >= 2
    decreases |cs|
  {
    var front, last := cs[..|cs| - 1], cs[|cs| - 1];
    assert cs == front + [last];
    OccursSnoc(cs, x);
    if c in front && d in front {
      TwoMembers(front, c, d, x);
    } else if c in front {
      MemberOccurs(front, c, x);
    } else {
      MemberOccurs(front, d, x);
    }
  }

  /** An ID occurs in one tree only. */
  lemma SameMember(cs: seq<Cat>, c: Cat, d: Cat, x: nat)
    requires Distinct(cs) && c in cs && d in cs && Occurs(c, x) > 0 && Occurs(d, x) > 0
    ensures c == d
  {
    assert OccursIn(cs, x) <= 1;
    if c != d { TwoMembers(cs, c, d, x); }
  }

  lemma DistinctMember(cs: seq<Cat>, c: Cat)
    requires Distinct(cs) && c in cs
    ensures Distinct(c.children) && OccursIn(c.children, c.id) == 0
  {
    forall x ensures (if c.id == x then 1 else 0) + OccursIn(c.children, x) <= 1 {
      MemberOccurs(cs, c, x);
      assert OccursIn(cs, x) <= 1;
    }
  }

  /** In a tree that holds, the parent of a category is where the channel has it. */
  lemma {:induction false} ParentOccurs(recs: Records, owner: nat, cs: seq<Cat>, x: nat)
    requires Holds(recs, owner, cs) && OccursIn(cs, x) > 0
    ensures x in recs && recs[x].parent.Some?
    ensures var q := recs[x].parent.value; (q == owner && IsRoot(cs, x)) || OccursIn(cs, q) > 0
    decreases cs
  {
    var c := FindMember(cs, x);
    if c.id != x {
      ParentOccurs(recs, c.id, c.children, x);
      MemberOccurs(cs, c, recs[x].parent.value);
    }
  }

  /** Where the tree below `owner` holds, a record hangs below its member `c` only from the tree of `c`. */
  lemma ClosedMember(recs: Records, owner: nat, cs: seq<Cat>, c: Cat)
    requires Distinct(cs) && OccursIn(cs, owner) == 0 && c in cs && Holds(recs, owner, cs) && Closed(recs, owner, cs)
    ensures Closed(recs, c.id, c.children)
  {
    forall x | Hangs(recs, x, c.id, c.children) ensures OccursIn(c.children, x) > 0 {
      var q := recs[x].parent.value;
      assert Occurs(c, q) > 0;
      MemberOccurs(cs, c, q);
      InMember(recs, owner, cs, c, x, q);
    }
  }

  lemma InMember(recs: Records, owner: nat, cs: seq<Cat>, c: Cat, x: nat, q: nat)
    requires Distinct(cs) && c in cs && Holds(recs, owner, cs) && OccursIn(cs, x) > 0
    requires x in recs && recs[x].parent == Some(q) && q != owner && Occurs(c, q) > 0
    ensures OccursIn(c.children, x) > 0
  {
    var d := FindMember(cs, x);
    if d.id != x {
      ParentOccurs(recs, d.id, d.children, x);
      assert Occurs(d, q) > 0;
      SameMember(cs, c, d, q);
    }
  }

  lemma {:induction false} ExactIffClosed(recs: Records, owner: nat, cs: seq<Cat>)
    requires Distinct(cs) && OccursIn(cs, owner) == 0
    ensures Exact(recs, owner, cs) <==> Holds(recs, owner, cs) && Closed(recs, owner, cs)
    decreases cs
  {
    forall c | c in cs
      ensures Exact(recs, c.id, c.children) <==> Holds(recs, c.id, c.children) && Closed(recs, c.id, c.children)
    {
      DistinctMember(cs, c);
      ExactIffClosed(recs, c.id, c.children);
    }
    if Exact(recs, owner, cs) {
      assert Holds(recs, owner, cs);
      forall x | Hangs(recs, x, owner, cs) ensures OccursIn(cs, x) > 0 { ExactCloses(recs, owner, cs, x); }
    }
    if Holds(recs, owner, cs) && Closed(recs, owner, cs) {
      forall c | c in cs ensures Exact(recs, c.id, c.children) { ClosedMember(recs, owner, cs, c); }
      forall x | x in recs && recs[x].parent == Some(owner) ensures IsRoot(cs, x) {
        assert Hangs(recs, x, owner, cs);
        ParentOccurs(recs, owner, cs, x);
      }
    }
  }

  lemma ExactCloses(recs: Records, owner: nat, cs: seq<Cat>, x: nat)
    requires Exact(recs, owner, cs) && Hangs(recs, x, owner, cs)
    requires forall c :: c in cs ==> Closed(recs, c.id, c.children)
    ensures OccursIn(cs, x) > 0
  {
    var q := recs[x].parent.value;
    if q == owner {
      var c :| c in cs && c.id == x;
      ChildOccurs(cs, c, x);
    } else {
      var c := FindMember(cs, q);
      assert Hangs(recs, x, c.id, c.children);
      ChildOccurs(cs, c, x);
    }
  }

  lemma RootClosed(recs: Records, forest: seq<Cat>, r: Cat)
    requires Distinct(forest) && r in forest && Rebuilt(recs, forest) && NoStray(recs, forest)
    ensures Closed(recs, r.id, r.children)
  {
    forall x | Hangs(recs, x, r.id, r.children) ensures OccursIn(r.children, x) > 0 {
      var q := recs[x].parent.value;
      assert Occurs(r, q) > 0;
      MemberOccurs(forest, r, q);
      assert OccursIn(forest, x) > 0;
      var d := FindMember(forest, x);
      assert RootHolds(recs, d);
      ParentOccurs(recs, d.id, d.children, x);
      assert Occurs(d, q) > 0;
      SameMember(forest, r, d, q);
    }
  }

  lemma ExactForestIff(recs: Records, forest: seq<Cat>)
    requires Distinct(forest)
    ensures ExactlyRebuilt(recs, forest) <==> Rebuilt(recs, forest) && NoStray(recs, forest)
  {
    forall r | r in forest ensures RootExact(recs, r) <==> RootHolds(recs, r) && Closed(recs, r.id, r.children) {
      DistinctMember(forest, r);
      ExactIffClosed(recs, r.id, r.children);
    }
    if ExactlyRebuilt(recs, forest) {
      forall x | x in recs && OccursIn(forest, x) == 0 && recs[x].parent.Some?
        ensures OccursIn(forest, recs[x].parent.value) == 0
      {
        var q := recs[x].parent.value;
        if OccursIn(forest, q) > 0 {
          var r := FindMember(forest, q);
          assert RootExact(recs, r) && Hangs(recs, x, r.id, r.children);
          ChildOccurs(forest, r, x);
        }
      }
    }
    if Rebuilt(recs, forest) && NoStray(recs, forest) {
      forall r | r in forest ensures RootExact(recs, r) {
        assert RootHolds(recs, r);
        RootClosed(recs, forest, r);
      }
    }
  }

  /** The import leaves a record that is not the channel's where it is, unless a clear reaches it. */
  lemma OutsideAfter(recs: Records, forest: seq<Cat>, x: nat)
    requires Distinct(forest) && OccursIn(forest, x) == 0
    ensures x in Imported(recs, forest) <==> x in recs
    ensures x in recs ==>
              Imported(recs, forest)[x]
              == if recs[x].parent.Some? && recs[x].parent.value in recs && IsRoot(forest, recs[x].parent.value)
                 then recs[x].(parent := None) else recs[x]
  {
    var order := Order(forest, recs.Keys);
    OrderFacts(forest, recs.Keys);
    ImportedInOrder(recs, forest);
    ClearsFirst(recs, order, recs.Keys);
    OccursConcat(Part(forest, recs.Keys, false), Part(forest, recs.Keys, true), x);
    PartOccurs(forest, recs.Keys, x);
    TreesElsewhere(Cleared(recs, order, recs.Keys), order, recs.Keys, x);
    ClearedAt(recs, order, recs.Keys, x);
  }

  lemma NoStrayIff(recs: Records, forest: seq<Cat>)
    requires Distinct(forest)
    ensures NoStray(Imported(recs, forest), forest) <==> StraysFreed(recs, forest)
  {
    forall x | OccursIn(forest, x) == 0
      ensures x in Imported(recs, forest) <==> x in recs
      ensures x in recs ==>
                Imported(recs, forest)[x]
                == if recs[x].parent.Some? && recs[x].parent.value in recs && IsRoot(forest, recs[x].parent.value)
                   then recs[x].(parent := None) else recs[x]
    {
      OutsideAfter(recs, forest, x);
    }
  }

  /**
    After the import every category has its name, its parent and exactly the channel's children, if and
    only if the records were importable and no record of a category that is gone from the channel hangs
    below a category that is still there, other than below a root with a record.
  */
  lemma ImportExactIff(recs: Records, forest: seq<Cat>)
    requires Distinct(forest)
    ensures ExactlyRebuilt(Imported(recs, forest), forest) <==> Importable(recs, forest) && StraysFreed(recs, forest)
  {
    ExactForestIff(Imported(recs, forest), forest);
    ImportRebuildsIff(recs, forest);
    NoStrayIff(recs, forest);
  }

  /** The same after the detail import, for which the old names do not matter. */
  lemma ImportExactWithDetailsIff(recs: Records, forest: seq<Cat>, names: map<nat, string>)
    requires Distinct(forest) && Details(names, forest)
    ensures ExactlyRebuilt(Renamed(Imported(recs, forest), names), forest)
            <==> Importable(Renamed(recs, names), forest) && StraysFreed(recs, forest)
  {
    var after := Imported(recs, forest);
    ExactForestIff(Renamed(after, names), forest);
    ImportWithDetailsIff(recs, forest, names);
    NoStrayIff(recs, forest);
    RenamedStrays(after, forest, names);
  }

  lemma RenamedStrays(recs: Records, forest: seq<Cat>, names: map<nat, string>)
    ensures NoStray(Renamed(recs, names), forest) <==> NoStray(recs, forest)
  {
    var named := Renamed(recs, names);
    assert forall x :: x in named <==> x in recs;
    assert forall x :: x in recs ==> named[x].parent == recs[x].parent;
  }

  /** A category that was deleted on the channel stays where it hung below a linked one. */
  lemma StaleChildStays(a: Cat, b: Cat, z: nat, name: string)
    requires a.id != b.id && b.id != z && a.id != z && a.children == [b] && b.children == []
    ensures var recs := map[a.id := Record(a.name, None), b.id := Record(b.name, Some(a.id)),
                z := Record(name, Some(b.id))];
            Rebuilt(Imported(recs, [a]), [a]) && !ExactlyRebuilt(Imported(recs, [a]), [a])
  {
    var recs := map[a.id := Record(a.name, None), b.id := Record(b.name, Some(a.id)), z := Record(name, Some(b.id))];
    forall x ensures OccursIn([a], x) == if x == a.id || x == b.id then 1 else 0 {
      SingleOccurs(a, x);
      SingleOccurs(b, x);
    }
    ImportRebuildsIff(recs, [a]);
    ImportExactIff(recs, [a]);
    assert recs[z].parent == Some(b.id) && !IsRoot([a], b.id);
  }

  /** A category that the channel moved up to the root is followed: its record changes its parent. */
  lemma MovedIsFollowed(a: Cat, b: Cat, c: Cat)
    requires a.id != b.id && b.id != c.id && a.id != c.id && b.children == [] && c.children == []
             && a.children == [b, c]
    ensures var recs := map[a.id := Record(a.name, None), b.id := Record(b.name, Some(a.id)),
                c.id := Record(c.name, Some(b.id))];
            Rebuilt(Imported(recs, [a]), [a])
  {
    var recs := map[a.id := Record(a.name, None), b.id := Record(b.name, Some(a.id)),
        c.id := Record(c.name, Some(b.id))];
    forall x ensures OccursIn([a], x) <= 1 {
      SingleOccurs(a, x);
      assert [b, c] == ([] + [b]) + [c];
      OccursConcatOne([] + [b], c, x);
      OccursConcatOne([], b, x);
    }
    ImportRebuildsIff(recs, [a]);
  }

  /** A new category below a linked one gets no record. */
  lemma BelowLinkLost(a: Cat, b: Cat, c: Cat)
    requires a.id != b.id && b.id != c.id && a.id != c.id && a.children == [b] && b.children == [c] && c.children == []
    ensures var recs := map[a.id := Record(a.name, None), b.id := Record(b.name, Some(a.id))];
            !Rebuilt(Imported(recs, [a]), [a])
  {
    var recs := map[a.id := Record(a.name, None), b.id := Record(b.name, Some(a.id))];
    forall x ensures OccursIn([a], x) <= 1 {
      SingleOccurs(a, x);
      SingleOccurs(b, x);
      SingleOccurs(c, x);
    }
    ImportRebuildsIff(recs, [a]);
    assert a in [a] && b in a.children && c in b.children;
  }

  // ----- Without records -----

  /** The children a nested list describes when there is no record to link. */
  function Build(cmds: seq<Command>): seq<Cat>
    decreases cmds, 0
  {
    if cmds == [] then []
    else
      var last := cmds[|cmds| - 1];
      assert last in cmds;
      var before := Build(cmds[..|cmds| - 1]);
      match last
      case Clear => []
      case Link(_) => before
      case Create(id, name, nested) => before + [Cat(id, name, Build(nested))]
  }

  function BuildRoot(r: Root): Cat { Cat(r.id, r.name, Build(r.children)) }

  lemma {:induction false} BuildClears(cmds: seq<Command>)
    ensures Build([Clear] + cmds) == Build(cmds)
    decreases |cmds|
  {
    if cmds == [] {
      assert [Clear] + cmds == [Clear] && [Clear][..0] == [];
    } else {
      var n := |cmds| - 1;
      BuildClears(cmds[..n]);
      assert ([Clear] + cmds)[..n + 1] == [Clear] + cmds[..n];
    }
  }

  lemma {:induction false} BuildExact(cs: seq<Cat>)
    ensures Build(CommandsOf(cs, {})) == cs
    decreases cs
  {
    if cs != [] {
      var n := |cs| - 1;
      var c := cs[n];
      assert c in cs && cs == cs[..n] + [c];
      BuildExact(cs[..n]);
      BuildExact(c.children);
      BuildClears(CommandsOf(c.children, {}));
      var cmds := CommandsOf(cs, {});
      assert cmds[..|cmds| - 1] == CommandsOf(cs[..n], {});
    }
  }

  /** With no existing records the new roots describe the whole forest, in order. */
  lemma {:induction false} FreshImportRebuilds(forest: seq<Cat>)
    ensures RootsOf(forest, {}, true) == [] && |RootsOf(forest, {}, false)| == |forest|
    ensures forall k :: 0 <= k < |forest| ==> BuildRoot(RootsOf(forest, {}, false)[k]) == forest[k]
    decreases |forest|
  {
    if forest != [] {
      var n := |forest| - 1;
      FreshImportRebuilds(forest[..n]);
      BuildClears(CommandsOf(forest[n].children, {}));
      BuildExact(forest[n].children);
      forall k | 0 <= k < n ensures RootsOf(forest, {}, false)[k] == RootsOf(forest[..n], {}, false)[k] { }
    }
  }

  lemma {:induction false} NothingToFit(cs: seq<Cat>)
    ensures Fits(map[], cs, {})
    decreases cs
  {
    forall c | c in cs ensures Fits(map[], c.children, {}) {
      NothingToFit(c.children);
    }
  }

  /** And their execution leaves the forest in the records. */
  lemma FreshRecords(forest: seq<Cat>)
    requires Distinct(forest)
    ensures Rebuilt(Imported(map[], forest), forest)
  {
    var none: Records := map[];
    assert none.Keys == {};
    ImportRebuildsIff(none, forest);
    forall r | r in forest ensures Fits(none, r.children, {}) { NothingToFit(r.children); }
  }

  // ----- The new and existing options are decided on the flattened tree -----

  /** `flatten_tree`: children first, then the category. */
  function Flatten(c: Cat): seq<Cat>
    decreases c, 1
  {
    FlattenAll(c.children) + [c]
  }

  function FlattenAll(cs: seq<Cat>): seq<Cat>
    decreases cs, 0
  {
    if cs == [] then [] else assert cs[|cs| - 1] in cs; FlattenAll(cs[..|cs| - 1]) + Flatten(cs[|cs| - 1])
  }

  function CountId(cs: seq<Cat>, x: nat): nat {
    if cs == [] then 0 else CountId(cs[..|cs| - 1], x) + if cs[|cs| - 1].id == x then 1 else 0
  }

  lemma {:induction false} CountConcat(a: seq<Cat>, b: seq<Cat>, x: nat)
    ensures CountId(a + b, x) == CountId(a, x) + CountId(b, x)
    decreases |b|
  {
    if b == [] {
      assert a + b == a;
    } else {
      assert (a + b)[..|a + b| - 1] == a + b[..|b| - 1];
      CountConcat(a, b[..|b| - 1], x);
    }
  }

  /** The flattened tree holds every category exactly as often as the tree does. */
  lemma {:induction false} FlattenKeepsIds(cs: seq<Cat>, x: nat)
    ensures CountId(FlattenAll(cs), x) == OccursIn(cs, x)
    decreases cs
  {
    if cs != [] {
      var n := |cs| - 1;
      assert cs[n] in cs;
      FlattenKeepsIds(cs[..n], x);
      FlattenKeepsIds(cs[n].children, x);
      CountConcat(FlattenAll(cs[..n]), Flatten(cs[n]), x);
      CountConcat(FlattenAll(cs[n].children), [cs[n]], x);
      assert [cs[n]][..0] == [];
      assert CountId([cs[n]], x) == CountId([], x) + if cs[n].id == x then 1 else 0;
    }
  }
}
