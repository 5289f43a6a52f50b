/**
  The JSON form of job arguments (queue_job/fields.py): JobEncoder adds tagged objects for
  recordsets, dates, datetimes and XML elements, JobDecoder's object hook turns tagged objects back.
  JSON text and trees are identified (section 3 of RFC 8259), and a date, datetime or element
  is identified with the text it is written as.
*/
module JobCodec {
  import opened Wrappers

  datatype Value =
    | Null | Bool(b: bool) | Int(n: int) | Str(s: string)
    | List(items: seq<Value>) | Tuple(items: seq<Value>) | Dict(entries: seq<Member>)
    | Recordset(model: string, ids: seq<int>, uid: int, su: bool)
    | Date(iso: string) | Datetime(iso: string) | Element(xml: string)
    | Lazy(value: Value)
    | Unsupported

  datatype Json =
    | JNull | JBool(b: bool) | JInt(n: int) | JStr(s: string)
    | JArr(items: seq<Json>) | JObj(entries: seq<JMember>)

  datatype Member = Member(key: string, value: Value)

  datatype JMember = JMember(key: string, value: Json)

  datatype Error = NotSerializable | KeyMissing | WrongType

  /** The environment the decoder was given: its user and superuser flag. */
  datatype Env = Env(uid: int, su: bool)

  // ----- Encoding -----

  function Tagged(tag: string, rest: seq<JMember>): Json { JObj([JMember("_type", JStr(tag))] + rest) }

  function Encode(v: Value): Result<Json, Error>
    decreases v, 0
  {
    match v
    case Null => Ok(JNull)
    case Bool(b) => Ok(JBool(b))
    case Int(n) => Ok(JInt(n))
    case Str(s) => Ok(JStr(s))
    case List(items) => (match EncodeAll(items) case Ok(js) => Ok(JArr(js)) case Err(e) => Err(e))
    case Tuple(items) => (match EncodeAll(items) case Ok(js) => Ok(JArr(js)) case Err(e) => Err(e))
    case Dict(entries) => (match EncodeEntries(entries) case Ok(js) => Ok(JObj(js)) case Err(e) => Err(e))
    case Recordset(model, ids, uid, su) =>
      Ok(Tagged("odoo_recordset", [JMember("model", JStr(model)), JMember("ids", JArr(Ints(ids))),
                                   JMember("uid", JInt(uid)), JMember("su", JBool(su))]))
    case Datetime(iso) => Ok(Tagged("datetime_isoformat", [JMember("value", JStr(iso))]))
    case Date(iso) => Ok(Tagged("date_isoformat", [JMember("value", JStr(iso))]))
    case Element(xml) => Ok(Tagged("etree_element", [JMember("value", JStr(xml))]))
    case Lazy(value) => Encode(value)
    case Unsupported => Err(NotSerializable)
  }

  function Ints(ids: seq<int>): seq<Json> {
    seq(|ids|, i requires 0 <= i < |ids| => JInt(ids[i]))
  }

  function EncodeAll(vs: seq<Value>): Result<seq<Json>, Error>
    decreases vs, 1
  {
    if vs == [] then Ok([])
    else
      match (Encode(vs[0]), EncodeAll(vs[1..]))
      case (Ok(j), Ok(js)) => Ok([j] + js)
      case _ => Err(NotSerializable)
  }

  function EncodeEntries(es: seq<Member>): Result<seq<JMember>, Error>
    decreases es, 1
  {
    if es == [] then Ok([])
    else
      match (Encode(es[0].value), EncodeEntries(es[1..]))
      case (Ok(j), Ok(js)) => Ok([JMember(es[0].key, j)] + js)
      case _ => Err(NotSerializable)
  }

  // ----- Decoding -----

  function Lookup(es: seq<Member>, key: string): Option<Value> {
    if es == [] then None else if es[0].key == key then Some(es[0].value) else Lookup(es[1..], key)
  }

  function IntsOf(vs: seq<Value>): Option<seq<int>> {
    if vs == [] then Some([])
    else
      match (vs[0], IntsOf(vs[1..]))
      case (Int(n), Some(ns)) => Some([n] + ns)
      case _ => None
  }

  const RESERVED := {"odoo_recordset", "datetime_isoformat", "date_isoformat", "etree_element"}

  /** `env(user=..., su=...)`; a missing user keeps the environment's. */
  function UserOf(env: Env, uid: Option<Value>, su: Option<Value>): Result<Env, Error> {
    match (uid, su)
    case (Some(Int(u)), Some(Bool(b))) => Ok(Env(u, b))
    case (Some(Int(u)), None) => Ok(Env(u, false))
    case (Some(Int(u)), Some(Null)) => Ok(Env(u, false))
    case (None, None) => Ok(env)
    case (None, Some(Bool(b))) => Ok(Env(env.uid, b))
    case _ => Err(WrongType)
  }

  /** `object_hook`, called on every object once its members are decoded. */
  function Hook(env: Env, es: seq<Member>): Result<Value, Error> {
    var tag := Lookup(es, "_type");
    if tag == Some(Str("odoo_recordset")) then
      match (Lookup(es, "model"), Lookup(es, "ids"), UserOf(env, Lookup(es, "uid"), Lookup(es, "su")))
      case (Some(Str(model)), Some(List(items)), Ok(user)) =>
        (match IntsOf(items) case Some(ids) => Ok(Recordset(model, ids, user.uid, user.su)) case None => Err(WrongType))
      case (None, _, _) => Err(KeyMissing)
      case (_, None, _) => Err(KeyMissing)
      case _ => Err(WrongType)
    else if tag == Some(Str("datetime_isoformat")) then
      match Lookup(es, "value")
      case Some(Str(s)) => Ok(Datetime(s))
      case None => Err(KeyMissing)
      case _ => Err(WrongType)
    else if tag == Some(Str("date_isoformat")) then
      match Lookup(es, "value") case Some(Str(s)) => Ok(Date(s)) case None => Err(KeyMissing) case _ => Err(WrongType)
    else if tag == Some(Str("etree_element")) then
      match Lookup(es, "value")
      case Some(Str(s)) => Ok(Element(s))
      case None => Err(KeyMissing)
      case _ => Err(WrongType)
    else Ok(Dict(es))
  }

  function Decode(env: Env, j: Json): Result<Value, Error>
    decreases j, 0
  {
    match j
    case JNull => Ok(Null)
    case JBool(b) => Ok(Bool(b))
    case JInt(n) => Ok(Int(n))
    case JStr(s) => Ok(Str(s))
    case JArr(items) => (match DecodeAll(env, items) case Ok(vs) => Ok(List(vs)) case Err(e) => Err(e))
    case JObj(entries) => (match DecodeEntries(env, entries) case Ok(es) => Hook(env, es) case Err(e) => Err(e))
  }

  function DecodeAll(env: Env, js: seq<Json>): Result<seq<Value>, Error>
    decreases js, 1
  {
    if js == [] then Ok([])
    else
      match Decode(env, js[0])
      case Err(e) => Err(e)
      case Ok(v) => match DecodeAll(env, js[1..]) case Ok(vs) => Ok([v] + vs) case Err(e) => Err(e)
  }

  function DecodeEntries(env: Env, js: seq<JMember>): Result<seq<Member>, Error>
    decreases js, 1
  {
    if js == [] then Ok([])
    else
      match Decode(env, js[0].value)
      case Err(e) => Err(e)
      case Ok(v) =>
        match DecodeEntries(env, js[1..])
        case Ok(es) => Ok([Member(js[0].key, v)] + es)
        case Err(e) => Err(e)
  }

  // ----- What comes back -----

  /** The value a round trip should give: tuples become lists, lazy values are forced. */
  function Normal(v: Value): Value
    decreases v, 0
  {
    match v
    case List(items) => List(NormalAll(items))
    case Tuple(items) => List(NormalAll(items))
    case Dict(entries) => Dict(NormalEntries(entries))
    case Lazy(value) => Normal(value)
    case _ => v
  }

  function NormalAll(vs: seq<Value>): seq<Value>
    decreases vs, 1
  {
    if vs == [] then [] else [Normal(vs[0])] + NormalAll(vs[1..])
  }

  function NormalEntries(es: seq<Member>): seq<Member>
    decreases es, 1
  {
    if es == [] then [] else [Member(es[0].key, Normal(es[0].value))] + NormalEntries(es[1..])
  }

  /** The dictionary would be taken for a tagged object. */
  predicate LooksTagged(es: seq<Member>) {
    match Lookup(es, "_type") case Some(v) => v.Str? && v.s in RESERVED case None => false
  }

  /** No dictionary anywhere in the value carries a reserved tag under `_type`. */
  predicate Untagged(v: Value)
    decreases v, 0
  {
    match v
    case List(items) => UntaggedAll(items)
    case Tuple(items) => UntaggedAll(items)
    case Dict(entries) => UntaggedEntries(entries) && !LooksTagged(NormalEntries(entries))
    case Lazy(value) => Untagged(value)
    case _ => true
  }

  predicate UntaggedAll(vs: seq<Value>)
    decreases vs, 1
  {
    vs == [] || (Untagged(vs[0]) && UntaggedAll(vs[1..]))
  }

  predicate UntaggedEntries(es: seq<Member>)
    decreases es, 1
  {
    es == [] || (Untagged(es[0].value) && UntaggedEntries(es[1..]))
  }

  function IntValues(ids: seq<int>): seq<Value> {
    seq(|ids|, i requires 0 <= i < |ids| => Int(ids[i]))
  }

  lemma {:induction false} IntsDecode(env: Env, ids: seq<int>)
    ensures DecodeAll(env, Ints(ids)) == Ok(IntValues(ids))
    decreases |ids|
  {
    if ids != [] {
      IntsDecode(env, ids[1..]);
      assert Ints(ids)[1..] == Ints(ids[1..]);
      assert Decode(env, Ints(ids)[0]) == Ok(Int(ids[0]));
      assert IntValues(ids) == [Int(ids[0])] + IntValues(ids[1..]);
      assert Ints(ids) != [];
    } else {
      assert Ints(ids) == [] && IntValues(ids) == [];
    }
  }

  lemma {:induction false} IntsBack(ids: seq<int>)
    ensures IntsOf(IntValues(ids)) == Some(ids)
    decreases |ids|
  {
    if ids != [] {
      IntsBack(ids[1..]);
      assert IntValues(ids)[1..] == IntValues(ids[1..]);
      assert ids == [ids[0]] + ids[1..];
    }
  }

  lemma DecodeCons(env: Env, key: string, j: Json, v: Value, js: seq<JMember>, es: seq<Member>)
    requires Decode(env, j) == Ok(v) && DecodeEntries(env, js) == Ok(es)
    ensures DecodeEntries(env, [JMember(key, j)] + js) == Ok([Member(key, v)] + es)
  {
    assert ([JMember(key, j)] + js)[1..] == js;
  }

  lemma LookupCons(m: Member, es: seq<Member>, key: string)
    ensures Lookup([m] + es, key) == if m.key == key then Some(m.value) else Lookup(es, key)
  {
    assert ([m] + es)[1..] == es;
  }

  lemma SingleBack(env: Env, tag: string, s: string)
    ensures var es := [Member("_type", Str(tag))] + ([Member("value", Str(s))] + []);
            && DecodeEntries(env, [JMember("_type", JStr(tag)), JMember("value", JStr(s))]) == Ok(es)
            && Lookup(es, "_type") == Some(Str(tag)) && Lookup(es, "value") == Some(Str(s))
  {
    var t, m := Member("_type", Str(tag)), Member("value", Str(s));
    DecodeCons(env, "value", JStr(s), Str(s), [], []);
    DecodeCons(env, "_type", JStr(tag), Str(tag), [JMember("value", JStr(s))] + [], [m] + []);
    assert [JMember("_type", JStr(tag)), JMember("value", JStr(s))]
        == [JMember("_type", JStr(tag))] + ([JMember("value", JStr(s))] + []);
    LookupCons(t, [m] + [], "_type");
    LookupCons(t, [m] + [], "value");
    LookupCons(m, [], "value");
  }

  lemma RecordsetEntries(env: Env, v: Value)
    requires v.Recordset?
    ensures Encode(v).Ok? && Encode(v).value.JObj?
    ensures DecodeEntries(env, Encode(v).value.entries)
         == Ok(RecordsetMembers(v.model, List(IntValues(v.ids)), v.uid, v.su))
  {
    IntsDecode(env, v.ids);
    var tag, model, ids := JStr("odoo_recordset"), JStr(v.model), JArr(Ints(v.ids));
    var js := [JMember("_type", tag)] + ([JMember("model", model)] + ([JMember("ids", ids)]
              + ([JMember("uid", JInt(v.uid))] + ([JMember("su", JBool(v.su))] + []))));
    FiveDecode(env, tag, model, ids, JInt(v.uid), JBool(v.su), v.model, List(IntValues(v.ids)), v.uid, v.su);
    assert Encode(v).value.entries == js;
  }

  lemma RecordsetBack(env: Env, v: Value)
    requires v.Recordset?
    ensures Decode(env, Encode(v).value) == Ok(v)
  {
    IntsBack(v.ids);
    RecordsetEntries(env, v);
    RecordsetLookups(v.model, List(IntValues(v.ids)), v.uid, v.su);
  }

  /** The dictionary a recordset is written as, with `list` for its IDs. */
  function RecordsetMembers(model: string, list: Value, uid: int, su: bool): seq<Member> {
    [Member("_type", Str("odoo_recordset"))] + ([Member("model", Str(model))] + ([Member("ids", list)]
    + ([Member("uid", Int(uid))] + ([Member("su", Bool(su))] + []))))
  }

  lemma FiveDecode(env: Env, j0: Json, j1: Json, j2: Json, j3: Json, j4: Json, model: string, list: Value, uid: int,
                   su: bool)
    requires Decode(env, j0) == Ok(Str("odoo_recordset")) && Decode(env, j1) == Ok(Str(model))
             && Decode(env, j2) == Ok(list)
    requires Decode(env, j3) == Ok(Int(uid)) && Decode(env, j4) == Ok(Bool(su))
    ensures DecodeEntries(env, [JMember("_type", j0)] + ([JMember("model", j1)] + ([JMember("ids", j2)]
                               + ([JMember("uid", j3)] + ([JMember("su", j4)] + [])))))
                                 == Ok(RecordsetMembers(model, list, uid, su))
  {
    var s4, e4 := [JMember("su", j4)] + [], [Member("su", Bool(su))] + [];
    var s3, e3 := [JMember("uid", j3)] + s4, [Member("uid", Int(uid))] + e4;
    var s2, e2 := [JMember("ids", j2)] + s3, [Member("ids", list)] + e3;
    var s1, e1 := [JMember("model", j1)] + s2, [Member("model", Str(model))] + e2;
    DecodeCons(env, "su", j4, Bool(su), [], []);
    DecodeCons(env, "uid", j3, Int(uid), s4, e4);
    DecodeCons(env, "ids", j2, list, s3, e3);
    DecodeCons(env, "model", j1, Str(model), s2, e2);
    DecodeCons(env, "_type", j0, Str("odoo_recordset"), s1, e1);
  }

  lemma RecordsetLookups(model: string, list: Value, uid: int, su: bool)
    ensures var es := RecordsetMembers(model, list, uid, su);
            && Lookup(es, "_type") == Some(Str("odoo_recordset")) && Lookup(es, "model") == Some(Str(model))
            && Lookup(es, "ids") == Some(list) && Lookup(es, "uid") == Some(Int(uid))
            && Lookup(es, "su") == Some(Bool(su))
  {
    var e4 := [Member("su", Bool(su))] + [];
    var e3 := [Member("uid", Int(uid))] + e4;
    var e2 := [Member("ids", list)] + e3;
    var e1 := [Member("model", Str(model))] + e2;
    forall key: string
      ensures Lookup(RecordsetMembers(model, list, uid, su), key)
              == if key == "_type" then Some(Str("odoo_recordset")) else if key == "model" then Some(Str(model))
                 else if key == "ids" then Some(list) else if key == "uid" then Some(Int(uid))
                 else if key == "su" then Some(Bool(su)) else None
    {
      LookupCons(Member("_type", Str("odoo_recordset")), e1, key);
      LookupCons(Member("model", Str(model)), e2, key);
      LookupCons(Member("ids", list), e3, key);
      LookupCons(Member("uid", Int(uid)), e4, key);
      LookupCons(Member("su", Bool(su)), [], key);
    }
  }

  /** The object hook keeps a dictionary exactly when it does not look tagged. */
  lemma HookKeepsIff(env: Env, es: seq<Member>)
    ensures Hook(env, es) == Ok(Dict(es)) <==> !LooksTagged(es)
    ensures Hook(env, es).Ok? && Hook(env, es).value.Dict? ==> Hook(env, es) == Ok(Dict(es))
  { }

  /**
    For every serializable value of the supported kinds, nested to any depth: decoding its encoding
    gives it back, with tuples as lists, if and only if no dictionary in it carries a reserved tag.
  */
  lemma {:induction false} RoundTripIff(env: Env, v: Value)
    requires Encode(v).Ok?
    ensures Decode(env, Encode(v).value) == Ok(Normal(v)) <==> Untagged(v)
    decreases v, 0
  {
    match v
    case List(items) => RoundTripAll(env, items);
    case Tuple(items) => RoundTripAll(env, items);
    case Dict(entries) =>
      RoundTripEntries(env, entries);
      DictBack(env, entries);
    case Recordset(_, _, _, _) => RecordsetBack(env, v);
    case Datetime(_) => TextBack(env, v);
    case Date(_) => TextBack(env, v);
    case Element(_) => TextBack(env, v);
    case Lazy(value) => RoundTripIff(env, value);
    case _ =>
  }

  lemma {:induction false} RoundTripAll(env: Env, vs: seq<Value>)
    requires EncodeAll(vs).Ok?
    ensures DecodeAll(env, EncodeAll(vs).value) == Ok(NormalAll(vs)) <==> UntaggedAll(vs)
    decreases vs, 1
  {
    if vs != [] {
      RoundTripIff(env, vs[0]);
      RoundTripAll(env, vs[1..]);
      var js := EncodeAll(vs).value;
      assert js[0] == Encode(vs[0]).value && js[1..] == EncodeAll(vs[1..]).value;
      var d := DecodeAll(env, js);
      if d.Ok? {
        assert d.value[0] == Decode(env, js[0]).value && d.value[1..] == DecodeAll(env, js[1..]).value;
        assert NormalAll(vs)[0] == Normal(vs[0]) && NormalAll(vs)[1..] == NormalAll(vs[1..]);
      }
    }
  }

  lemma TextBack(env: Env, v: Value)
    requires v.Datetime? || v.Date? || v.Element?
    ensures Encode(v).Ok? && Decode(env, Encode(v).value) == Ok(v)
  {
    match v
    case Datetime(iso) => SingleBack(env, "datetime_isoformat", iso);
    case Date(iso) => SingleBack(env, "date_isoformat", iso);
    case Element(xml) => SingleBack(env, "etree_element", xml);
  }

  lemma DictBack(env: Env, es: seq<Member>)
    requires EncodeEntries(es).Ok?
    requires DecodeEntries(env, EncodeEntries(es).value) == Ok(NormalEntries(es)) <==> UntaggedEntries(es)
    ensures Decode(env, Encode(Dict(es)).value) == Ok(Normal(Dict(es))) <==> Untagged(Dict(es))
  {
    HookKeepsIff(env, NormalEntries(es));
    var back := DecodeEntries(env, EncodeEntries(es).value);
    if back.Ok? { HookKeepsIff(env, back.value); }
  }

  lemma {:induction false} RoundTripEntries(env: Env, es: seq<Member>)
    requires EncodeEntries(es).Ok?
    ensures DecodeEntries(env, EncodeEntries(es).value) == Ok(NormalEntries(es)) <==> UntaggedEntries(es)
    decreases es, 1
  {
    if es != [] {
      RoundTripIff(env, es[0].value);
      RoundTripEntries(env, es[1..]);
      var js := EncodeEntries(es).value;
      assert js[0] == JMember(es[0].key, Encode(es[0].value).value) && js[1..] == EncodeEntries(es[1..]).value;
      var d := DecodeEntries(env, js);
      if d.Ok? {
        assert d.value[0] == Member(js[0].key, Decode(env, js[0].value).value)
          && d.value[1..] == DecodeEntries(env, js[1..]).value;
        assert NormalEntries(es)[0] == Member(es[0].key, Normal(es[0].value))
          && NormalEntries(es)[1..] == NormalEntries(es[1..]);
      }
    }
  }

  /** Encoding fails exactly when something unsupported occurs in the value. */
  predicate Serializable(v: Value)
    decreases v
  {
    match v
    case List(items) => forall x :: x in items ==> Serializable(x)
    case Tuple(items) => forall x :: x in items ==> Serializable(x)
    case Dict(entries) => forall e :: e in entries ==> Serializable(e.value)
    case Lazy(value) => Serializable(value)
    case Unsupported => false
    case _ => true
  }

  lemma {:induction false} EncodeSucceedsIff(v: Value)
    ensures Encode(v).Ok? <==> Serializable(v)
    decreases v, 0
  {
    match v
    case List(items) => EncodeAllSucceedsIff(items);
    case Tuple(items) => EncodeAllSucceedsIff(items);
    case Dict(entries) => EncodeEntriesSucceedsIff(entries);
    case Lazy(value) => EncodeSucceedsIff(value);
    case _ =>
  }

  lemma {:induction false} EncodeAllSucceedsIff(vs: seq<Value>)
    ensures EncodeAll(vs).Ok? <==> forall x :: x in vs ==> Serializable(x)
    decreases vs, 1
  {
    if vs != [] {
      EncodeSucceedsIff(vs[0]);
      EncodeAllSucceedsIff(vs[1..]);
    }
  }

  lemma {:induction false} EncodeEntriesSucceedsIff(es: seq<Member>)
    ensures EncodeEntries(es).Ok? <==> forall e :: e in es ==> Serializable(e.value)
    decreases es, 1
  {
    if es != [] {
      EncodeSucceedsIff(es[0].value);
      EncodeEntriesSucceedsIff(es[1..]);
    }
  }

  // ----- Recordsets that name no user -----

  function Plain(model: string, ids: seq<int>): seq<Member> {
    [Member("_type", Str("odoo_recordset"))]
    + ([Member("model", Str(model))] + ([Member("ids", List(IntValues(ids)))] + []))
  }

  lemma PlainLookups(model: string, ids: seq<int>)
    ensures var es := Plain(model, ids);
            && Lookup(es, "_type") == Some(Str("odoo_recordset")) && Lookup(es, "model") == Some(Str(model))
            && Lookup(es, "ids") == Some(List(IntValues(ids)))
            && Lookup(es, "uid") == None && Lookup(es, "su") == None
  {
    var e2 := [Member("ids", List(IntValues(ids)))] + [];
    var e1 := [Member("model", Str(model))] + e2;
    forall key: string
      ensures Lookup(Plain(model, ids), key)
              == if key == "_type" then Some(Str("odoo_recordset")) else if key == "model" then Some(Str(model))
                 else if key == "ids" then Some(List(IntValues(ids))) else None
    {
      LookupCons(Member("_type", Str("odoo_recordset")), e1, key);
      LookupCons(Member("model", Str(model)), e2, key);
      LookupCons(Member("ids", List(IntValues(ids))), [], key);
    }
  }

  /** It comes back for the decoder's user, as superuser if the decoder is. */
  lemma NoUserIsDecoders(env: Env, model: string, ids: seq<int>)
    ensures Hook(env, Plain(model, ids)) == Ok(Recordset(model, ids, env.uid, env.su))
  {
    PlainLookups(model, ids);
    IntsBack(ids);
  }

  /** With a user but no superuser flag it comes back without superuser rights, whoever decodes it. */
  lemma NoFlagIsNoSuperuser(env: Env, model: string, ids: seq<int>, uid: int)
    ensures Hook(env, [Member("uid", Int(uid))] + Plain(model, ids)) == Ok(Recordset(model, ids, uid, false))
  {
    PlainLookups(model, ids);
    IntsBack(ids);
    forall key: string
      ensures Lookup([Member("uid", Int(uid))] + Plain(model, ids), key)
              == if key == "uid" then Some(Int(uid)) else Lookup(Plain(model, ids), key)
    {
      LookupCons(Member("uid", Int(uid)), Plain(model, ids), key);
    }
  }
}
