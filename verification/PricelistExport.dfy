/**
  Export of a pricelist to the store (multichannel_bigcommerce/utils/bigcommerce_pricelist_helper.py).

  The store is adversarial: every request may succeed, be refused, get a 404, or take effect although
  no success reply arrives, and any reply body may be unreadable.
*/
module PricelistExport {
  import opened Wrappers

  /** `applied`: the request took effect; `readable`: the reply body can be parsed. */
  datatype Reply = Reply(ok: bool, notFound: bool, applied: bool, readable: bool)

  ghost predicate Honest(r: Reply, exists_: bool) {
    (r.ok ==> r.applied && !r.notFound && exists_) && (r.notFound ==> !r.applied) && (r.applied ==> exists_)
  }

  /** A price record; the store keeps one per key (variant and currency). */
  datatype Rule = Rule(key: nat, content: string)

  datatype Remote = Remote(name: string, active: bool, rules: map<nat, Rule>, groups: set<nat>)

  /** Requests on the pricelist resource itself. */
  datatype Event = Put(reply: Reply) | Post(reply: Reply)

  /** Upserting records one by one: the last one of a key wins. */
  function Upserted(m: map<nat, Rule>, rs: seq<Rule>): map<nat, Rule> {
    if rs == [] then m else Upserted(m, rs[..|rs| - 1])[rs[|rs| - 1].key := rs[|rs| - 1]]
  }

  lemma {:induction false} UpsertedConcat(m: map<nat, Rule>, a: seq<Rule>, b: seq<Rule>)
    ensures Upserted(m, a + b) == Upserted(Upserted(m, a), b)
    decreases |b|
  {
    if b == [] {
      assert a + b == a;
    } else {
      assert (a + b)[..|a + b| - 1] == a + b[..|b| - 1];
      UpsertedConcat(m, a, b[..|b| - 1]);
    }
  }

  /** What the fold means: a key holds its last rule `rs[i]`; a key without a rule holds what it held. */
  lemma {:induction false} LastWins(m: map<nat, Rule>, rs: seq<Rule>, i: nat)
    requires i < |rs| && forall j :: i < j < |rs| ==> rs[j].key != rs[i].key
    ensures rs[i].key in Upserted(m, rs) && Upserted(m, rs)[rs[i].key] == rs[i]
    decreases |rs|
  {
    if i < |rs| - 1 { LastWins(m, rs[..|rs| - 1], i); }
  }

  lemma {:induction false} OthersKept(m: map<nat, Rule>, rs: seq<Rule>, key: nat)
    requires forall i :: 0 <= i < |rs| ==> rs[i].key != key
    ensures key in Upserted(m, rs) <==> key in m
    ensures key in m ==> Upserted(m, rs)[key] == m[key]
    decreases |rs|
  {
    if rs != [] { OthersKept(m, rs[..|rs| - 1], key); }
  }

  /** `chunks`: consecutive slices of `n` elements, the last one possibly shorter. */
  function Chunks(rs: seq<Rule>, n: nat): seq<seq<Rule>>
    requires n > 0
    decreases |rs|
  {
    if rs == [] then [] else if |rs| <= n then [rs] else [rs[..n]] + Chunks(rs[n..], n)
  }

  function Joined(cs: seq<seq<Rule>>): seq<Rule> {
    if cs == [] then [] else Joined(cs[..|cs| - 1]) + cs[|cs| - 1]
  }

  lemma {:induction false} JoinedCons(c: seq<Rule>, cs: seq<seq<Rule>>)
    ensures Joined([c] + cs) == c + Joined(cs)
    decreases |cs|
  {
    if cs == [] {
      assert [c] + cs == [c] && [c][..0] == [];
      assert Joined([c]) == Joined([]) + c;
    } else {
      assert ([c] + cs)[..|cs|] == [c] + cs[..|cs| - 1];
      JoinedCons(c, cs[..|cs| - 1]);
    }
  }

  lemma {:induction false} ChunksJoin(rs: seq<Rule>, n: nat)
    requires n > 0
    ensures Joined(Chunks(rs, n)) == rs
    decreases |rs|
  {
    if |rs| > n {
      ChunksJoin(rs[n..], n);
      JoinedCons(rs[..n], Chunks(rs[n..], n));
    } else if rs != [] {
      assert [rs][..0] == [];
      assert Joined([rs]) == Joined([]) + rs;
    }
  }

  lemma {:induction false} ChunkSizes(rs: seq<Rule>, n: nat, k: nat)
    requires n > 0 && k < |Chunks(rs, n)|
    ensures 0 < |Chunks(rs, n)[k]| <= n
    ensures k < |Chunks(rs, n)| - 1 ==> |Chunks(rs, n)[k]| == n
    decreases |rs|
  {
    if |rs| > n && k > 0 { ChunkSizes(rs[n..], n, k - 1); }
  }

  /** Chunking loses nothing, reorders nothing, and respects the limit of the store. */
  lemma ChunksPartition(rs: seq<Rule>, n: nat)
    requires n > 0
    ensures Joined(Chunks(rs, n)) == rs
    ensures forall k :: 0 <= k < |Chunks(rs, n)| ==> 0 < |Chunks(rs, n)[k]| <= n
    ensures forall k :: 0 <= k < |Chunks(rs, n)| - 1 ==> |Chunks(rs, n)[k]| == n
  {
    ChunksJoin(rs, n);
    forall k | 0 <= k < |Chunks(rs, n)|
      ensures 0 < |Chunks(rs, n)[k]| <= n && (k < |Chunks(rs, n)| - 1 ==> |Chunks(rs, n)[k]| == n)
    {
      ChunkSizes(rs, n, k);
    }
  }

  /** The first `k` chunks are the first `k * n` elements. */
  lemma {:induction false} ChunkPrefix(rs: seq<Rule>, n: nat, k: nat)
    requires n > 0 && k <= |Chunks(rs, n)|
    ensures Joined(Chunks(rs, n)[..k]) == rs[..Min(k * n, |rs|)]
    decreases k
  {
    var cs := Chunks(rs, n);
    if k == 0 {
      assert cs[..0] == [];
    } else if |rs| <= n {
      assert k == 1 && cs[..1] == [rs] && [rs][..0] == [];
      assert Joined([rs]) == Joined([]) + rs;
    } else {
      var rest, m := rs[n..], (k - 1) * n;
      assert k * n == m + n && m >= 0;
      ChunkPrefix(rest, n, k - 1);
      assert cs[..k] == [rs[..n]] + Chunks(rest, n)[..k - 1];
      JoinedCons(rs[..n], Chunks(rest, n)[..k - 1]);
      assert rs[..n] + rest[..Min(m, |rest|)] == rs[..Min(m + n, |rs|)];
    }
  }

  const MAX_NUMBER_OF_RULES: nat := 1000

  /**
    The rules on the store after the chunk loop.  All chunks succeeded: the fold of all local rules.
    Chunk `sent` failed: the fold of exactly the chunks before it, plus that chunk if its request
    took effect without a success reply.
  */
  ghost predicate ChunksSent(data: seq<Rule>, remote: map<nat, Rule>, r: Reply, sent: nat) {
    var chunks := Chunks(data, MAX_NUMBER_OF_RULES);
    if r.ok then remote == Upserted(map[], data)
    else sent < |chunks| && remote == Upserted(map[], Joined(chunks[..if r.applied then sent + 1 else sent]))
  }

  /** The fold of the first `k` chunks' worth of rules. */
  function Sent(data: seq<Rule>, k: nat): map<nat, Rule> {
    Upserted(map[], data[..Min(k * MAX_NUMBER_OF_RULES, |data|)])
  }

  lemma SentNext(data: seq<Rule>, k: nat)
    requires k * MAX_NUMBER_OF_RULES < |data|
    ensures var i := k * MAX_NUMBER_OF_RULES;
            var end := Min(i + MAX_NUMBER_OF_RULES, |data|);
            Upserted(Sent(data, k), data[i..end]) == Sent(data, k + 1)
  {
    var i := k * MAX_NUMBER_OF_RULES;
    var end := Min(i + MAX_NUMBER_OF_RULES, |data|);
    UpsertedConcat(map[], data[..i], data[i..end]);
    assert data[..i] + data[i..end] == data[..end];
  }

  lemma StoppedAt(data: seq<Rule>, sent: nat, r: Reply, remote: map<nat, Rule>)
    requires sent * MAX_NUMBER_OF_RULES < |data| && !r.ok
    requires remote == Sent(data, if r.applied then sent + 1 else sent)
    ensures ChunksSent(data, remote, r, sent)
  {
    ChunkCount(data, MAX_NUMBER_OF_RULES, sent);
    ChunkPrefix(data, MAX_NUMBER_OF_RULES, if r.applied then sent + 1 else sent);
  }

  lemma AllSent(data: seq<Rule>, sent: nat, r: Reply)
    requires sent * MAX_NUMBER_OF_RULES >= |data| && r.ok
    ensures ChunksSent(data, Sent(data, sent), r, sent)
  {
    assert data[..|data|] == data;
  }

  lemma {:induction false} ChunkCount(rs: seq<Rule>, n: nat, k: nat)
    requires n > 0 && k * n < |rs|
    ensures k < |Chunks(rs, n)|
    decreases k
  {
    if k > 0 {
      assert k * n == (k - 1) * n + n && (k - 1) * n >= 0;
      ChunkCount(rs[n..], n, k - 1);
    }
  }

  function Min(a: nat, b: nat): nat { if a < b then a else b }

  // ----- The store -----

  function WithRules(lists: map<nat, Remote>, id: nat, rules: map<nat, Rule>): map<nat, Remote>
    requires id in lists
  {
    lists[id := lists[id].(rules := rules)]
  }

  /** `log`: the requests on pricelists; `replies`: what came back for their rules and assignments. */
  class Store {
    var lists: map<nat, Remote>
    var log: seq<Event>
    var replies: seq<Reply>
    var next: nat

    constructor ()
      ensures lists == map[] && log == [] && replies == []
    {
      lists, log, replies, next := map[], [], [], 0;
    }

    ghost predicate Valid()
      reads this
    {
      forall k :: k in lists ==> k < next
    }

    method AnyReply(exists_: bool) returns (r: Reply)
      ensures Honest(r, exists_)
    {
      var ok, notFound, applied, readable: bool := *, *, *, *;
      if ok && exists_ {
        r := Reply(true, false, true, readable);
      } else if notFound {
        r := Reply(false, true, false, readable);
      } else {
        r := Reply(false, false, applied && exists_, readable);
      }
    }

    method PutList(id: nat, name: string, active: bool) returns (r: Reply)
      requires Valid()
      modifies this`lists, this`log
      ensures Valid() && Honest(r, id in old(lists)) && log == old(log) + [Put(r)]
      ensures lists == if r.applied then old(lists)[id := old(lists)[id].(name := name, active := active)]
                  else old(lists)
    {
      r := AnyReply(id in lists);
      log := log + [Put(r)];
      if r.applied {
        lists := lists[id := lists[id].(name := name, active := active)];
      }
    }

    method PostList(name: string, active: bool) returns (r: Reply, id: nat)
      requires Valid()
      modifies this
      ensures Valid() && Honest(r, true) && log == old(log) + [Post(r)] && replies == old(replies)
      ensures id !in old(lists)
      ensures lists == if r.applied then old(lists)[id := Remote(name, active, map[], {})] else old(lists)
    {
      r := AnyReply(true);
      log := log + [Post(r)];
      id := next;
      if r.applied {
        lists := lists[id := Remote(name, active, map[], {})];
        next := next + 1;
      }
    }

    method RemoveAllRules(id: nat) returns (r: Reply)
      requires Valid()
      modifies this`lists, this`replies
      ensures Valid() && Honest(r, id in old(lists)) && replies == old(replies) + [r]
      ensures lists == if r.applied then WithRules(old(lists), id, map[]) else old(lists)
    {
      r := AnyReply(id in lists);
      replies := replies + [r];
      if r.applied { lists := WithRules(lists, id, map[]); }
    }

    method UpsertRecords(id: nat, chunk: seq<Rule>) returns (r: Reply)
      requires Valid() && |chunk| <= 1000
      modifies this`lists, this`replies
      ensures Valid() && Honest(r, id in old(lists)) && replies == old(replies) + [r]
      ensures lists == if r.applied then WithRules(old(lists), id, Upserted(old(lists)[id].rules, chunk))
                  else old(lists)
    {
      r := AnyReply(id in lists);
      replies := replies + [r];
      if r.applied { lists := WithRules(lists, id, Upserted(lists[id].rules, chunk)); }
    }

    method RemoveAllAssignments(id: nat) returns (r: Reply)
      requires Valid()
      modifies this`lists, this`replies
      ensures Valid() && Honest(r, id in old(lists)) && replies == old(replies) + [r]
      ensures lists == if r.applied then old(lists)[id := old(lists)[id].(groups := {})] else old(lists)
    {
      r := AnyReply(id in lists);
      replies := replies + [r];
      if r.applied { lists := lists[id := lists[id].(groups := {})]; }
    }

    method AssignAll(id: nat, groups: seq<nat>) returns (r: Reply)
      requires Valid()
      modifies this`lists, this`replies
      ensures Valid() && Honest(r, id in old(lists)) && replies == old(replies) + [r]
      ensures lists == if r.applied
                       then old(lists)[id := old(lists)[id].(groups := old(lists)[id].groups + set g | g in groups)]
                       else old(lists)
    {
      r := AnyReply(id in lists);
      replies := replies + [r];
      if r.applied { lists := lists[id := lists[id].(groups := lists[id].groups + set g | g in groups)]; }
    }
  }

  // ----- The workflow -----

  /** How a step ends: normally, with the workflow's HTTPError, or with any other exception. */
  datatype Outcome = Fine | HttpError | Escaped

  class Pricelist {
    const name: string
    const published: bool
    const rules: seq<Rule>
    const groups: seq<nat>
    var ioc: Option<nat>
    var needToExport: bool
    var inProgress: bool

    constructor (name: string, published: bool, rules: seq<Rule>, groups: seq<nat>, ioc: Option<nat>)
      ensures this.name == name && this.published == published && this.rules == rules && this.groups == groups
      ensures this.ioc == ioc && needToExport && inProgress
    {
      this.name, this.published, this.rules, this.groups := name, published, rules, groups;
      this.ioc, needToExport, inProgress := ioc, true, true;
    }

    /** The pricelist as it should be on the store. */
    function Local(): Remote {
      Remote(name, published, Upserted(map[], rules), set g | g in groups)
    }
  }

  /** A readable 404. */
  predicate Missing(r: Reply) { !r.ok && r.notFound && r.readable }

  /**
    The requests of one export: a POST if the list was never exported, else a PUT, which is followed
    by a POST exactly after a readable 404.
  */
  predicate RequestsMade(wasExported: bool, es: seq<Event>) {
    if wasExported then
      es != [] && es[0].Put? && if Missing(es[0].reply) then |es| == 2 && es[1].Post? else |es| == 1
    else
      |es| == 1 && es[0].Post?
  }

  /** How an export ends after these replies: the last one decides, and a new ID has to be read. */
  predicate EndsWith(o: Outcome, es: seq<Event>, replies: seq<Reply>)
    requires es != []
  {
    if replies == [] then
      var r := es[|es| - 1].reply;
      o == if !r.readable then Escaped else if r.ok then Fine else HttpError
    else
      var r := replies[|replies| - 1];
      o == if r.ok then Fine else if r.readable then HttpError else Escaped
  }

  /** All requests but the last went through. */
  predicate NoneButLast(replies: seq<Reply>) {
    forall k :: 0 <= k < |replies| - 1 ==> replies[k].ok
  }

  /** After `k` chunks that went through: their replies, and the last one. */
  ghost predicate SentSoFar(data: seq<Rule>, k: nat, news: seq<Reply>, r0: Reply, r: Reply) {
    && |news| == k && (k > 0 ==> (k - 1) * MAX_NUMBER_OF_RULES < |data|)
    && (forall i :: 0 <= i < k ==> news[i].ok)
    && r == if k == 0 then r0 else news[k - 1]
  }

  lemma OneMore(data: seq<Rule>, k: nat, news: seq<Reply>, r0: Reply, last: Reply, r: Reply)
    requires SentSoFar(data, k, news, r0, last) && k * MAX_NUMBER_OF_RULES < |data|
    ensures NoneButLast(news + [r]) && (r.ok ==> SentSoFar(data, k + 1, news + [r], r0, r))
  { }

  lemma AllReplied(data: seq<Rule>, k: nat, news: seq<Reply>, r0: Reply, r: Reply)
    requires SentSoFar(data, k, news, r0, r) && k * MAX_NUMBER_OF_RULES >= |data|
    ensures NoneButLast(news) && r == (if news == [] then r0 else news[|news| - 1])
    ensures |news| == |Chunks(data, MAX_NUMBER_OF_RULES)|
  {
    ChunksInAll(data, MAX_NUMBER_OF_RULES, k);
  }

  function AssignmentRequests(groups: seq<nat>): nat { if groups == [] then 1 else 2 }

  class Workflow {
    const pricelist: Pricelist
    const store: Store
    var errorMsgs: nat

    constructor (pricelist: Pricelist, store: Store)
      ensures this.pricelist == pricelist && this.store == store && errorMsgs == 0
    {
      this.pricelist, this.store, errorMsgs := pricelist, store, 0;
    }

    /** `_ensure_response_ok`: an unreadable error body raises before the HTTPError does. */
    method EnsureResponseOk(r: Reply) returns (o: Outcome)
      modifies this`errorMsgs
      ensures o == if r.ok then Fine else if r.readable then HttpError else Escaped
      ensures errorMsgs == old(errorMsgs) + if o == HttpError then 1 else 0
    {
      if r.ok { return Fine; }
      if !r.readable { return Escaped; }
      errorMsgs := errorMsgs + 1;
      return HttpError;
    }

    /** `_export_pricelist`, with `PricelistExporter`'s choice between PUT and POST. */
    method ExportPricelist() returns (o: Outcome, ghost es: seq<Event>)
      requires store.Valid()
      modifies this`errorMsgs, store, pricelist`ioc
      ensures store.Valid() && store.log == old(store.log) + es && store.replies == old(store.replies)
      ensures RequestsMade(old(pricelist.ioc).Some?, es) && EndsWith(o, es, [])
      ensures o.Fine? && es[|es| - 1].Put? ==>
                var id := old(pricelist.ioc).value;
                && pricelist.ioc == Some(id) && id in old(store.lists)
                && store.lists == old(store.lists)[id := old(store.lists)[id].(name := pricelist.name,
                                                                               active := pricelist.published)]
      ensures o.Fine? && es[|es| - 1].Post? ==>
                && pricelist.ioc.Some? && pricelist.ioc.value !in old(store.lists)
                && store.lists
                   == old(store.lists)[pricelist.ioc.value := Remote(pricelist.name, pricelist.published, map[], {})]
      ensures !o.Fine? ==> pricelist.ioc == old(pricelist.ioc)
      ensures o.Fine? ==> errorMsgs == old(errorMsgs)
      ensures o.HttpError? ==> errorMsgs == old(errorMsgs) + 1
    {
      var r: Reply;
      var id: nat;
      if pricelist.ioc.Some? {
        id := pricelist.ioc.value;
        r := store.PutList(id, pricelist.name, pricelist.published);
        es := [Put(r)];
        o := EnsureResponseOk(r);
        if o.HttpError? && r.notFound {
          errorMsgs := errorMsgs - 1;
          r, id := store.PostList(pricelist.name, pricelist.published);
          es := es + [Post(r)];
          o := EnsureResponseOk(r);
        }
      } else {
        r, id := store.PostList(pricelist.name, pricelist.published);
        es := [Post(r)];
        o := EnsureResponseOk(r);
      }
      if o.Fine? {
        if !r.readable {
          o := Escaped;
          return;
        }
        pricelist.ioc := Some(id);
      }
    }

    /** One round of the chunk loop. */
    method SendChunk(id: nat, k: nat) returns (r: Reply)
      requires store.Valid() && id in store.lists && k * MAX_NUMBER_OF_RULES < |pricelist.rules|
      requires store.lists[id].rules == Sent(pricelist.rules, k)
      modifies store`lists, store`replies
      ensures store.Valid() && Honest(r, true) && store.replies == old(store.replies) + [r]
      ensures store.lists == if r.applied then WithRules(old(store.lists), id, Sent(pricelist.rules, k + 1))
                  else old(store.lists)
    {
      var data, i := pricelist.rules, k * MAX_NUMBER_OF_RULES;
      SentNext(data, k);
      r := store.UpsertRecords(id, data[i..Min(i + MAX_NUMBER_OF_RULES, |data|)]);
    }

    /** The chunk loop of `PricelistRuleExporter._export_with`: upsert until one fails; `sent` chunks succeeded. */
    method ExportChunks(id: nat, r0: Reply) returns (r: Reply, ghost sent: nat, ghost news: seq<Reply>)
      requires store.Valid() && id in store.lists && store.lists[id].rules == map[] && r0.ok
      modifies store`lists, store`replies
      ensures store.Valid() && id in store.lists
      ensures store.lists == WithRules(old(store.lists), id, store.lists[id].rules)
      ensures ChunksSent(pricelist.rules, store.lists[id].rules, r, sent)
      ensures store.replies == old(store.replies) + news && NoneButLast(news)
      ensures r == if news == [] then r0 else news[|news| - 1]
      ensures r.ok ==> |news| == |Chunks(pricelist.rules, MAX_NUMBER_OF_RULES)|
    {
      var data, k := pricelist.rules, 0;
      r := r0;
      news := [];
      assert data[..0] == [];
      while k * MAX_NUMBER_OF_RULES < |data|
        invariant r.ok && SentSoFar(data, k, news, r0, r)
        invariant store.replies == old(store.replies) + news
        invariant store.Valid() && id in store.lists
        invariant store.lists == WithRules(old(store.lists), id, Sent(data, k))
        decreases |data| - k * MAX_NUMBER_OF_RULES
      {
        ghost var last := r;
        r := SendChunk(id, k);
        OneMore(data, k, news, r0, last, r);
        news := news + [r];
        if !r.ok {
          sent := k;
          StoppedAt(data, sent, r, store.lists[id].rules);
          return;
        }
        k := k + 1;
      }
      sent := k;
      AllSent(data, sent, r);
      AllReplied(data, k, news, r0, r);
    }

    /** `PricelistRuleExporter._export_with`: clear the rules of the list, then send the chunks. */
    method ExportRules() returns (r: Reply, ghost cleared: bool, ghost sent: nat, ghost news: seq<Reply>)
      requires store.Valid() && pricelist.ioc.Some? && pricelist.ioc.value in store.lists
      modifies store`lists, store`replies
      ensures store.Valid()
      ensures pricelist.ioc.value in store.lists
      ensures store.lists == WithRules(old(store.lists), pricelist.ioc.value, store.lists[pricelist.ioc.value].rules)
      ensures cleared ==> ChunksSent(pricelist.rules, store.lists[pricelist.ioc.value].rules, r, sent)
      ensures !cleared ==>
                && !r.ok
                && store.lists == if r.applied then WithRules(old(store.lists), pricelist.ioc.value, map[])
                    else old(store.lists)
      ensures store.replies == old(store.replies) + news && news != [] && NoneButLast(news) && r == news[|news| - 1]
      ensures r.ok ==> |news| == 1 + |Chunks(pricelist.rules, MAX_NUMBER_OF_RULES)|
    {
      var id := pricelist.ioc.value;
      r := store.RemoveAllRules(id);
      cleared, sent, news := r.ok, 0, [r];
      if r.ok {
        ghost var more: seq<Reply>;
        r, sent, more := ExportChunks(id, r);
        news := news + more;
      }
    }

    /** `PricelistAssignmentExporter._export_with`. */
    method ExportAssignments() returns (r: Reply, ghost news: seq<Reply>)
      requires store.Valid() && pricelist.ioc.Some? && pricelist.ioc.value in store.lists
      modifies store`lists, store`replies
      ensures var id := pricelist.ioc.value;
              && store.Valid() && id in store.lists
              && store.lists == old(store.lists)[id := old(store.lists)[id].(groups := store.lists[id].groups)]
              && (r.ok ==> store.lists[id].groups == set g | g in pricelist.groups)
      ensures store.replies == old(store.replies) + news && news != [] && NoneButLast(news) && r == news[|news| - 1]
      ensures r.ok ==> |news| == AssignmentRequests(pricelist.groups)
    {
      var id := pricelist.ioc.value;
      r := store.RemoveAllAssignments(id);
      news := [r];
      if r.ok && pricelist.groups != [] {
        r := store.AssignAll(id, pricelist.groups);
        news := news + [r];
      }
    }

    /** The body of the `with` statement of `do_export`. */
    method Attempt() returns (o: Outcome, ghost es: seq<Event>, ghost news: seq<Reply>)
      requires store.Valid()
      modifies this`errorMsgs, store, pricelist
      ensures store.Valid() && store.log == old(store.log) + es && store.replies == old(store.replies) + news
      ensures RequestsMade(old(pricelist.ioc).Some?, es) && NoneButLast(news) && EndsWith(o, es, news)
      ensures news != [] <==> es[|es| - 1].reply.ok && es[|es| - 1].reply.readable
      ensures o.Fine? ==> |news| == 1 + |Chunks(pricelist.rules, MAX_NUMBER_OF_RULES)|
                                    + AssignmentRequests(pricelist.groups)
      ensures o.Fine? ==>
                && errorMsgs == old(errorMsgs) && !pricelist.needToExport
                && pricelist.ioc.Some? && pricelist.ioc.value in store.lists
                && store.lists[pricelist.ioc.value] == pricelist.Local()
      ensures !o.Fine? ==> pricelist.needToExport == old(pricelist.needToExport)
      ensures o.HttpError? ==> errorMsgs == old(errorMsgs) + 1
    {
      o, es := ExportPricelist();
      news := [];
      if !o.Fine? { return; }
      var r, cleared, sent, forRules := ExportRules();
      o := EnsureResponseOk(r);
      news := forRules;
      if !o.Fine? { return; }
      ghost var forGroups: seq<Reply>;
      r, forGroups := ExportAssignments();
      o := EnsureResponseOk(r);
      news := news + forGroups;
      if !o.Fine? { return; }
      pricelist.needToExport := false;
    }

    /**
      `do_export`: whatever the store replies, the in-progress flag ends off and the requests are the
      ones that have to be made; need-to-export is cleared only when the store holds exactly the local
      pricelist, which it does when every request got a good reply; an error is logged exactly when the
      export stopped with an HTTPError.
    */
    method DoExport() returns (o: Outcome, logged: bool, ghost es: seq<Event>, ghost news: seq<Reply>)
      requires store.Valid() && errorMsgs == 0
      modifies this`errorMsgs, store, pricelist
      ensures !pricelist.inProgress
      ensures store.log == old(store.log) + es && store.replies == old(store.replies) + news
      ensures RequestsMade(old(pricelist.ioc).Some?, es) && NoneButLast(news) && EndsWith(o, es, news)
      ensures o.Fine? <==> es[|es| - 1].reply.ok && es[|es| - 1].reply.readable && forall r :: r in news ==> r.ok
      ensures o.Fine? ==> |news| == 1 + |Chunks(pricelist.rules, MAX_NUMBER_OF_RULES)|
                                    + AssignmentRequests(pricelist.groups)
      ensures o.Fine? ==>
                && !pricelist.needToExport && pricelist.ioc.Some? && pricelist.ioc.value in store.lists
                && store.lists[pricelist.ioc.value] == pricelist.Local()
      ensures !o.Fine? ==> pricelist.needToExport == old(pricelist.needToExport)
      ensures o.Fine? ==> !logged
      ensures o.HttpError? ==> logged
    {
      o, es, news := Attempt();
      logged := errorMsgs > 0;
      pricelist.inProgress := false;
    }
  }

  lemma AtLeastOne(a: nat, n: nat)
    ensures a == 0 || a * n >= n
  {
    if a > 0 { assert a * n == (a - 1) * n + n; }
  }

  /** `k` chunks are all of them. */
  lemma {:induction false} ChunksInAll(rs: seq<Rule>, n: nat, k: nat)
    requires n > 0 && k * n >= |rs| && (k > 0 ==> (k - 1) * n < |rs|)
    ensures k == |Chunks(rs, n)|
    decreases k
  {
    if k > 0 {
      assert k * n == (k - 1) * n + n;
      AtLeastOne(k - 1, n);
      if |rs| > n {
        assert (k - 1) * n == (k - 2) * n + n;
        ChunksInAll(rs[n..], n, k - 1);
      }
    }
  }

  function CountPosts(es: seq<Event>): nat {
    if es == [] then 0 else CountPosts(es[..|es| - 1]) + if es[|es| - 1].Post? then 1 else 0
  }

  /** One POST is sent if the list was never exported or its PUT got a readable 404, and none otherwise. */
  lemma PostsIff(wasExported: bool, es: seq<Event>)
    requires RequestsMade(wasExported, es)
    ensures CountPosts(es) == if wasExported && !Missing(es[0].reply) then 0 else 1
  {
    var front := es[..|es| - 1];
    if |es| == 2 {
      assert front[..0] == [];
      assert CountPosts(front) == CountPosts([]) + if front[0].Post? then 1 else 0;
    } else {
      assert front == [];
    }
  }
}
