/**
  The life of one listing: editing, publishing, exporting, fetching and deleting it
  (multichannel_product/models/product_channel.py and, for BigCommerce,
  multichannel_bigcommerce/models/product_channel.py and utils/bigcommerce_product_helper.py).
  Every reply of the store is an argument, so that a run ranges over all of them.
*/
module Listing {
  import opened Wrappers

  datatype Status = Draft | InProgress | Updated | Published | Error

  /** The record (until it is unlinked), and the products on the store that were made for it or linked to it. */
  datatype World = World(alive: bool, status: Status, ioc: Option<nat>, store: set<nat>)

  /**
    What comes back from creating a product. An exception loses the answer, even if the product was
    made; `saved` says whether the local update went through, `deleted` whether the clean-up did.
  */
  datatype PostReply = PostRaised(made: Option<nat>) | PostRefused | Posted(id: nat, saved: bool, deleted: bool)

  datatype DeleteReply = DeleteRaised | DeleteRefused | Deleted

  datatype FetchReply = FetchRaised | FetchRefused | Fetched(id: nat)

  /**
    The outcomes of an update, in the order in which they are asked for: fetching the product,
    updating it, posting each variant the store does not have, saving locally, fetching again.
  */
  datatype PutReply = PutReply(raised: bool, current: bool, template: bool, variants: seq<bool>, saved: bool,
    refetch: FetchReply)

  function Added(w: World, id: nat): World { w.(store := w.store + {id}) }

  /** `bigcommerce_post_record`: None when an exception escapes. */
  function PostRecord(w: World, r: PostReply, fromMaster: bool): Option<World> {
    match r
    case PostRaised(_) => None
    case PostRefused => Some(w.(status := Error))
    case Posted(id, saved, deleted) =>
      if saved then Some(Added(w, id).(ioc := Some(id), status := if fromMaster then w.status else Published))
      else Some(w.(ioc := None, status := Error, store := if deleted then w.store else w.store + {id}))
  }

  /** What remains when the transaction is rolled back: the record as it was, the store as it is. */
  function RolledBack(w: World, r: PostReply): World {
    match r
    case PostRaised(made) => if made.Some? then Added(w, made.value) else w
    case PostRefused => w
    case Posted(id, saved, deleted) => if saved || !deleted then Added(w, id) else w
  }

  /** `_push_to_channel`; `later` is an exception after the product was created. */
  function Push(w: World, r: PostReply, later: bool, fromMaster: bool): World {
    match PostRecord(w, r, fromMaster)
    case None => RolledBack(w, r)
    case Some(v) =>
      if v.ioc.Some? then (if later then RolledBack(w, r) else v.(status := Published))
      else if v.status == Error then v.(alive := false)
      else v
  }

  /** `_export_mapping_variants`: every refused variant writes an error. */
  function ExportVariants(w: World, replies: seq<bool>): World {
    if replies == [] then w
    else
      var before := ExportVariants(w, replies[..|replies| - 1]);
      if replies[|replies| - 1] then before else before.(status := Error)
  }

  /** `_save_post_export_data` after an accepted update. */
  function SavePostExport(w: World, saved: bool): World { w.(status := if saved then Published else Error) }

  /** `ProductMapping2ChannelExporter.do_export`. */
  function ExportMapping(w: World, r: PutReply): World {
    if !r.current || !r.template then w.(status := Error)
    else SavePostExport(ExportVariants(w, r.variants), r.saved)
  }

  /** `_put_to_channel`: an exception anywhere leaves the record as it was. */
  function Put(w: World, r: PutReply, fromMaster: bool): World {
    if r.raised then w
    else
      var v := ExportMapping(w, r);
      if v.status != Error || fromMaster then
        match r.refetch
        case FetchRaised => w
        case FetchRefused => v.(status := Error)
        case Fetched(id) => Added(v, id).(ioc := Some(id), status := if fromMaster then v.status else Published)
      else v
  }

  /** `write` on behalf of a user, with values that name neither the state nor the store ID. */
  function Edit(w: World, anything: bool, fromMaster: bool): World {
    if w.status == InProgress || fromMaster || !anything then w
    else
      match w.status
      case Published => w.(status := Updated)
      case Error => w.(status := if w.ioc.None? then Draft else Updated)
      case _ => w
  }

  /** `set_to_draft`. */
  function ToDraft(w: World, r: DeleteReply): World {
    if w.ioc.None? || w.status == Draft || w.status == InProgress then w
    else
      match r
      case DeleteRaised => w
      case DeleteRefused => w.(status := Error)
      case Deleted => w.(status := Draft, ioc := None, store := w.store - {w.ioc.value})
  }

  datatype Step =
    | EditStep(anything: bool, fromMaster: bool)
    | Import(id: nat)
    | Publish(post: PostReply, later: bool)
    | Schedule
    | PushStep(post: PostReply, later: bool, fromMaster: bool)
    | Export(put: PutReply)
    | CreateFromMaster(skus: bool, inJob: bool, post: PostReply, later: bool)
    | UpdateFromMaster(skus: bool, put: PutReply)
    | Withdraw(delete: DeleteReply)
    | Remove(delete: DeleteReply)

  predicate CanPost(w: World) { w.status == Draft || (w.ioc.None? && w.status == Error) }

  /** One step on a live record. */
  function Next(w: World, s: Step): World {
    if !w.alive then w
    else
      match s
      case EditStep(anything, fromMaster) => Edit(w, anything, fromMaster)
      case Import(id) => Added(w, id).(ioc := Some(id), status := Published)
      // the update branch calls a method the model does not have, and always raises
      case Publish(post, later) => if CanPost(w) then Push(w, post, later, false) else w
      case Schedule => if CanPost(w) then w.(status := InProgress) else w
      case PushStep(post, later, fromMaster) => Push(w, post, later, fromMaster)
      case Export(put) => Put(w, put, false)
      case CreateFromMaster(skus, inJob, post, later) =>
        if skus then Push(w, post, later, true)
        else w.(status := Error, alive := !inJob)
      case UpdateFromMaster(skus, put) => if skus then Put(w, put, true) else w.(status := Error)
      case Withdraw(delete) => ToDraft(w, delete)
      case Remove(delete) =>
        if delete == DeleteRaised && ToDraft(w, Deleted) != w then w else ToDraft(w, delete).(alive := false)
  }

  function Run(w: World, steps: seq<Step>): World {
    if steps == [] then w else Next(Run(w, steps[..|steps| - 1]), steps[|steps| - 1])
  }

  // ---- the record, changed in place ----

  class ProductChannel {
    var alive: bool
    var status: Status
    var ioc: Option<nat>
    var store: set<nat>

    function Current(): World
      reads this
    {
      World(alive, status, ioc, store)
    }

    constructor (w: World)
      ensures Current() == w
    {
      alive, status, ioc, store := w.alive, w.status, w.ioc, w.store;
    }

    method WriteErrors()
      modifies this`status
      ensures status == Error
    {
      status := Error;
    }

    method UpdateData(id: nat, fromMaster: bool)
      modifies this`ioc, this`status
      ensures ioc == Some(id) && status == if fromMaster then old(status) else Published
    {
      ioc := Some(id);
      if !fromMaster {
        status := Published;
      }
    }

    /** The product is on the store first; a local failure is followed by an attempt to delete it again. */
    method BigcommercePostRecord(r: PostReply, fromMaster: bool) returns (raised: bool)
      modifies this
      ensures match PostRecord(old(Current()), r, fromMaster)
              case None => raised && Current() == RolledBack(old(Current()), r)
              case Some(w) => !raised && Current() == w
    {
      raised := false;
      match r {
        case PostRaised(made) =>
          if made.Some? {
            store := store + {made.value};
          }
          raised := true;
        case PostRefused =>
          WriteErrors();
        case Posted(id, saved, deleted) =>
          if saved {
            store := store + {id};
            UpdateData(id, fromMaster);
          } else {
            if !deleted {
              store := store + {id};
              WriteErrors();
            }
            status, ioc := Error, None;
          }
      }
    }

    method PushToChannel(r: PostReply, later: bool, fromMaster: bool)
      modifies this
      ensures Current() == Push(old(Current()), r, later, fromMaster)
    {
      var before := Current();
      var raised := BigcommercePostRecord(r, fromMaster);
      if raised { return; }
      if ioc.Some? {
        if later {
          store := RolledBack(before, r).store;
          status, ioc := before.status, before.ioc;
          return;
        }
        status := Published;
      } else if status == Error {
        alive := false;
      }
    }

    method PutToChannel(r: PutReply, fromMaster: bool)
      modifies this
      ensures Current() == Put(old(Current()), r, fromMaster)
    {
      var before := Current();
      if r.raised { return; }
      if !r.current {
        WriteErrors();
      } else {
        if r.template {
          for i := 0 to |r.variants|
            invariant Current() == ExportVariants(before, r.variants[..i])
          {
            assert r.variants[..i + 1][..i] == r.variants[..i];
            if !r.variants[i] {
              WriteErrors();
            }
          }
          assert r.variants[..|r.variants|] == r.variants;
          VariantsWriteStatus(before, r.variants);
          status := if r.saved then Published else Error;
        } else {
          WriteErrors();
        }
      }
      if status != Error || fromMaster {
        match r.refetch {
          case FetchRaised => status := before.status;
          case FetchRefused => WriteErrors();
          case Fetched(id) =>
            store := store + {id};
            UpdateData(id, fromMaster);
        }
      }
    }

    method Write(anything: bool, fromMaster: bool) returns (refused: bool)
      modifies this`status
      ensures refused <==> old(status) == InProgress
      ensures Current() == Edit(old(Current()), anything, fromMaster)
    {
      if status == InProgress { return true; }
      if !fromMaster && anything {
        if status == Published {
          status := Updated;
        } else if status == Error {
          status := if ioc.None? then Draft else Updated;
        }
      }
      refused := false;
    }

    method SetToDraft(r: DeleteReply)
      modifies this
      ensures Current() == ToDraft(old(Current()), r)
    {
      if ioc.Some? && status != Draft && status != InProgress {
        var before := status;
        status := InProgress;
        match r {
          case DeleteRaised => status := before;
          case DeleteRefused => WriteErrors();
          case Deleted =>
            store := store - {ioc.value};
            status, ioc := Draft, None;
        }
      }
    }
  }

  // ---- main results ----

  /** What a user may rely on between steps. */
  predicate Sound(w: World) {
    w.alive ==>
      && (w.status == Published || w.status == Updated ==> w.ioc.Some?)
      && (w.status == Draft ==> w.ioc.None?)
  }

  lemma StepKeepsSound(w: World, s: Step)
    requires Sound(w)
    ensures Sound(Next(w, s))
  { }

  /**
    Over every run, whatever the store replies, at every step boundary: a published or updated
    listing has a store ID, a draft has none.
  */
  lemma {:induction false} RunKeepsSound(w: World, steps: seq<Step>)
    requires Sound(w)
    ensures Sound(Run(w, steps))
    ensures forall n :: 0 <= n <= |steps| ==> Sound(Run(w, steps[..n]))
  {
    if steps != [] {
      var front := steps[..|steps| - 1];
      RunKeepsSound(w, front);
      StepKeepsSound(Run(w, front), steps[|steps| - 1]);
      forall n | 0 <= n <= |steps| ensures Sound(Run(w, steps[..n])) {
        if n < |steps| {
          assert front[..n] == steps[..n];
        } else {
          assert steps[..n] == steps;
        }
      }
    } else {
      assert forall n :: n == 0 ==> steps[..n] == [];
    }
  }

  /** Products on the store that the record no longer (or never) points to. */
  function Strays(w: World): set<nat> {
    w.store - if w.alive && w.ioc.Some? then {w.ioc.value} else {}
  }

  predicate CleanPost(w: World, r: PostReply, later: bool) {
    match r
    case PostRaised(made) => made.None?
    case PostRefused => true
    case Posted(_, saved, deleted) => w.ioc.None? && if saved then !later else deleted
  }

  /** A fetched product is the listing's own, unless it had none. */
  predicate CleanFetch(w: World, r: FetchReply) { r.Fetched? ==> w.ioc.None? || w.ioc == Some(r.id) }

  predicate Refetches(r: PutReply, fromMaster: bool) {
    !r.raised && ((r.current && r.template && r.saved) || fromMaster)
  }

  /**
    The replies under which a step leaves nothing behind: no lost answer, no failure after a saved
    post, a failed save cleaned up, no linked ID replaced, no unlinking with the product still there.
  */
  predicate Clean(w: World, s: Step) {
    match s
    case Import(id) => CleanFetch(w, Fetched(id))
    case Publish(post, later) => CanPost(w) ==> CleanPost(w, post, later)
    case PushStep(post, later, _) => CleanPost(w, post, later)
    case CreateFromMaster(skus, inJob, post, later) => if skus then CleanPost(w, post, later) else inJob ==> w.ioc.None?
    case Export(put) => Refetches(put, false) ==> CleanFetch(w, put.refetch)
    case UpdateFromMaster(skus, put) => skus && Refetches(put, true) ==> CleanFetch(w, put.refetch)
    case Remove(delete) => w.ioc.Some? ==> !delete.DeleteRefused? && w.status != Draft && w.status != InProgress
    case _ => true
  }

  /** The store gives new products unused IDs, and a fetched product is the listing's own or unknown. */
  predicate FreshIds(w: World, s: Step) {
    match s
    case Import(id) => FreshFetch(w, Fetched(id))
    case Publish(post, _) => FreshPost(w, post)
    case PushStep(post, _, _) => FreshPost(w, post)
    case CreateFromMaster(_, _, post, _) => FreshPost(w, post)
    case Export(put) => FreshFetch(w, put.refetch)
    case UpdateFromMaster(_, put) => FreshFetch(w, put.refetch)
    case _ => true
  }

  predicate FreshPost(w: World, r: PostReply) {
    (r.Posted? ==> r.id !in w.store) && (r.PostRaised? && r.made.Some? ==> r.made.value !in w.store)
  }

  predicate FreshFetch(w: World, r: FetchReply) { r.Fetched? ==> w.ioc == Some(r.id) || r.id !in w.store }

  predicate OnStore(w: World) { w.ioc.Some? ==> w.ioc.value in w.store }

  lemma PushStrays(w: World, r: PostReply, later: bool, fromMaster: bool)
    requires w.alive && OnStore(w) && FreshPost(w, r)
    ensures var v := Push(w, r, later, fromMaster);
            OnStore(v) && (Strays(v) == {} <==> Strays(w) == {} && CleanPost(w, r, later))
  {
    var v := Push(w, r, later, fromMaster);
    assert Strays(w) <= Strays(v);
    if r.Posted? && w.ioc.Some? && !(r.saved && later) { assert w.ioc.value in Strays(v); }
    if r.Posted? && (if r.saved then later else !r.deleted) { assert r.id in Strays(v); }
    if r.PostRaised? && r.made.Some? { assert r.made.value in Strays(v); }
  }

  lemma PutStrays(w: World, r: PutReply, fromMaster: bool)
    requires w.alive && OnStore(w) && FreshFetch(w, r.refetch)
    ensures var v := Put(w, r, fromMaster);
            && OnStore(v)
            && (Strays(v) == {} <==> Strays(w) == {} && (Refetches(r, fromMaster) ==> CleanFetch(w, r.refetch)))
  {
    var v := Put(w, r, fromMaster);
    VariantsWriteStatus(w, r.variants);
    assert Strays(w) <= Strays(v);
    if Refetches(r, fromMaster) && !CleanFetch(w, r.refetch) { assert w.ioc.value in Strays(v); }
  }

  lemma StepStrays(w: World, s: Step)
    requires w.alive && OnStore(w) && FreshIds(w, s)
    ensures OnStore(Next(w, s))
    ensures Strays(Next(w, s)) == {} <==> Strays(w) == {} && Clean(w, s)
  {
    var v := Next(w, s);
    match s
    case Publish(post, later) => PushStrays(w, post, later, false);
    case PushStep(post, later, fromMaster) => PushStrays(w, post, later, fromMaster);
    case CreateFromMaster(skus, inJob, post, later) =>
      PushStrays(w, post, later, true);
      if !skus && inJob && w.ioc.Some? { assert w.ioc.value in Strays(v); }
    case Export(put) => PutStrays(w, put, false);
    case UpdateFromMaster(skus, put) => PutStrays(w, put, true);
    case Import(id) =>
      assert Strays(w) <= Strays(v);
      if !CleanFetch(w, Fetched(id)) { assert w.ioc.value in Strays(v); }
    case Remove(delete) =>
      assert Strays(w) <= Strays(v);
      if !Clean(w, s) { assert w.ioc.value in Strays(v); }
    case _ =>
  }

  predicate FreshRun(w: World, steps: seq<Step>) {
    steps == [] || (FreshRun(w, steps[..|steps| - 1]) && FreshIds(Run(w, steps[..|steps| - 1]), steps[|steps| - 1]))
  }

  /** Every step that finds the listing is clean. */
  ghost predicate CleanRun(w: World, steps: seq<Step>) {
    forall n :: 0 <= n < |steps| && Run(w, steps[..n]).alive ==> Clean(Run(w, steps[..n]), steps[n])
  }

  lemma CleanFront(w: World, steps: seq<Step>)
    requires steps != []
    ensures var front := steps[..|steps| - 1];
            CleanRun(w, steps)
            <==> CleanRun(w, front) && (Run(w, front).alive ==> Clean(Run(w, front), steps[|steps| - 1]))
  {
    var front := steps[..|steps| - 1];
    forall n | 0 <= n < |front| ensures front[..n] == steps[..n] && front[n] == steps[n] { }
  }

  /**
    Over every run from a listing without strays, whatever the store replies: no product is left on
    the store without a listing, if and only if every step was clean.
  */
  lemma {:induction false} RunStraysIff(w: World, steps: seq<Step>)
    requires OnStore(w) && Strays(w) == {} && FreshRun(w, steps)
    ensures OnStore(Run(w, steps))
    ensures Strays(Run(w, steps)) == {} <==> CleanRun(w, steps)
  {
    if steps != [] {
      var front := steps[..|steps| - 1];
      RunStraysIff(w, front);
      CleanFront(w, steps);
      if Run(w, front).alive { StepStrays(Run(w, front), steps[|steps| - 1]); }
    }
  }

  /** A publication that fails after the product was saved leaves it behind, and the draft can be published again. */
  lemma LateFailureStrays(w: World, id: nat)
    requires w.alive && w.status == Draft && w.ioc.None? && id !in w.store
    ensures var v := Next(w, Publish(Posted(id, true, false), true));
            id in Strays(v) && CanPost(v)
  { }

  // ---- what the state tells ----

  /** Refused variants change nothing but the state, and put it in error. */
  lemma {:induction false} VariantsWriteStatus(w: World, replies: seq<bool>)
    ensures ExportVariants(w, replies)
            == w.(status := if forall i :: 0 <= i < |replies| ==> replies[i] then w.status else Error)
  {
    if replies != [] {
      var front := replies[..|replies| - 1];
      VariantsWriteStatus(w, front);
      assert forall i :: 0 <= i < |front| ==> front[i] == replies[i];
    }
  }

  /** Saving overwrites what the variants wrote: whatever the store says to them, the export ends the same. */
  lemma VariantRepliesForgotten(w: World, r: PutReply, other: seq<bool>, fromMaster: bool)
    ensures Put(w, r, fromMaster) == Put(w, r.(variants := other), fromMaster)
  {
    VariantsWriteStatus(w, r.variants);
    VariantsWriteStatus(w, other);
  }

  predicate Refused(r: PutReply) { exists i :: 0 <= i < |r.variants| && !r.variants[i] }

  /** An exception rolls the record back. */
  predicate RolledBackPut(r: PutReply, fromMaster: bool) {
    r.raised || (Refetches(r, fromMaster) && r.refetch.FetchRaised?)
  }

  /**
    Exactly when a listing is shown as published although the store refused one of its variants: the
    product was fetched, updated, saved and fetched again without an error; or the export was rolled
    back and the listing had been published before.
  */
  lemma PublishedDespiteRefusalIff(w: World, r: PutReply, fromMaster: bool)
    ensures Put(w, r, fromMaster).status == Published && Refused(r)
            <==> Refused(r)
                 && if RolledBackPut(r, fromMaster) then w.status == Published
                    else r.current && r.template && r.saved && r.refetch.Fetched?
  {
    VariantsWriteStatus(w, r.variants);
  }

  /**
    A push ends published only after an accepted post, for every reply, exactly when the listing had no
    store ID before: otherwise a refusal is overwritten.
  */
  lemma PublishedMeansAcceptedIff(w: World)
    requires Sound(w) && w.alive
    ensures (forall r, later, fromMaster ::
               var v := Push(w, r, later, fromMaster);
               v.alive && v.status == Published ==> r.Posted? && r.saved && !later)
            <==> w.ioc.None?
  {
    if w.ioc.Some? {
      assert Push(w, PostRefused, false, false).status == Published;
    }
  }

  /**
    Publishing can change a listing exactly when it is a draft, or in error without a store ID. For an
    updated one, and for one in error with an ID, it calls a method the record does not have and raises.
  */
  lemma PublishActsIff(w: World)
    requires Sound(w) && w.alive
    ensures (exists post, later :: Next(w, Publish(post, later)) != w) <==> CanPost(w)
    ensures CanPost(w) <==> w.ioc.None? && (w.status == Draft || w.status == Error)
    ensures w.status == Updated ==> !CanPost(w) && Next(w, Schedule) == w
  {
    if CanPost(w) { assert !Next(w, Publish(PostRefused, false)).alive; }
  }

  // ---- what each step does ----

  /**
    A user's edit makes a published listing updated, and takes a listing out of error: to updated if the
    store has it, to draft otherwise. It changes nothing else, and nothing while the listing is in progress.
  */
  lemma EditOutcome(w: World, anything: bool, fromMaster: bool)
    ensures var v := Next(w, EditStep(anything, fromMaster));
            && v == w.(status := v.status)
            && (v.status != w.status <==>
                  w.alive && anything && !fromMaster && (w.status == Published || w.status == Error))
            && (v.status != w.status && w.status == Published ==> v.status == Updated)
            && (v.status != w.status && w.status == Error ==> v.status == if w.ioc.Some? then Updated else Draft)
  { }

  /**
    An accepted and saved post publishes the listing under the new ID; a refused one removes a listing that
    the store did not have; a local failure takes the product off the store again, if that works.
  */
  lemma PushOutcome(w: World, r: PostReply, fromMaster: bool)
    requires w.alive
    ensures var v := Next(w, PushStep(r, false, fromMaster));
            match r
            case PostRaised(made) =>
              v == w.(store := w.store + if made.Some? then {made.value} else {})
            case PostRefused =>
              if w.ioc.Some? then v == w.(status := Published) else v == w.(status := Error, alive := false)
            case Posted(id, saved, deleted) =>
              if saved then v == World(true, Published, Some(id), w.store + {id})
              else v == World(false, Error, None, if deleted then w.store else w.store + {id})
  { }

  /** A failure after a saved post leaves the record as it was, and the product on the store. */
  lemma LatePushOutcome(w: World, r: PostReply, fromMaster: bool)
    requires w.alive && r.Posted? && r.saved
    ensures Next(w, PushStep(r, true, fromMaster)) == w.(store := w.store + {r.id})
  { }

  /**
    An export: error if the product or its template cannot be updated or saved; otherwise the listing is
    fetched again and is published under the ID that comes back, or in error if the store has none.
  */
  lemma ExportOutcome(w: World, r: PutReply)
    requires w.alive && !r.raised
    ensures var v := Next(w, Export(r));
            if !r.current || !r.template || !r.saved then v == w.(status := Error)
            else match r.refetch
                 case FetchRaised => v == w
                 case FetchRefused => v == w.(status := Error)
                 case Fetched(id) => v == World(true, Published, Some(id), w.store + {id})
  {
    VariantsWriteStatus(w, r.variants);
  }

  /** An update from the master product also fetches the listing after an error, and leaves that error standing. */
  lemma MasterUpdateOutcome(w: World, r: PutReply)
    requires w.alive && !r.raised
    ensures var v := Next(w, UpdateFromMaster(true, r));
            var good := r.current && r.template && r.saved;
            match r.refetch
            case FetchRaised => v == w
            case FetchRefused => v == w.(status := Error)
            case Fetched(id) => v == World(true, if good then Published else Error, Some(id), w.store + {id})
  {
    VariantsWriteStatus(w, r.variants);
  }

  /** Withdrawing a listing: a draft without an ID once the store has deleted the product, in error if it refuses. */
  lemma WithdrawOutcome(w: World, r: DeleteReply)
    requires w.alive
    ensures var v := Next(w, Withdraw(r));
            if w.ioc.None? || w.status == Draft || w.status == InProgress || r == DeleteRaised then v == w
            else if r == DeleteRefused then v == w.(status := Error)
            else v == World(true, Draft, None, w.store - {w.ioc.value})
  { }
}
