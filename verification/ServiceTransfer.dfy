/**
  Transfers of deliverable services (multichannel_fulfillment/models/stock_service_picking.py,
  stock_service_move.py and sale_order.py, and the move generation of
  multichannel_order/models/sale_order.py), for one sale order and one unit of measure.
*/
module ServiceTransfer {
  import opened Wrappers
  import S = ShipmentAllocation

  datatype MoveState = Draft | Done | Cancel

  /** `demand` is the planned quantity, `done` the quantity entered. */
  datatype Move = Move(id: nat, line: nat, product: nat, picking: nat, demand: real, done: real, state: MoveState)

  datatype Line = Line(id: nat, product: nat, ordered: real, deliverable: bool, delivered: real)

  datatype State = State(lines: seq<Line>, moves: seq<Move>, nextPicking: nat, nextMove: nat)

  datatype Outcome = NoItems | InvalidQuantity | AskImmediate | Confirmed

  // ---- quantities of a sale line ----

  function Weight(m: Move): real {
    match m.state
    case Draft => m.demand
    case Done => m.done
    case Cancel => 0.0
  }

  /** `_get_assigned_service_qty`: open demand plus quantity done. */
  function Assigned(moves: seq<Move>, line: nat): real {
    if moves == [] then 0.0
    else
      var m := moves[|moves| - 1];
      Assigned(moves[..|moves| - 1], line) + if m.line == line then Weight(m) else 0.0
  }

  /** What `calculate_shipped_service_quantity` writes. */
  function DoneSum(moves: seq<Move>, line: nat): real {
    if moves == [] then 0.0
    else
      var m := moves[|moves| - 1];
      DoneSum(moves[..|moves| - 1], line) + if m.line == line && m.state.Done? then m.done else 0.0
  }

  predicate Short(moves: seq<Move>, l: Line) {
    l.deliverable && Assigned(moves, l.id) < l.ordered
  }

  // ---- the effects ----

  function FinishMove(m: Move, picking: nat, full: bool): Move {
    if m.picking != picking || !m.state.Draft? then m
    else if m.done != 0.0 then m.(state := Done)
    else if full then m.(done := m.demand, state := Done)
    else m.(state := Cancel)
  }

  function Finished(moves: seq<Move>, picking: nat, full: bool): (r: seq<Move>)
    ensures |r| == |moves|
  {
    seq(|moves|, i requires 0 <= i < |moves| => FinishMove(moves[i], picking, full))
  }

  function CancelMove(m: Move, picking: nat, keepDone: bool): Move {
    if m.picking == picking && !(keepDone && m.state.Done?) then m.(state := Cancel) else m
  }

  function Cancelled(moves: seq<Move>, picking: nat, keepDone: bool): (r: seq<Move>)
    ensures |r| == |moves|
  {
    seq(|moves|, i requires 0 <= i < |moves| => CancelMove(moves[i], picking, keepDone))
  }

  predicate Has(moves: seq<Move>, picking: nat, line: nat) {
    exists m :: m in moves && m.picking == picking && m.line == line
  }

  function Recompute(l: Line, moves: seq<Move>, picking: nat): Line {
    if l.deliverable && Has(moves, picking, l.id) then l.(delivered := DoneSum(moves, l.id)) else l
  }

  /** Delivered quantities after a transfer was processed: only its own sale lines are looked at. */
  function Recomputed(lines: seq<Line>, moves: seq<Move>, picking: nat): (r: seq<Line>)
    ensures |r| == |lines|
  {
    seq(|lines|, i requires 0 <= i < |lines| => Recompute(lines[i], moves, picking))
  }

  function NewMove(l: Line, moves: seq<Move>, picking: nat, id: nat): Move {
    var missing := l.ordered - Assigned(moves, l.id);
    Move(id, l.id, l.product, picking, if missing > 0.0 then missing else 0.0, 0.0, Draft)
  }

  /** `_generate_service_move_values` for the short lines, as records in `picking`. */
  function NewMoves(lines: seq<Line>, moves: seq<Move>, picking: nat, id: nat): seq<Move> {
    if lines == [] then []
    else
      var l := lines[|lines| - 1];
      var front := NewMoves(lines[..|lines| - 1], moves, picking, id);
      if Short(moves, l) then front + [NewMove(l, moves, picking, id + |front|)] else front
  }

  predicate Invalid(moves: seq<Move>, picking: nat) {
    exists m :: m in moves && m.picking == picking && m.state.Draft? && m.done < 0.0
  }

  /** `action_done`; a negative quantity raises, and nothing stays. */
  function ActionDone(st: State, picking: nat, full: bool): Option<State> {
    if Invalid(st.moves, picking) then None
    else
      var moves := Finished(st.moves, picking, full);
      Some(st.(moves := moves, lines := Recomputed(st.lines, moves, picking)))
  }

  /** The backorder: a new transfer for every short line. */
  function Backorder(st: State): State {
    if exists l :: l in st.lines && Short(st.moves, l) then
      var extra := NewMoves(st.lines, st.moves, st.nextPicking, st.nextMove);
      st.(moves := st.moves + extra, nextPicking := st.nextPicking + 1, nextMove := st.nextMove + |extra|)
    else st
  }

  predicate InPicking(moves: seq<Move>, picking: nat) { exists m :: m in moves && m.picking == picking }

  predicate NothingDemanded(moves: seq<Move>, picking: nat) {
    forall m :: m in moves && m.picking == picking ==> m.demand == 0.0
  }

  predicate NothingEntered(moves: seq<Move>, picking: nat) {
    forall m :: m in moves && m.picking == picking && m.state.Draft? ==> m.done == 0.0
  }

  /** `action_confirm`. */
  function ActionConfirm(st: State, picking: nat): (r: (Outcome, State)) {
    if !InPicking(st.moves, picking) || NothingDemanded(st.moves, picking) then (NoItems, st)
    else if NothingEntered(st.moves, picking) then (AskImmediate, st)
    else
      match ActionDone(st, picking, false)
      case None => (InvalidQuantity, st)
      case Some(done) => (Confirmed, Backorder(done))
  }

  /** `process` of the immediate-transfer wizard. */
  function Immediate(st: State, picking: nat): State {
    match ActionDone(st, picking, true)
    case None => st
    case Some(done) => done
  }

  function ActionCancel(st: State, picking: nat, keepDone: bool): State {
    var moves := Cancelled(st.moves, picking, keepDone);
    st.(moves := moves, lines := Recomputed(st.lines, moves, picking))
  }

  /** The quantity an item puts on a move, if it reaches it; an overfull last move gets its demand raised. */
  function ShipMove(m: Move, written: map<nat, real>): Move {
    if m.id in written then
      m.(done := written[m.id], demand := if m.demand < written[m.id] then written[m.id] else m.demand)
    else m
  }

  function ShipMoves(moves: seq<Move>, written: map<nat, real>): (r: seq<Move>)
    ensures |r| == |moves|
  {
    seq(|moves|, i requires 0 <= i < |moves| => ShipMove(moves[i], written))
  }

  function Candidates(moves: seq<Move>, picking: nat): seq<S.Move> {
    if moves == [] then []
    else
      var m := moves[|moves| - 1];
      Candidates(moves[..|moves| - 1], picking)
      + if m.picking == picking then [S.Move(m.id, m.product, m.demand)] else []
  }

  predicate IsOpen(moves: seq<Move>, picking: nat) {
    exists m :: m in moves && m.picking == picking && m.state.Draft?
  }

  function ShipLines(moves: seq<Move>, picking: nat, product: nat): seq<S.Move> {
    S.LinesOf(Candidates(moves, picking), product)
  }

  function Writes(moves: seq<Move>, picking: nat, product: nat, quantity: real): map<nat, real> {
    var lines := ShipLines(moves, picking, product);
    S.Written(map[], lines, S.Alloc(S.Demands(lines), quantity))
  }

  /** One item of a shipment reported by the channel, for the open transfer it is entered on. */
  function ShipItem(st: State, picking: nat, product: nat, quantity: real): State {
    if !IsOpen(st.moves, picking) then st
    else
      st.(moves := ShipMoves(st.moves, Writes(st.moves, picking, product, quantity)))
  }

  /** A draft move of a line that is short. */
  predicate Revived(lines: seq<Line>, moves: seq<Move>, m: Move) {
    m.state.Draft? && exists l :: l in lines && l.id == m.line && Short(moves, l)
  }

  /** What the search for a transfer can find: one in state draft, with or without moves. */
  predicate Eligible(st: State, picking: nat) {
    picking < st.nextPicking && (IsOpen(st.moves, picking) || !InPicking(st.moves, picking))
  }

  predicate HasDraft(moves: seq<Move>, line: nat) {
    exists m :: m in moves && m.line == line && m.state.Draft?
  }

  function WithoutDraft(lines: seq<Line>, moves: seq<Move>): seq<Line> {
    if lines == [] then []
    else
      var l := lines[|lines| - 1];
      WithoutDraft(lines[..|lines| - 1], moves) + if HasDraft(moves, l.id) then [] else [l]
  }

  /** The draft moves of short lines, put together in one transfer. */
  function Gathered(lines: seq<Line>, moves: seq<Move>, picking: nat): (r: seq<Move>)
    ensures |r| == |moves|
  {
    seq(|moves|, i requires 0 <= i < |moves| =>
      if Revived(lines, moves, moves[i]) then moves[i].(picking := picking) else moves[i])
  }

  /**
    `_action_generate_service_move` and `_assign_picking` when the order is confirmed: short lines
    without a draft move get one; the draft moves of short lines go to the open transfer `target`,
    or to a new one.
  */
  function GenerateMoves(st: State, target: Option<nat>): State {
    var found := if target.Some? && Eligible(st, target.value) then target else None;
    var picking := found.GetOr(st.nextPicking);
    var extra := NewMoves(WithoutDraft(st.lines, st.moves), st.moves, picking, st.nextMove);
    var kept := Gathered(st.lines, st.moves, picking);
    st.(moves := kept + extra, nextMove := st.nextMove + |extra|,
        nextPicking := if found.Some? then st.nextPicking else st.nextPicking + 1)
  }

  /** A user changes a draft move. */
  function EditDraft(st: State, i: nat, demand: real, done: real): State {
    if i < |st.moves| && st.moves[i].state.Draft?
    then st.(moves := st.moves[i := st.moves[i].(demand := demand, done := done)])
    else st
  }

  function Without(moves: seq<Move>, picking: nat): seq<Move> {
    if moves == [] then []
    else
      var m := moves[|moves| - 1];
      Without(moves[..|moves| - 1], picking) + if m.picking == picking then [] else [m]
  }

  /** `unlink` of a transfer: its moves are cancelled and removed, delivered quantities are not recomputed. */
  function Delete(st: State, picking: nat): State { st.(moves := Without(st.moves, picking)) }

  // ---- the records, changed in place ----

  class Order {
    var lines: seq<Line>
    var moves: seq<Move>
    var nextPicking: nat
    var nextMove: nat

    function Current(): State
      reads this
    {
      State(lines, moves, nextPicking, nextMove)
    }

    constructor (st: State)
      ensures Current() == st
    {
      lines, moves, nextPicking, nextMove := st.lines, st.moves, st.nextPicking, st.nextMove;
    }

    method CalculateShipped(picking: nat)
      modifies this`lines
      ensures lines == Recomputed(old(lines), moves, picking)
    {
      for i := 0 to |lines|
        invariant |lines| == |old(lines)|
        invariant forall k :: 0 <= k < i ==> lines[k] == Recompute(old(lines)[k], moves, picking)
        invariant forall k :: i <= k < |lines| ==> lines[k] == old(lines)[k]
      {
        if lines[i].deliverable && Has(moves, picking, lines[i].id) {
          lines := lines[i := lines[i].(delivered := DoneSum(moves, lines[i].id))];
        }
      }
    }

    /** `action_done` on the moves and then on the transfer. */
    method DoAction(picking: nat, full: bool) returns (ok: bool)
      modifies this
      ensures match ActionDone(old(Current()), picking, full)
              case Some(st) => ok && Current() == st
              case None => !ok && Current() == old(Current())
    {
      var work := moves;
      for i := 0 to |work|
        invariant Current() == old(Current()) && |work| == |moves|
        invariant forall k :: 0 <= k < i ==> work[k] == FinishMove(moves[k], picking, full)
        invariant forall k :: 0 <= k < i && moves[k].picking == picking && moves[k].state.Draft? ==>
                    moves[k].done >= 0.0
        invariant forall k :: i <= k < |work| ==> work[k] == moves[k]
      {
        var m := work[i];
        if m.picking == picking && m.state == Draft {
          if m.done < 0.0 {
            assert moves[i] in moves;
            return false;
          }
          if m.done == 0.0 {
            work := work[i := if full then m.(done := m.demand, state := Done) else m.(state := Cancel)];
          } else {
            work := work[i := m.(state := Done)];
          }
        }
      }
      assert work == Finished(moves, picking, full);
      moves := work;
      CalculateShipped(picking);
      ok := true;
    }

    method DoCancel(picking: nat, keepDone: bool)
      modifies this
      ensures Current() == ActionCancel(old(Current()), picking, keepDone)
    {
      for i := 0 to |moves|
        invariant lines == old(lines) && nextPicking == old(nextPicking) && nextMove == old(nextMove)
        invariant |moves| == |old(moves)|
        invariant forall k :: 0 <= k < i ==> moves[k] == CancelMove(old(moves)[k], picking, keepDone)
        invariant forall k :: i <= k < |moves| ==> moves[k] == old(moves)[k]
      {
        if moves[i].picking == picking && (if keepDone then moves[i].state == Draft else moves[i].state != Cancel) {
          moves := moves[i := moves[i].(state := Cancel)];
        }
      }
      assert moves == Cancelled(old(moves), picking, keepDone);
      CalculateShipped(picking);
    }

    method CreateBackorder()
      modifies this
      ensures Current() == Backorder(old(Current()))
    {
      var values: seq<Move> := [];
      for i := 0 to |lines|
        invariant Current() == old(Current())
        invariant values == NewMoves(lines[..i], moves, nextPicking, nextMove)
        invariant values == [] <==> forall k :: 0 <= k < i ==> !Short(moves, lines[k])
      {
        assert lines[..i + 1][..i] == lines[..i];
        if lines[i].deliverable && Assigned(moves, lines[i].id) < lines[i].ordered {
          values := values + [NewMove(lines[i], moves, nextPicking, nextMove + |values|)];
        }
      }
      assert lines[..|lines|] == lines;
      if values != [] {
        moves, nextPicking, nextMove := moves + values, nextPicking + 1, nextMove + |values|;
      }
    }

    method DoConfirm(picking: nat) returns (o: Outcome)
      modifies this
      ensures (o, Current()) == ActionConfirm(old(Current()), picking)
    {
      if !InPicking(moves, picking) || NothingDemanded(moves, picking) { return NoItems; }
      if NothingEntered(moves, picking) { return AskImmediate; }
      var ok := DoAction(picking, false);
      if !ok { return InvalidQuantity; }
      CreateBackorder();
      o := Confirmed;
    }

    /** The loop over the moves of one item, smallest demand first; each write is stored at once. */
    method DoShipItem(picking: nat, product: nat, quantity: real)
      modifies this`moves
      ensures Current() == ShipItem(old(Current()), picking, product, quantity)
    {
      if IsOpen(moves, picking) {
        var targets := ShipLines(moves, picking, product);
        var quantities := S.Allocate(targets, quantity);
        var written: map<nat, real> := map[];
        for i := 0 to |quantities|
          invariant written == S.Written(map[], targets, quantities[..i])
        {
          assert quantities[..i + 1][..i] == quantities[..i];
          written := written[targets[i].id := quantities[i]];
        }
        assert quantities[..|quantities|] == quantities;
        moves := ShipMoves(moves, written);
      }
    }
  }

  // ---- sums under the effects ----

  lemma {:induction false} AssignedConcat(a: seq<Move>, b: seq<Move>, line: nat)
    ensures Assigned(a + b, line) == Assigned(a, line) + Assigned(b, line)
    ensures DoneSum(a + b, line) == DoneSum(a, line) + DoneSum(b, line)
  {
    if b == [] {
      assert a + b == a;
    } else {
      assert (a + b)[..|a + b| - 1] == a + b[..|b| - 1];
      AssignedConcat(a, b[..|b| - 1], line);
    }
  }

  function DonePart(m: Move, line: nat): real { if m.line == line && m.state.Done? then m.done else 0.0 }

  function WeightPart(m: Move, line: nat): real { if m.line == line then Weight(m) else 0.0 }

  lemma {:induction false} DoneSumSame(a: seq<Move>, b: seq<Move>, line: nat)
    requires |a| == |b| && forall i :: 0 <= i < |a| ==> DonePart(a[i], line) == DonePart(b[i], line)
    ensures DoneSum(a, line) == DoneSum(b, line)
  {
    if a != [] { DoneSumSame(a[..|a| - 1], b[..|b| - 1], line); }
  }

  lemma {:induction false} AssignedGrows(a: seq<Move>, b: seq<Move>, line: nat)
    requires |a| == |b| && forall i :: 0 <= i < |a| ==> WeightPart(a[i], line) <= WeightPart(b[i], line)
    ensures Assigned(a, line) <= Assigned(b, line)
  {
    if a != [] { AssignedGrows(a[..|a| - 1], b[..|b| - 1], line); }
  }

  /** How much processing a transfer changes the assigned quantity of a line. */
  function Shift(moves: seq<Move>, picking: nat, full: bool, line: nat): real {
    if moves == [] then 0.0
    else
      var m := moves[|moves| - 1];
      Shift(moves[..|moves| - 1], picking, full, line)
      + if m.line != line || m.picking != picking || !m.state.Draft? then 0.0
        else if m.done != 0.0 then m.done - m.demand
        else if full then 0.0
        else -m.demand
  }

  /** Processing a transfer: entered quantities replace the demand, untouched moves count in full or not at all. */
  lemma {:induction false} DoneShifts(moves: seq<Move>, picking: nat, full: bool, line: nat)
    ensures Assigned(Finished(moves, picking, full), line) == Assigned(moves, line) + Shift(moves, picking, full, line)
  {
    if moves != [] {
      var front := moves[..|moves| - 1];
      DoneShifts(front, picking, full, line);
      assert Finished(moves, picking, full)[..|moves| - 1] == Finished(front, picking, full);
    }
  }

  lemma {:induction false} NothingShifts(moves: seq<Move>, picking: nat, line: nat)
    requires NothingEntered(moves, picking)
    ensures Shift(moves, picking, true, line) == 0.0
  {
    if moves != [] {
      assert forall m :: m in moves[..|moves| - 1] ==> m in moves;
      NothingShifts(moves[..|moves| - 1], picking, line);
    }
  }

  /** An immediate transfer, offered when nothing was entered, leaves the assigned quantity of every line alone. */
  lemma ImmediateKeepsAssigned(st: State, picking: nat, line: nat)
    requires NothingEntered(st.moves, picking)
    ensures Assigned(Immediate(st, picking).moves, line) == Assigned(st.moves, line)
    ensures forall m :: m in Immediate(st, picking).moves && m.picking == picking ==> !m.state.Draft?
  {
    DoneShifts(st.moves, picking, true, line);
    NothingShifts(st.moves, picking, line);
    assert !Invalid(st.moves, picking);
  }

  /** `_compute_state` of a transfer. */
  function PickingState(moves: seq<Move>, picking: nat): MoveState {
    if !InPicking(moves, picking) then Draft
    else if forall m :: m in moves && m.picking == picking ==> m.state == Cancel then Cancel
    else if forall m :: m in moves && m.picking == picking ==> m.state != Draft then Done
    else Draft
  }

  /** Processing closes a transfer; it ends cancelled exactly when no move was done before or gets done now. */
  lemma ProcessingCloses(st: State, picking: nat, full: bool)
    requires InPicking(st.moves, picking) && ActionDone(st, picking, full).Some?
    ensures var after := PickingState(ActionDone(st, picking, full).value.moves, picking);
            && after != Draft
            && (after == Cancel <==>
                forall m :: m in st.moves && m.picking == picking ==>
                  m.state == Cancel || (m.state == Draft && m.done == 0.0 && !full))
  {
    var after := Finished(st.moves, picking, full);
    var m0 :| m0 in st.moves && m0.picking == picking;
    var i0 :| 0 <= i0 < |st.moves| && st.moves[i0] == m0;
    assert after[i0] in after && after[i0].picking == picking;
    forall m | m in after && m.picking == picking ensures m.state != Draft {
      var i :| 0 <= i < |after| && after[i] == m;
    }
    if forall m :: m in after && m.picking == picking ==> m.state == Cancel {
      forall m | m in st.moves && m.picking == picking
        ensures m.state == Cancel || (m.state == Draft && m.done == 0.0 && !full)
      {
        var i :| 0 <= i < |st.moves| && st.moves[i] == m;
        assert after[i] in after;
      }
    } else {
      var m :| m in after && m.picking == picking && m.state != Cancel;
      var i :| 0 <= i < |after| && after[i] == m;
      assert st.moves[i] in st.moves;
    }
  }

  predicate DistinctLines(lines: seq<Line>) {
    forall i, j :: 0 <= i < j < |lines| ==> lines[i].id != lines[j].id
  }

  lemma AssignedSnoc(moves: seq<Move>, m: Move, line: nat)
    ensures Assigned(moves + [m], line) == Assigned(moves, line) + WeightPart(m, line)
  {
    assert (moves + [m])[..|moves|] == moves;
  }

  /** The new moves make up exactly what each short line misses. */
  lemma {:induction false} NewMovesFill(lines: seq<Line>, moves: seq<Move>, picking: nat, id: nat, line: nat)
    requires DistinctLines(lines)
    ensures forall l :: l in lines && l.id == line ==>
              Assigned(NewMoves(lines, moves, picking, id), line)
                == if Short(moves, l) then l.ordered - Assigned(moves, line) else 0.0
    ensures (forall l :: l in lines ==> l.id != line) ==> Assigned(NewMoves(lines, moves, picking, id), line) == 0.0
  {
    if lines != [] {
      var front, z := lines[..|lines| - 1], lines[|lines| - 1];
      assert lines == front + [z];
      NewMovesFill(front, moves, picking, id, line);
      var made := NewMoves(front, moves, picking, id);
      AssignedSnoc(made, NewMove(z, moves, picking, id + |made|), line);
    }
  }

  lemma {:induction false} NewMovesDraft(lines: seq<Line>, moves: seq<Move>, picking: nat, id: nat, line: nat)
    ensures forall i :: 0 <= i < |NewMoves(lines, moves, picking, id)| ==>
              var m := NewMoves(lines, moves, picking, id)[i];
              m.state.Draft? && m.picking == picking && m.id == id + i && m.done == 0.0
    ensures DoneSum(NewMoves(lines, moves, picking, id), line) == 0.0
  {
    if lines != [] {
      var front := lines[..|lines| - 1];
      NewMovesDraft(front, moves, picking, id, line);
      var made := NewMoves(front, moves, picking, id);
      var m := NewMove(lines[|lines| - 1], moves, picking, id + |made|);
      assert (made + [m])[..|made|] == made;
    }
  }

  // ---- what confirming a transfer guarantees ----

  lemma RecomputedShort(lines: seq<Line>, moves: seq<Move>, picking: nat, i: nat)
    requires i < |lines|
    ensures var l := Recomputed(lines, moves, picking)[i];
            l.id == lines[i].id && l.ordered == lines[i].ordered && l.deliverable == lines[i].deliverable
  { }

  /**
    Confirming on the direct path leaves every deliverable line with open demand plus done quantity
    equal to what processing left, or to the ordered quantity if that was more.
  */
  lemma ConfirmCovers(st: State, picking: nat, l: Line)
    requires DistinctLines(st.lines) && l in st.lines && l.deliverable
    requires ActionConfirm(st, picking).0 == Confirmed
    ensures var left := Assigned(st.moves, l.id) + Shift(st.moves, picking, false, l.id);
            Assigned(ActionConfirm(st, picking).1.moves, l.id) == if left < l.ordered then l.ordered else left
  {
    var done := ActionDone(st, picking, false).value;
    DoneShifts(st.moves, picking, false, l.id);
    var i :| 0 <= i < |st.lines| && st.lines[i] == l;
    var k := done.lines[i];
    RecomputedShort(st.lines, done.moves, picking, i);
    BackorderCovers(done, k);
  }

  lemma BackorderCovers(st: State, l: Line)
    requires DistinctLines(st.lines) && l in st.lines && l.deliverable
    ensures Assigned(Backorder(st).moves, l.id)
            == if Assigned(st.moves, l.id) < l.ordered then l.ordered else Assigned(st.moves, l.id)
  {
    var extra := NewMoves(st.lines, st.moves, st.nextPicking, st.nextMove);
    NewMovesFill(st.lines, st.moves, st.nextPicking, st.nextMove, l.id);
    AssignedConcat(st.moves, extra, l.id);
  }

  // ---- runs ----

  datatype Step =
    | OrderConfirmed(target: Option<nat>)
    | Confirm(picking: nat)
    | ConfirmNow(picking: nat)
    | CancelTransfer(picking: nat, keepDone: bool)
    | Ship(picking: nat, product: nat, quantity: real)
    | Edit(index: nat, demand: real, done: real)

  /** `ConfirmNow` answers the immediate-transfer question with yes. */
  function Next(st: State, step: Step): State {
    match step
    case OrderConfirmed(target) => GenerateMoves(st, target)
    case Confirm(p) => ActionConfirm(st, p).1
    case ConfirmNow(p) => if ActionConfirm(st, p).0 == AskImmediate then Immediate(st, p) else ActionConfirm(st, p).1
    case CancelTransfer(p, keepDone) => ActionCancel(st, p, keepDone)
    case Ship(p, product, quantity) => ShipItem(st, p, product, quantity)
    case Edit(i, demand, done) => EditDraft(st, i, demand, done)
  }

  function Run(st: State, steps: seq<Step>): State {
    if steps == [] then st else Next(Run(st, steps[..|steps| - 1]), steps[|steps| - 1])
  }

  predicate DistinctMoves(st: State) {
    && (forall i, j :: 0 <= i < j < |st.moves| ==> st.moves[i].id != st.moves[j].id)
    && (forall i :: 0 <= i < |st.moves| ==> st.moves[i].id < st.nextMove && st.moves[i].picking < st.nextPicking)
  }

  /** A transfer is open as a whole or not at all. */
  ghost predicate Uniform(moves: seq<Move>) {
    forall i, j :: 0 <= i < |moves| && 0 <= j < |moves| && moves[i].picking == moves[j].picking ==>
      (moves[i].state.Draft? <==> moves[j].state.Draft?)
  }

  ghost predicate DeliveredRight(st: State) {
    forall i :: 0 <= i < |st.lines| && st.lines[i].deliverable
      ==> st.lines[i].delivered == DoneSum(st.moves, st.lines[i].id)
  }

  ghost predicate Inv(st: State) { DistinctMoves(st) && Uniform(st.moves) && DeliveredRight(st) }

  /** Processing or cancelling one transfer: other transfers keep their moves, its own lines are recomputed. */
  lemma ProcessKeepsDelivered(st: State, moves: seq<Move>, picking: nat)
    requires DeliveredRight(st) && |moves| == |st.moves|
    requires forall i :: 0 <= i < |moves| ==>
               moves[i].line == st.moves[i].line && moves[i].picking == st.moves[i].picking
               && (moves[i].picking != picking ==> moves[i] == st.moves[i])
    ensures DeliveredRight(st.(moves := moves, lines := Recomputed(st.lines, moves, picking)))
  {
    var lines := Recomputed(st.lines, moves, picking);
    forall i | 0 <= i < |lines| && lines[i].deliverable ensures lines[i].delivered == DoneSum(moves, lines[i].id) {
      var id := st.lines[i].id;
      if !Has(moves, picking, id) {
        forall k | 0 <= k < |moves| ensures DonePart(moves[k], id) == DonePart(st.moves[k], id) {
          assert moves[k] in moves;
        }
        DoneSumSame(moves, st.moves, id);
      }
    }
  }

  lemma DoneKeepsUniform(moves: seq<Move>, picking: nat, full: bool)
    requires Uniform(moves)
    ensures Uniform(Finished(moves, picking, full))
  {
    var after := Finished(moves, picking, full);
    forall i | 0 <= i < |after|
      ensures after[i].picking == moves[i].picking
      ensures after[i].state.Draft? <==> moves[i].state.Draft? && moves[i].picking != picking
    { }
  }

  lemma FinishedKeepsMoves(st: State, picking: nat, full: bool, after: State)
    requires DistinctMoves(st) && after.moves == Finished(st.moves, picking, full)
    requires after.nextMove == st.nextMove && after.nextPicking == st.nextPicking
    ensures DistinctMoves(after)
  { }

  lemma DoneKeepsInv(st: State, picking: nat, full: bool)
    requires Inv(st) && ActionDone(st, picking, full).Some?
    ensures Inv(ActionDone(st, picking, full).value)
  {
    var moves := Finished(st.moves, picking, full);
    DoneKeepsUniform(st.moves, picking, full);
    ProcessKeepsDelivered(st, moves, picking);
    FinishedKeepsMoves(st, picking, full, st.(moves := moves, lines := Recomputed(st.lines, moves, picking)));
  }

  lemma CancelKeepsInv(st: State, picking: nat, keepDone: bool)
    requires Inv(st)
    ensures Inv(ActionCancel(st, picking, keepDone))
  {
    ProcessKeepsDelivered(st, Cancelled(st.moves, picking, keepDone), picking);
  }

  /** Adding draft moves to a transfer that is open or new. */
  lemma AddKeepsInv(st: State, lines: seq<Line>, moves: seq<Move>, picking: nat, next: nat)
    requires Inv(st) && st.nextPicking <= next && picking < next
    requires forall i :: 0 <= i < |st.moves| && st.moves[i].picking == picking ==> st.moves[i].state.Draft?
    ensures var extra := NewMoves(lines, moves, picking, st.nextMove);
            Inv(st.(moves := st.moves + extra, nextPicking := next, nextMove := st.nextMove + |extra|))
  {
    var extra := NewMoves(lines, moves, picking, st.nextMove);
    NewMovesDraft(lines, moves, picking, st.nextMove, 0);
    forall i | 0 <= i < |st.lines|
      ensures DoneSum(st.moves + extra, st.lines[i].id) == DoneSum(st.moves, st.lines[i].id)
    {
      NewMovesDraft(lines, moves, picking, st.nextMove, st.lines[i].id);
      AssignedConcat(st.moves, extra, st.lines[i].id);
    }
  }

  lemma BackorderKeepsInv(st: State)
    requires Inv(st)
    ensures Inv(Backorder(st))
  {
    AddKeepsInv(st, st.lines, st.moves, st.nextPicking, st.nextPicking + 1);
  }

  /** Draft moves put together in a transfer that is open, new or empty. */
  lemma GatherKeepsInv(st: State, picking: nat, next: nat)
    requires Inv(st) && st.nextPicking <= next && picking < next
    requires forall i :: 0 <= i < |st.moves| && st.moves[i].picking == picking ==> st.moves[i].state.Draft?
    ensures Inv(st.(moves := Gathered(st.lines, st.moves, picking), nextPicking := next))
  {
    var kept := Gathered(st.lines, st.moves, picking);
    forall i | 0 <= i < |st.lines| ensures DoneSum(kept, st.lines[i].id) == DoneSum(st.moves, st.lines[i].id) {
      DoneSumSame(kept, st.moves, st.lines[i].id);
    }
  }

  lemma EligibleOpen(st: State, picking: nat)
    requires Uniform(st.moves) && Eligible(st, picking)
    ensures forall i :: 0 <= i < |st.moves| && st.moves[i].picking == picking ==> st.moves[i].state.Draft?
  {
    forall i | 0 <= i < |st.moves| && st.moves[i].picking == picking ensures st.moves[i].state.Draft? {
      assert st.moves[i] in st.moves;
      var m :| m in st.moves && m.picking == picking && m.state.Draft?;
      var j :| 0 <= j < |st.moves| && st.moves[j] == m;
    }
  }

  lemma GenerateKeepsInv(st: State, target: Option<nat>)
    requires Inv(st)
    ensures Inv(GenerateMoves(st, target))
  {
    var found := if target.Some? && Eligible(st, target.value) then target else None;
    var picking := found.GetOr(st.nextPicking);
    var next := if found.Some? then st.nextPicking else st.nextPicking + 1;
    if found.Some? { EligibleOpen(st, picking); }
    GatherKeepsInv(st, picking, next);
    var mid := st.(moves := Gathered(st.lines, st.moves, picking), nextPicking := next);
    AddKeepsInv(mid, WithoutDraft(st.lines, st.moves), st.moves, picking, next);
  }

  lemma {:induction false} CandidateOf(moves: seq<Move>, picking: nat, c: S.Move)
    requires c in Candidates(moves, picking)
    ensures exists i :: 0 <= i < |moves| && moves[i].picking == picking
                        && moves[i].id == c.id && moves[i].product == c.product
  {
    var n := |moves| - 1;
    if c in Candidates(moves[..n], picking) {
      CandidateOf(moves[..n], picking, c);
    } else {
      assert moves[n].picking == picking && moves[n].id == c.id;
    }
  }

  lemma {:induction false} WrittenKeys(lines: seq<S.Move>, quantities: seq<real>, id: nat)
    requires |quantities| <= |lines| && id in S.Written(map[], lines, quantities)
    ensures exists j :: 0 <= j < |quantities| && lines[j].id == id
  {
    var n := |quantities| - 1;
    if quantities != [] && lines[n].id != id { WrittenKeys(lines, quantities[..n], id); }
  }

  /** A shipped item only writes on moves of its own transfer. */
  lemma WritesInPicking(st: State, picking: nat, product: nat, quantity: real, i: nat)
    requires DistinctMoves(st) && i < |st.moves| && st.moves[i].id in Writes(st.moves, picking, product, quantity)
    ensures st.moves[i].picking == picking && st.moves[i].product == product
  {
    var lines := ShipLines(st.moves, picking, product);
    WrittenKeys(lines, S.Alloc(S.Demands(lines), quantity), st.moves[i].id);
    var j :| 0 <= j < |lines| && lines[j].id == st.moves[i].id;
    S.LinesMembers(Candidates(st.moves, picking), product);
    assert lines[j] in lines;
    CandidateOf(st.moves, picking, lines[j]);
  }

  lemma WritesOnDraft(st: State, picking: nat, product: nat, quantity: real, i: nat)
    requires Inv(st) && IsOpen(st.moves, picking)
    requires i < |st.moves| && st.moves[i].id in Writes(st.moves, picking, product, quantity)
    ensures st.moves[i].state.Draft?
  {
    WritesInPicking(st, picking, product, quantity, i);
    var m :| m in st.moves && m.picking == picking && m.state.Draft?;
    var j :| 0 <= j < |st.moves| && st.moves[j] == m;
  }

  lemma ShipKeepsInv(st: State, picking: nat, product: nat, quantity: real)
    requires Inv(st)
    ensures Inv(ShipItem(st, picking, product, quantity))
  {
    if IsOpen(st.moves, picking) {
      var w := Writes(st.moves, picking, product, quantity);
      var moves := ShipMoves(st.moves, w);
      forall i | 0 <= i < |st.lines| ensures DoneSum(moves, st.lines[i].id) == DoneSum(st.moves, st.lines[i].id) {
        forall k | 0 <= k < |moves|
          ensures DonePart(moves[k], st.lines[i].id) == DonePart(st.moves[k], st.lines[i].id)
        {
          if st.moves[k].id in w { WritesOnDraft(st, picking, product, quantity, k); }
        }
        DoneSumSame(moves, st.moves, st.lines[i].id);
      }
    }
  }

  lemma EditKeepsInv(st: State, i: nat, demand: real, done: real)
    requires Inv(st)
    ensures Inv(EditDraft(st, i, demand, done))
  {
    var after := EditDraft(st, i, demand, done);
    forall k | 0 <= k < |st.lines| ensures DoneSum(after.moves, st.lines[k].id) == DoneSum(st.moves, st.lines[k].id) {
      DoneSumSame(after.moves, st.moves, st.lines[k].id);
    }
  }

  lemma StepKeepsInv(st: State, step: Step)
    requires Inv(st)
    ensures Inv(Next(st, step))
  {
    match step
    case OrderConfirmed(target) => GenerateKeepsInv(st, target);
    case Confirm(p) =>
      if ActionConfirm(st, p).0 == Confirmed {
        DoneKeepsInv(st, p, false);
        BackorderKeepsInv(ActionDone(st, p, false).value);
      }
    case ConfirmNow(p) =>
      if ActionConfirm(st, p).0 == AskImmediate {
        if ActionDone(st, p, true).Some? { DoneKeepsInv(st, p, true); }
      } else if ActionConfirm(st, p).0 == Confirmed {
        DoneKeepsInv(st, p, false);
        BackorderKeepsInv(ActionDone(st, p, false).value);
      }
    case CancelTransfer(p, keepDone) => CancelKeepsInv(st, p, keepDone);
    case Ship(p, product, quantity) => ShipKeepsInv(st, p, product, quantity);
    case Edit(i, demand, done) => EditKeepsInv(st, i, demand, done);
  }

  /**
    In every run of confirming, processing, cancelling, shipping and editing steps the delivered
    quantity of every deliverable line is the sum over its done moves.
  */
  lemma {:induction false} RunKeepsDelivered(st: State, steps: seq<Step>)
    requires Inv(st)
    ensures Inv(Run(st, steps))
  {
    if steps != [] {
      RunKeepsDelivered(st, steps[..|steps| - 1]);
      StepKeepsInv(Run(st, steps[..|steps| - 1]), steps[|steps| - 1]);
    }
  }

  /** The done quantity a transfer holds for a line. */
  function DoneIn(moves: seq<Move>, picking: nat, line: nat): real {
    if moves == [] then 0.0
    else
      var m := moves[|moves| - 1];
      DoneIn(moves[..|moves| - 1], picking, line) + if m.picking == picking then DonePart(m, line) else 0.0
  }

  lemma {:induction false} DeleteRemoves(moves: seq<Move>, picking: nat, line: nat)
    ensures DoneSum(Without(moves, picking), line) == DoneSum(moves, line) - DoneIn(moves, picking, line)
  {
    if moves != [] {
      var n := |moves| - 1;
      DeleteRemoves(moves[..n], picking, line);
      var front := Without(moves[..n], picking);
      assert (front + [moves[n]])[..|front|] == front;
      assert front + [] == front;
    }
  }

  /** Deleting a transfer keeps delivered quantities right exactly when it holds none that was done and deliverable. */
  lemma DeleteKeepsIff(st: State, picking: nat)
    requires DeliveredRight(st)
    ensures DeliveredRight(Delete(st, picking)) <==>
            forall i :: 0 <= i < |st.lines| && st.lines[i].deliverable
              ==> DoneIn(st.moves, picking, st.lines[i].id) == 0.0
  {
    forall i | 0 <= i < |st.lines|
      ensures DoneSum(Delete(st, picking).moves, st.lines[i].id)
              == DoneSum(st.moves, st.lines[i].id) - DoneIn(st.moves, picking, st.lines[i].id)
    {
      DeleteRemoves(st.moves, picking, st.lines[i].id);
    }
  }

  // ---- coverage over runs ----

  ghost predicate Covered(st: State) {
    forall l :: l in st.lines && l.deliverable ==> Assigned(st.moves, l.id) >= l.ordered
  }

  predicate Processing(step: Step) { step.Confirm? || step.ConfirmNow? || step.Ship? }

  lemma ShipKeepsCovered(st: State, picking: nat, product: nat, quantity: real)
    requires Inv(st) && Covered(st)
    ensures Covered(ShipItem(st, picking, product, quantity))
  {
    if IsOpen(st.moves, picking) {
      var w := Writes(st.moves, picking, product, quantity);
      forall l | l in st.lines && l.deliverable ensures Assigned(ShipMoves(st.moves, w), l.id) >= l.ordered {
        forall k | 0 <= k < |st.moves|
          ensures WeightPart(st.moves[k], l.id) <= WeightPart(ShipMoves(st.moves, w)[k], l.id)
        {
          if st.moves[k].id in w { WritesOnDraft(st, picking, product, quantity, k); }
        }
        AssignedGrows(st.moves, ShipMoves(st.moves, w), l.id);
      }
    }
  }

  lemma ConfirmedIsCovered(st: State, picking: nat)
    requires DistinctLines(st.lines) && ActionConfirm(st, picking).0 == Confirmed
    ensures Covered(ActionConfirm(st, picking).1) && DistinctLines(ActionConfirm(st, picking).1.lines)
  {
    var done := ActionDone(st, picking, false).value;
    forall l | l in done.lines && l.deliverable ensures Assigned(Backorder(done).moves, l.id) >= l.ordered {
      BackorderCovers(done, l);
    }
  }

  lemma ImmediateKeepsCovered(st: State, picking: nat)
    requires Covered(st) && NothingEntered(st.moves, picking)
    ensures Covered(Immediate(st, picking))
  {
    var after := Immediate(st, picking);
    assert !Invalid(st.moves, picking);
    forall l | l in after.lines && l.deliverable ensures Assigned(after.moves, l.id) >= l.ordered {
      ImmediateKeepsAssigned(st, picking, l.id);
      var i :| 0 <= i < |after.lines| && after.lines[i] == l;
      assert st.lines[i] in st.lines;
    }
  }

  /** Once covered, an order stays covered through any run of shipping, confirming and immediate transfers. */
  lemma {:induction false} RunKeepsCovered(st: State, steps: seq<Step>)
    requires Inv(st) && DistinctLines(st.lines) && Covered(st)
    requires forall i :: 0 <= i < |steps| ==> Processing(steps[i])
    ensures Covered(Run(st, steps)) && DistinctLines(Run(st, steps).lines)
  {
    if steps != [] {
      var front, step := steps[..|steps| - 1], steps[|steps| - 1];
      assert forall i :: 0 <= i < |front| ==> front[i] == steps[i];
      RunKeepsCovered(st, front);
      RunKeepsDelivered(st, front);
      var before := Run(st, front);
      assert Processing(step);
      if step.Ship? {
        ShipKeepsCovered(before, step.picking, step.product, step.quantity);
      } else if ActionConfirm(before, step.picking).0 == Confirmed {
        ConfirmedIsCovered(before, step.picking);
      } else if step.ConfirmNow? && ActionConfirm(before, step.picking).0 == AskImmediate {
        ImmediateKeepsCovered(before, step.picking);
      }
    }
  }

  // ---- moves at order confirmation, and shipped items ----

  lemma {:induction false} WithoutDraftMembers(lines: seq<Line>, moves: seq<Move>, l: Line)
    requires DistinctLines(lines)
    ensures l in WithoutDraft(lines, moves) <==> l in lines && !HasDraft(moves, l.id)
    ensures DistinctLines(WithoutDraft(lines, moves))
  {
    if lines != [] {
      var front, z := lines[..|lines| - 1], lines[|lines| - 1];
      assert lines == front + [z];
      WithoutDraftMembers(front, moves, l);
      forall k | k in WithoutDraft(front, moves) ensures k.id != z.id {
        WithoutDraftMembers(front, moves, k);
      }
    }
  }

  /** Confirming the order covers a deliverable line exactly when it was covered or had no draft move. */
  lemma GenerateCoversIff(st: State, target: Option<nat>, l: Line)
    requires DistinctLines(st.lines) && l in st.lines && l.deliverable
    ensures Assigned(GenerateMoves(st, target).moves, l.id) >= l.ordered <==>
            !Short(st.moves, l) || !HasDraft(st.moves, l.id)
  {
    var found := if target.Some? && Eligible(st, target.value) then target else None;
    var picking := found.GetOr(st.nextPicking);
    GatheredAssigned(st.lines, st.moves, picking, l.id);
    GeneratedPart(st.lines, st.moves, picking, st.nextMove, l);
    AssignedConcat(Gathered(st.lines, st.moves, picking),
        NewMoves(WithoutDraft(st.lines, st.moves), st.moves, picking, st.nextMove), l.id);
  }

  lemma GatheredAssigned(lines: seq<Line>, moves: seq<Move>, picking: nat, line: nat)
    ensures Assigned(Gathered(lines, moves, picking), line) == Assigned(moves, line)
  {
    AssignedGrows(Gathered(lines, moves, picking), moves, line);
    AssignedGrows(moves, Gathered(lines, moves, picking), line);
  }

  lemma GeneratedPart(lines: seq<Line>, moves: seq<Move>, picking: nat, id: nat, l: Line)
    requires DistinctLines(lines) && l in lines
    ensures Assigned(NewMoves(WithoutDraft(lines, moves), moves, picking, id), l.id)
            == if Short(moves, l) && !HasDraft(moves, l.id) then l.ordered - Assigned(moves, l.id) else 0.0
  {
    var todo := WithoutDraft(lines, moves);
    WithoutDraftMembers(lines, moves, l);
    if HasDraft(moves, l.id) {
      forall k | k in todo ensures k.id != l.id {
        WithoutDraftMembers(lines, moves, k);
      }
      NewMovesElsewhere(todo, moves, picking, id, l.id);
    } else {
      NewMovesFor(todo, moves, picking, id, l);
    }
  }

  lemma NewMovesElsewhere(lines: seq<Line>, moves: seq<Move>, picking: nat, id: nat, line: nat)
    requires DistinctLines(lines) && forall l :: l in lines ==> l.id != line
    ensures Assigned(NewMoves(lines, moves, picking, id), line) == 0.0
  {
    NewMovesFill(lines, moves, picking, id, line);
  }

  lemma NewMovesFor(lines: seq<Line>, moves: seq<Move>, picking: nat, id: nat, l: Line)
    requires DistinctLines(lines) && l in lines
    ensures Assigned(NewMoves(lines, moves, picking, id), l.id)
            == if Short(moves, l) then l.ordered - Assigned(moves, l.id) else 0.0
  {
    NewMovesFill(lines, moves, picking, id, l.id);
  }

  lemma {:induction false} CandidatesDistinct(moves: seq<Move>, picking: nat)
    requires forall i, j :: 0 <= i < j < |moves| ==> moves[i].id != moves[j].id
    ensures S.DistinctMoves(Candidates(moves, picking))
  {
    if moves != [] {
      var front, m := moves[..|moves| - 1], moves[|moves| - 1];
      CandidatesDistinct(front, picking);
      forall c | c in Candidates(front, picking) ensures c.id != m.id {
        CandidateOf(front, picking, c);
      }
    }
  }

  /** Line `j` of the item gets quantity `j`. */
  lemma WrittenAt(st: State, picking: nat, product: nat, quantity: real, j: nat)
    requires DistinctMoves(st)
    requires var lines := ShipLines(st.moves, picking, product); j < |S.Alloc(S.Demands(lines), quantity)|
    ensures var lines := ShipLines(st.moves, picking, product);
            var w := Writes(st.moves, picking, product, quantity);
            lines[j].id in w && w[lines[j].id] == S.Alloc(S.Demands(lines), quantity)[j]
  {
    var lines := ShipLines(st.moves, picking, product);
    CandidatesDistinct(st.moves, picking);
    S.LinesDistinct(Candidates(st.moves, picking), product);
    WrittenIn(lines, S.Alloc(S.Demands(lines), quantity), j);
    S.WrittenGet(map[], lines, S.Alloc(S.Demands(lines), quantity), j);
  }

  lemma {:induction false} WrittenIn(lines: seq<S.Move>, quantities: seq<real>, j: nat)
    requires j < |quantities| <= |lines|
    ensures lines[j].id in S.Written(map[], lines, quantities)
  {
    var n := |quantities| - 1;
    if j < n { WrittenIn(lines, quantities[..n], j); }
  }

  /**
    A shipped item is entered in full on the open transfer: the quantities put on its moves add up to
    the item, every one of them is stored, and no move ends up done beyond its demand.
  */
  lemma ShippedInFull(st: State, picking: nat, product: nat, quantity: real)
    requires DistinctMoves(st) && IsOpen(st.moves, picking) && ShipLines(st.moves, picking, product) != []
    ensures var lines := ShipLines(st.moves, picking, product);
            var quantities := S.Alloc(S.Demands(lines), quantity);
            && S.Sum(quantities) == quantity
            && forall j :: 0 <= j < |quantities| ==>
                 exists i :: 0 <= i < |st.moves| && st.moves[i].id == lines[j].id
                             && ShipItem(st, picking, product, quantity).moves[i].done == quantities[j]
    ensures forall i :: 0 <= i < |st.moves| && st.moves[i].id in Writes(st.moves, picking, product, quantity) ==>
              var m := ShipItem(st, picking, product, quantity).moves[i];
              && m.picking == picking && m.product == product && m.done <= m.demand
              && (m.demand == st.moves[i].demand || m.demand == m.done)
  {
    var lines := ShipLines(st.moves, picking, product);
    var quantities := S.Alloc(S.Demands(lines), quantity);
    S.AllocConserves(S.Demands(lines), quantity);
    S.LinesMembers(Candidates(st.moves, picking), product);
    forall j | 0 <= j < |quantities|
      ensures exists i :: 0 <= i < |st.moves| && st.moves[i].id == lines[j].id
                          && ShipItem(st, picking, product, quantity).moves[i].done == quantities[j]
    {
      WrittenAt(st, picking, product, quantity, j);
      assert lines[j] in lines;
      CandidateOf(st.moves, picking, lines[j]);
      var i :| 0 <= i < |st.moves| && st.moves[i].id == lines[j].id;
      assert ShipItem(st, picking, product, quantity).moves[i]
        == ShipMove(st.moves[i], Writes(st.moves, picking, product, quantity));
    }
    forall i | 0 <= i < |st.moves| && st.moves[i].id in Writes(st.moves, picking, product, quantity)
      ensures st.moves[i].picking == picking && st.moves[i].product == product
    {
      WritesInPicking(st, picking, product, quantity, i);
    }
  }

  // ---- what processing and cancelling leave on each move ----

  /**
    Processing a transfer: a move with an entered quantity is done with it; one without is done in full, or
    cancelled; moves that are not open and other transfers stay. It raises exactly for a negative quantity.
  */
  lemma ProcessedMoves(st: State, picking: nat, full: bool)
    ensures ActionDone(st, picking, full).None? <==>
            exists m :: m in st.moves && m.picking == picking && m.state == Draft && m.done < 0.0
    ensures ActionDone(st, picking, full).Some? ==>
              var after := ActionDone(st, picking, full).value;
              && |after.moves| == |st.moves| && after == st.(moves := after.moves, lines := after.lines)
              && forall i :: 0 <= i < |st.moves| ==>
                   var m, n := st.moves[i], after.moves[i];
                   if m.picking != picking || m.state != Draft then n == m
                   else if m.done != 0.0 then n == m.(state := Done)
                   else if full then n == m.(state := Done, done := m.demand)
                   else n == m.(state := Cancel)
  { }

  /** What cancelling a transfer takes off the assigned quantity of a line. */
  function Released(moves: seq<Move>, picking: nat, keepDone: bool, line: nat): real {
    if moves == [] then 0.0
    else
      var m := moves[|moves| - 1];
      Released(moves[..|moves| - 1], picking, keepDone, line)
      + if m.picking != picking || m.line != line || m.state == Cancel then 0.0
        else if m.state == Draft then m.demand
        else if keepDone then 0.0
        else m.done
  }

  lemma {:induction false} CancelReleases(moves: seq<Move>, picking: nat, keepDone: bool, line: nat)
    ensures Assigned(Cancelled(moves, picking, keepDone), line)
         == Assigned(moves, line) - Released(moves, picking, keepDone, line)
    ensures DoneSum(Cancelled(moves, picking, keepDone), line)
         == DoneSum(moves, line) - if keepDone then 0.0 else DoneIn(moves, picking, line)
    decreases |moves|
  {
    if moves != [] {
      var front := moves[..|moves| - 1];
      CancelReleases(front, picking, keepDone, line);
      assert Cancelled(moves, picking, keepDone)[..|moves| - 1] == Cancelled(front, picking, keepDone);
    }
  }

  /**
    Cancelling a transfer: every move of it is cancelled, except done ones that are to be kept; the transfer
    counts as cancelled unless such a move is left, and as done then. Its lines release what was open and,
    where done moves are cancelled as well, what was done, which is no longer delivered.
  */
  lemma CancelledMoves(st: State, picking: nat, keepDone: bool)
    ensures var after := ActionCancel(st, picking, keepDone);
            && |after.moves| == |st.moves| && after == st.(moves := after.moves, lines := after.lines)
            && forall i :: 0 <= i < |st.moves| ==>
                 var m := st.moves[i];
                 after.moves[i]
                 == if m.picking != picking || (keepDone && m.state == Done) then m else m.(state := Cancel)
    ensures InPicking(st.moves, picking) ==>
              PickingState(ActionCancel(st, picking, keepDone).moves, picking)
              == if keepDone && exists m :: m in st.moves && m.picking == picking && m.state == Done
                 then Done else Cancel
    ensures forall line :: Assigned(ActionCancel(st, picking, keepDone).moves, line)
                        == Assigned(st.moves, line) - Released(st.moves, picking, keepDone, line)
  {
    var after := ActionCancel(st, picking, keepDone);
    forall line
      ensures Assigned(after.moves, line) == Assigned(st.moves, line) - Released(st.moves, picking, keepDone, line)
    {
      CancelReleases(st.moves, picking, keepDone, line);
    }
    if InPicking(st.moves, picking) { CancelledState(st.moves, picking, keepDone); }
  }

  lemma CancelledState(moves: seq<Move>, picking: nat, keepDone: bool)
    requires InPicking(moves, picking)
    ensures PickingState(Cancelled(moves, picking, keepDone), picking)
         == if keepDone && exists m :: m in moves && m.picking == picking && m.state == Done then Done else Cancel
  {
    var after := Cancelled(moves, picking, keepDone);
    var m :| m in moves && m.picking == picking;
    var i :| 0 <= i < |moves| && moves[i] == m;
    assert after[i] in after && after[i].picking == picking;
    forall n | n in after && n.picking == picking
      ensures n.state == Cancel || (keepDone && n.state == Done && n in moves)
    {
      var k :| 0 <= k < |after| && after[k] == n;
      assert moves[k] in moves;
    }
    if keepDone && exists d :: d in moves && d.picking == picking && d.state == Done {
      var d :| d in moves && d.picking == picking && d.state == Done;
      var k :| 0 <= k < |moves| && moves[k] == d;
      assert after[k] == d && d in after;
    }
  }

  /** The delivered quantity of a deliverable line of the transfer after it was cancelled. */
  lemma CancelledDelivery(st: State, picking: nat, keepDone: bool, k: nat)
    requires Inv(st) && k < |st.lines| && st.lines[k].deliverable
    ensures ActionCancel(st, picking, keepDone).lines[k].delivered
         == st.lines[k].delivered - if keepDone then 0.0 else DoneIn(st.moves, picking, st.lines[k].id)
  {
    var after := ActionCancel(st, picking, keepDone);
    CancelKeepsInv(st, picking, keepDone);
    CancelReleases(st.moves, picking, keepDone, st.lines[k].id);
    assert after.lines[k].id == st.lines[k].id && after.lines[k].deliverable;
  }

  // ---- what confirming and generating leave ----

  /** How a confirmation goes: decided by the moves of the transfer and by what was entered on its open ones. */
  lemma ConfirmOutcome(st: State, picking: nat)
    ensures var (o, after) := ActionConfirm(st, picking);
            && (o == NoItems <==> forall m :: m in st.moves && m.picking == picking ==> m.demand == 0.0)
            && (o == AskImmediate <==>
                  o != NoItems
                  && forall m :: m in st.moves && m.picking == picking && m.state == Draft ==> m.done == 0.0)
            && (o == InvalidQuantity <==>
                  o != NoItems
                  && exists m :: m in st.moves && m.picking == picking && m.state == Draft && m.done < 0.0)
            && (o != Confirmed ==> after == st)
  { }

  /** The move a short line gets: open, with nothing entered, for what is not assigned yet. */
  predicate FillsUp(m: Move, l: Line, moves: seq<Move>, picking: nat) {
    && m.line == l.id && m.product == l.product && m.picking == picking
    && m.demand == l.ordered - Assigned(moves, l.id) && m.done == 0.0 && m.state == Draft
  }

  function ShortLines(lines: seq<Line>, moves: seq<Move>): (r: seq<Line>)
    ensures forall l :: l in r <==> l in lines && l.deliverable && Assigned(moves, l.id) < l.ordered
  {
    if lines == [] then []
    else
      var l := lines[|lines| - 1];
      ShortLines(lines[..|lines| - 1], moves) + if l.deliverable && Assigned(moves, l.id) < l.ordered then [l] else []
  }

  /** One move for each of the lines. */
  predicate FillUp(extra: seq<Move>, lines: seq<Line>, moves: seq<Move>, picking: nat) {
    |extra| == |lines| && forall i :: 0 <= i < |extra| ==> FillsUp(extra[i], lines[i], moves, picking)
  }

  lemma {:induction false} NewMovesAre(lines: seq<Line>, moves: seq<Move>, picking: nat, id: nat)
    ensures FillUp(NewMoves(lines, moves, picking, id), ShortLines(lines, moves), moves, picking)
    ensures forall i :: 0 <= i < |NewMoves(lines, moves, picking, id)| ==>
              NewMoves(lines, moves, picking, id)[i].id == id + i
    decreases |lines|
  {
    if lines != [] { NewMovesAre(lines[..|lines| - 1], moves, picking, id); }
  }

  /** A backorder is one new transfer with a move for every short line and nothing else, if a line is short. */
  lemma BackorderOutcome(st: State)
    ensures var after := Backorder(st);
            && after.lines == st.lines && |after.moves| >= |st.moves| && after.moves[..|st.moves|] == st.moves
            && FillUp(after.moves[|st.moves|..], ShortLines(st.lines, st.moves), st.moves, st.nextPicking)
  {
    NewMovesAre(st.lines, st.moves, st.nextPicking, st.nextMove);
    var extra := NewMoves(st.lines, st.moves, st.nextPicking, st.nextMove);
    if exists l :: l in st.lines && Short(st.moves, l) {
      assert Backorder(st).moves[|st.moves|..] == extra;
    } else {
      var short := ShortLines(st.lines, st.moves);
      assert short != [] ==> short[0] in short;
      assert Backorder(st).moves[|st.moves|..] == [];
    }
  }

  /**
    When the order is confirmed: the open moves of short lines are put into the open transfer that was
    found, or into a new one, and all other moves stay; every short line without an open move gets one
    there for what is missing.
  */
  lemma GenerateOutcome(st: State, target: Option<nat>)
    requires DistinctLines(st.lines)
    ensures var after := GenerateMoves(st, target);
            var picking := if target.Some? && Eligible(st, target.value) then target.value else st.nextPicking;
            && after.lines == st.lines && |after.moves| >= |st.moves|
            && (forall i :: 0 <= i < |st.moves| ==>
                  var m := st.moves[i];
                  after.moves[i]
                  == if m.state == Draft && (exists l :: l in st.lines && l.id == m.line && l.deliverable
                                                         && Assigned(st.moves, l.id) < l.ordered)
                     then m.(picking := picking) else m)
            && FillUp(after.moves[|st.moves|..], ShortLines(WithoutDraft(st.lines, st.moves), st.moves), st.moves,
                      picking)
    ensures forall l :: l in WithoutDraft(st.lines, st.moves) <==>
                        l in st.lines && forall m :: m in st.moves && m.line == l.id ==> m.state != Draft
  {
    var picking := if target.Some? && Eligible(st, target.value) then target.value else st.nextPicking;
    var rest := WithoutDraft(st.lines, st.moves);
    NewMovesAre(rest, st.moves, picking, st.nextMove);
    assert GenerateMoves(st, target).moves[|st.moves|..] == NewMoves(rest, st.moves, picking, st.nextMove);
    forall l ensures l in rest <==> l in st.lines && forall m :: m in st.moves && m.line == l.id ==> m.state != Draft {
      WithoutDraftMembers(st.lines, st.moves, l);
    }
  }
}
