// The boards of recorded play, rewound and replayed in place.
module Rewinding {
  import opened Geometry
  import opened Rules
  import opened Attacks
  import opened History
  import opened Engine

  // ---- the boards of the past ----

  function SideAt(turn: Side, n: nat, i: nat): Side { if (n + i) % 2 == 0 then turn else turn.Other() }

  lemma SideBefore(turn: Side, n: nat, i: nat)
    ensures n > 0 ==> SideAt(turn.Other(), n - 1, i) == SideAt(turn, n, i)
    ensures n == i + 1 ==> SideAt(turn, n, i) == turn.Other()
  {
  }

  // Going back one ply of a chronicle undoes the recorded move.
  lemma {:induction false} RewindStep(b: Board, turn: Side, stack: seq<Played>, i: nat)
    requires Chronicle(b, turn, stack) && 0 < i <= |stack|
    ensures var p, a := Rewind(b, stack, i - 1), Rewind(b, stack, i);
      p == Undo(a, stack[i - 1]) && Records(stack[i - 1], p, SideAt(turn, |stack|, i - 1), a)
    decreases |stack|
  {
    hide Records, Undo, SideAt;
    SideBefore(turn, |stack|, i - 1);
    if i < |stack| {
      RewindStep(Undo(b, stack[|stack| - 1]), turn.Other(), stack[..|stack| - 1], i);
    }
  }

  // A ply without capture, read forwards and backwards.
  ghost predicate QuietPly(p: Board, h: Played, a: Board) {
    var from, to := MoveFrom(h.move), MoveTo(h.move);
    && Movable(p, from, to) && p[to].Empty? && a == Apply(p, from, to)
    && Movable(a, to, from) && a[from].Empty? && p == Apply(a, to, from)
  }

  lemma QuietStep(b: Board, turn: Side, stack: seq<Played>, i: nat)
    requires Chronicle(b, turn, stack) && 0 < i <= |stack| && stack[i - 1].cap.Empty?
    ensures QuietPly(Rewind(b, stack, i - 1), stack[i - 1], Rewind(b, stack, i))
  {
    hide Chronicle, Placed, Rewind, Reaches, MoveFrom, MoveTo;
    RewindStep(b, turn, stack, i);
  }

  // No capture from ply lo on.
  ghost predicate Quiet(stack: seq<Played>, lo: int) {
    forall i :: 0 <= i < |stack| && lo <= i ==> stack[i].cap.Empty?
  }

  // ---- rewinding and replaying in place ----

  // The board stands at ply ix of the play that led to b.
  ghost predicate At(p: Position, b: Board, ix: int)
    reads p, p.square, p.pieces, p.number
  {
    p.Agrees() && 0 <= ix <= |p.stack| && p.Board() == Rewind(b, p.stack, ix)
  }

  method StepBack(p: Position, ghost b: Board, ghost t: Side, ix: int)
    requires At(p, b, ix) && Chronicle(b, t, p.stack) && 0 < ix && p.stack[ix - 1].cap.Empty?
    modifies p`blockers, p.square, p.pieces
    ensures At(p, b, ix - 1)
  {
    QuietStep(b, t, p.stack, ix);
    hide Rewind, MoveFrom, MoveTo, Bits, Counts, Occ, Chronicle;
    p.RepMoveUndo(MoveFrom(p.stack[ix - 1].move), MoveTo(p.stack[ix - 1].move));
  }

  // Replay everything undone.
  method Replay(p: Position, ghost b: Board, ghost t: Side, undoIx: int)
    requires At(p, b, undoIx) && Chronicle(b, t, p.stack) && Quiet(p.stack, undoIx)
    modifies p`blockers, p.square, p.pieces
    ensures p.Agrees() && p.Board() == b
  {
    hide Rewind, MoveFrom, MoveTo, Bits, Counts, Occ, Chronicle;
    var ix := undoIx;
    while ix != |p.stack|
      invariant undoIx <= ix <= |p.stack| && At(p, b, ix)
      decreases |p.stack| - ix
    {
      QuietStep(b, t, p.stack, ix + 1);
      p.RepMoveDo(MoveFrom(p.stack[ix].move), MoveTo(p.stack[ix].move));
      ix := ix + 1;
    }
    RewindNone(b, p.stack);
  }

  lemma RewindNone(b: Board, stack: seq<Played>)
    ensures Rewind(b, stack, |stack|) == b
  {
  }

  // ---- the last move taken back and made again ----

  // The last move from-to took nothing, so it can be taken back and made again.
  ghost predicate LastQuiet(b: Board, from: int, to: int) { Movable(b, to, from) && b[from].Empty? }

  ghost predicate Stands(p: Position, b: Board)
    reads p, p.square, p.pieces, p.number
  {
    p.Agrees() && p.Board() == b
  }

  lemma ThereAndBack(b: Board, from: int, to: int)
    requires LastQuiet(b, from, to)
    ensures var u := Apply(b, to, from); Movable(u, from, to) && u[to].Empty? && Apply(u, from, to) == b
  {
  }

  // What the forms hold when they agree with the board.
  lemma FormsHold(p: Position, c: Side, kind: Kind)
    requires p.Agrees()
    ensures p.pieces[Slot(c, kind)] == Of(p.Board(), c, kind) && p.pieces[SideSlot(c)] == Men(p.Board(), c)
    ensures p.blockers == Occ(p.Board()) && p.square[..] == p.Board()
  {
    hide Counts;
  }
}
