// Packed moves, the history stack, and the boards it leads back to.
module History {
  import opened Geometry
  import opened Rules
  import opened Hashing

  function MoveMake(from: int, to: int): int { from * 128 + to }

  function MoveFrom(m: int): int { m / 128 % 128 }

  function MoveTo(m: int): int { m % 128 }

  lemma Unpack(from: int, to: int)
    requires OnBoard(from) && OnBoard(to)
    ensures MoveFrom(MoveMake(from, to)) == from && MoveTo(MoveMake(from, to)) == to
    ensures 0 <= MoveMake(from, to) < 0x1_0000 && (MoveMake(from, to) == 0 <==> from == to == 0)
  {
  }

  // One entry of the stack: key before the move, the move, what it captured, did it give check.
  datatype Played = Played(lock: bv64, move: int, cap: Cell, check: bool)

  function Undo(b: Board, h: Played): Board {
    var from, to := MoveFrom(h.move), MoveTo(h.move);
    if OnBoard(from) && OnBoard(to) then b[from := b[to]][to := h.cap] else b
  }

  // h is the record of a pseudo-legal move from p to b that captured no king.
  ghost predicate Records(h: Played, p: Board, mover: Side, b: Board) {
    var from, to := MoveFrom(h.move), MoveTo(h.move);
    && Placed(p) && Pseudo(p, mover, from, to) && b == Apply(p, from, to)
    && h.cap == p[to] && !(h.cap.Man? && h.cap.kind.King?)
  }

  // The stack records the play that led to b with `turn` to move.
  ghost predicate Chronicle(b: Board, turn: Side, stack: seq<Played>)
    decreases |stack|
  {
    stack == [] ||
    (var h, p := stack[|stack| - 1], Undo(b, stack[|stack| - 1]);
     Records(h, p, turn.Other(), b) && Chronicle(p, turn.Other(), stack[..|stack| - 1]))
  }

  // Every stacked lock is the key of the position the move was made in.
  ghost predicate Locked(z: Zobrist, b: Board, turn: Side, stack: seq<Played>)
    decreases |stack|
  {
    stack == [] ||
    (var h, p := stack[|stack| - 1], Undo(b, stack[|stack| - 1]);
     h.lock == PosKey(z, p, turn.Other()) && Locked(z, p, turn.Other(), stack[..|stack| - 1]))
  }

  // The board after the first i moves.
  function Rewind(b: Board, stack: seq<Played>, i: nat): Board
    requires i <= |stack|
    decreases |stack|
  {
    if |stack| == i then b else Rewind(Undo(b, stack[|stack| - 1]), stack[..|stack| - 1], i)
  }

  lemma UndoneIs(b: Board, c: Side, from: int, to: int, h: Played)
    requires Pseudo(b, c, from, to) && MoveFrom(h.move) == from && MoveTo(h.move) == to && h.cap == b[to]
    ensures Undo(Apply(b, from, to), h) == b && Apply(b, from, to)[to] == b[from]
    ensures OnBoard(from) && OnBoard(to) && from != to
  {
  }

  lemma MovesKeepPlaced(b: Board, c: Side, from: int, to: int)
    requires Placed(b) && Pseudo(b, c, from, to) && !Has(b, to, c.Other(), King)
    ensures Placed(Apply(b, from, to))
  {
    hide KingPlaced, Screens, Occ;
    var a := Apply(b, from, to);
    var w :| KingPlaced(b, White, w);
    var k :| KingPlaced(b, Black, k);
    NotTheKing(b, c, from, to, White, w);
    NotTheKing(b, c, from, to, Black, k);
    MovesKeepKing(b, c, from, to, White, w);
    MovesKeepKing(b, c, from, to, Black, k);
    assert PointOk(b[from].side, b[from].kind, to);
  }

  lemma NotTheKing(b: Board, c: Side, from: int, to: int, side: Side, k: int)
    requires KingPlaced(b, side, k) && Pseudo(b, c, from, to) && !Has(b, to, c.Other(), King)
    ensures to != k
  {
  }

  lemma ChronicleGrows(b: Board, turn: Side, stack: seq<Played>, h: Played)
    requires Placed(b) && Chronicle(b, turn, stack)
    requires Pseudo(b, turn, MoveFrom(h.move), MoveTo(h.move)) && !Has(b, MoveTo(h.move), turn.Other(), King)
    requires h.cap == b[MoveTo(h.move)]
    ensures Chronicle(Apply(b, MoveFrom(h.move), MoveTo(h.move)), turn.Other(), stack + [h])
  {
    var a := Apply(b, MoveFrom(h.move), MoveTo(h.move));
    assert Undo(a, h) == b;
    assert (stack + [h])[..|stack|] == stack;
  }

  lemma LockedGrows(z: Zobrist, b: Board, turn: Side, stack: seq<Played>, h: Played)
    requires Locked(z, b, turn, stack) && Pseudo(b, turn, MoveFrom(h.move), MoveTo(h.move))
    requires h.cap == b[MoveTo(h.move)] && h.lock == PosKey(z, b, turn)
    ensures Locked(z, Apply(b, MoveFrom(h.move), MoveTo(h.move)), turn.Other(), stack + [h])
  {
    hide PosKey;
    var a := Apply(b, MoveFrom(h.move), MoveTo(h.move));
    assert Undo(a, h) == b;
    assert (stack + [h])[..|stack|] == stack;
  }

  // One recorded move keeps the whole record: placement, chronicle, locks and key.
  lemma RecordGrows(z: Zobrist, b: Board, turn: Side, stack: seq<Played>, h: Played)
    requires Placed(b) && Chronicle(b, turn, stack)
    requires Pseudo(b, turn, MoveFrom(h.move), MoveTo(h.move)) && !Has(b, MoveTo(h.move), turn.Other(), King)
    requires h.cap == b[MoveTo(h.move)]
    ensures var a := Apply(b, MoveFrom(h.move), MoveTo(h.move));
      && Placed(a) && Chronicle(a, turn.Other(), stack + [h])
      && (h.lock == PosKey(z, b, turn) && Locked(z, b, turn, stack) ==>
           && Locked(z, a, turn.Other(), stack + [h])
           && PosKey(z, a, turn.Other())
             == Toggled(z, h.lock, b[MoveFrom(h.move)], h.cap, MoveFrom(h.move), MoveTo(h.move)))
  {
    hide Placed, Chronicle, Locked, PosKey, Toggled, Reaches, MoveFrom, MoveTo;
    MovesKeepPlaced(b, turn, MoveFrom(h.move), MoveTo(h.move));
    ChronicleGrows(b, turn, stack, h);
    KeyOfMove(z, b, turn, MoveFrom(h.move), MoveTo(h.move));
    if h.lock == PosKey(z, b, turn) && Locked(z, b, turn, stack) {
      LockedGrows(z, b, turn, stack, h);
    }
  }

  // What the top entry of a chronicle says of the board before it.
  lemma TopRecord(b: Board, turn: Side, stack: seq<Played>)
    requires Chronicle(b, turn, stack) && stack != []
    ensures var h := stack[|stack| - 1];
      var p, from, to := Undo(b, h), MoveFrom(h.move), MoveTo(h.move);
      && Placed(p) && Pseudo(p, turn.Other(), from, to) && b == Apply(p, from, to)
      && OnBoard(from) && OnBoard(to) && from != to
      && b[to] == p[from] && b[to].Man? && b[to].side == turn.Other()
      && h.cap == p[to] && (h.cap.Man? ==> h.cap.side == turn && !h.cap.kind.King?)
      && Chronicle(p, turn.Other(), stack[..|stack| - 1])
  {
  }

  // Unmaking toggles the key back to the lock.
  lemma KeyUnwinds(z: Zobrist, b: Board, turn: Side, stack: seq<Played>)
    requires Chronicle(b, turn, stack) && Locked(z, b, turn, stack) && stack != []
    ensures var h := stack[|stack| - 1];
      && Toggled(z, PosKey(z, b, turn), b[MoveTo(h.move)], h.cap, MoveFrom(h.move), MoveTo(h.move)) == h.lock
      && h.lock == PosKey(z, Undo(b, h), turn.Other())
      && Locked(z, Undo(b, h), turn.Other(), stack[..|stack| - 1])
  {
    hide Toggled, PosKey, Placed, Reaches, MoveFrom, MoveTo;
    var h := stack[|stack| - 1];
    TopRecord(b, turn, stack);
    var p, from, to := Undo(b, h), MoveFrom(h.move), MoveTo(h.move);
    KeyOfMove(z, p, turn.Other(), from, to);
    ToggledTwice(z, h.lock, p[from], h.cap, from, to);
  }
}
