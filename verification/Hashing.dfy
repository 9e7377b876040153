// The Zobrist key of a position and how single-square edits change it.
module Hashing {
  import opened Geometry
  import opened Rules

  // The key table: any function will do, the proofs never look inside.
  datatype Zobrist = Zobrist(piece: (Cell, int) -> bv64, side: bv64)

  function Xor(a: bv64, b: bv64): bv64 { a ^ b }

  function CellKey(z: Zobrist, c: Cell, s: int): bv64 {
    if c.Man? then z.piece(c, s) else 0
  }

  // xor over the squares i, i+1, ..., 89
  function KeyFrom(z: Zobrist, b: Board, i: nat): bv64
    requires i <= 90
    decreases 90 - i
  {
    if i == 90 then 0 else Xor(CellKey(z, b[i], i), KeyFrom(z, b, i + 1))
  }

  function TurnKey(z: Zobrist, turn: Side): bv64 { if turn.White? then z.side else 0 }

  function PosKey(z: Zobrist, b: Board, turn: Side): bv64 { Xor(KeyFrom(z, b, 0), TurnKey(z, turn)) }

  lemma XorAssoc(a: bv64, b: bv64, c: bv64)
    ensures Xor(Xor(a, b), c) == Xor(a, Xor(b, c))
  {
  }

  lemma XorComm(a: bv64, b: bv64)
    ensures Xor(a, b) == Xor(b, a)
  {
  }

  lemma XorSelf(a: bv64)
    ensures Xor(a, a) == 0 && Xor(a, 0) == a
  {
  }

  lemma XorCancel(a: bv64, b: bv64)
    ensures Xor(Xor(a, b), b) == a
  {
    hide Xor;
    XorAssoc(a, b, b);
    XorSelf(a);
    XorSelf(b);
  }

  lemma XorLater(a: bv64, b: bv64, c: bv64)
    ensures Xor(Xor(a, b), c) == Xor(Xor(a, c), b)
  {
    hide Xor;
    XorAssoc(a, b, c);
    XorAssoc(a, c, b);
    XorComm(b, c);
  }

  // Replacing the contribution x of one square by y.
  function Swap(k: bv64, x: bv64, y: bv64): bv64 { Xor(Xor(k, x), y) }

  lemma SwapDeeper(a: bv64, r: bv64, x: bv64, y: bv64)
    ensures Xor(a, Swap(r, x, y)) == Swap(Xor(a, r), x, y)
  {
    hide Xor;
    XorAssoc(a, Xor(r, x), y);
    XorAssoc(a, r, x);
  }

  lemma SwapHere(r: bv64, x: bv64, y: bv64)
    ensures Xor(y, r) == Swap(Xor(x, r), x, y)
  {
    hide Xor;
    XorComm(x, r);
    XorCancel(r, x);
    XorComm(r, y);
  }

  lemma {:induction false} KeyEdit(z: Zobrist, b: Board, s: nat, c: Cell, i: nat)
    requires s < 90 && i <= 90
    ensures KeyFrom(z, b[s := c], i)
         == if i <= s then Swap(KeyFrom(z, b, i), CellKey(z, b[s], s), CellKey(z, c, s)) else KeyFrom(z, b, i)
    decreases 90 - i
  {
    hide Xor, Swap, CellKey;
    if i < 90 {
      KeyEdit(z, b, s, c, i + 1);
      SwapDeeper(CellKey(z, b[i], i), KeyFrom(z, b, i + 1), CellKey(z, b[s], s), CellKey(z, c, s));
      SwapHere(KeyFrom(z, b, i + 1), CellKey(z, b[s], s), CellKey(z, c, s));
    }
  }

  // The toggles of one move: the captured piece, then the moved piece on both squares and the side.
  function Toggled(z: Zobrist, k: bv64, mover: Cell, cap: Cell, from: int, to: int): bv64 {
    Xor(Xor(k, CellKey(z, cap, to)), Xor(Xor(CellKey(z, mover, from), CellKey(z, mover, to)), z.side))
  }

  // Two squares edited, read with and without the turn key t.
  lemma XorAll(k: bv64, x: bv64, y: bv64, c: bv64, t: bv64)
    ensures Swap(Swap(k, x, 0), c, y) == Xor(Xor(k, c), Xor(x, y))
    ensures Xor(Xor(Xor(k, c), Xor(x, y)), t) == Xor(Xor(k, c), Xor(Xor(x, y), t))
    ensures Xor(Xor(k, c), Xor(x, y)) == Xor(Xor(Xor(k, t), c), Xor(Xor(x, y), t))
  {
    hide Xor;
    var d := Xor(x, y);
    XorSelf(Xor(k, x));
    XorLater(k, x, c);
    XorAssoc(Xor(k, c), x, y);
    XorAssoc(Xor(k, c), d, t);
    XorLater(k, t, c);
    XorAssoc(Xor(Xor(k, t), c), d, t);
    XorLater(Xor(k, c), t, d);
    XorCancel(Xor(Xor(k, c), d), t);
  }

  // Toggling keeps the running key equal to the key computed afresh ...
  lemma KeyOfMove(z: Zobrist, b: Board, turn: Side, from: int, to: int)
    requires OnBoard(from) && OnBoard(to) && from != to
    ensures PosKey(z, Apply(b, from, to), turn.Other()) == Toggled(z, PosKey(z, b, turn), b[from], b[to], from, to)
  {
    hide Xor, Swap;
    KeyEdit(z, b, from, Empty, 0);
    KeyEdit(z, b[from := Empty], to, b[from], 0);
    XorAll(KeyFrom(z, b, 0), CellKey(z, b[from], from), CellKey(z, b[from], to), CellKey(z, b[to], to), z.side);
    XorSelf(KeyFrom(z, b, 0));
    XorSelf(KeyFrom(z, Apply(b, from, to), 0));
  }

  // ... and undoing the move toggles back.
  lemma ToggledTwice(z: Zobrist, k: bv64, mover: Cell, cap: Cell, from: int, to: int)
    ensures Toggled(z, Toggled(z, k, mover, cap, from, to), mover, cap, from, to) == k
  {
    hide Xor;
    var c, d := CellKey(z, cap, to), Xor(Xor(CellKey(z, mover, from), CellKey(z, mover, to)), z.side);
    XorLater(Xor(k, c), d, c);
    XorCancel(k, c);
    XorCancel(k, d);
  }
}
