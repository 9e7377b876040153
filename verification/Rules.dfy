// The rules of xiangqi on a plain board: the reference against which the
// position engine is proved.
module Rules {
  import opened Geometry

  datatype Kind = King | Rook | Knight | Cannon | Advisor | Bishop | Pawn

  datatype Cell = Empty | Man(side: Side, kind: Kind)

  type Board = b: seq<Cell> | |b| == 90 witness seq(90, _ => Empty)

  predicate Has(b: Board, s: int, c: Side, kind: Kind) { OnBoard(s) && b[s] == Man(c, kind) }

  predicate Own(b: Board, s: int, c: Side) { OnBoard(s) && b[s].Man? && b[s].side == c }

  function Occ(b: Board): set<int> { set s | 0 <= s < 90 && b[s].Man? }

  // How a piece of kind `kind` and side c moves from one square to another.
  predicate Reaches(b: Board, kind: Kind, c: Side, from: int, to: int)
    requires OnBoard(from) && OnBoard(to)
  {
    if kind.Rook? then Aligned(from, to) && Screens(Occ(b), from, to) == {}
    else if kind.Cannon? then Aligned(from, to) && |Screens(Occ(b), from, to)| == (if b[to].Empty? then 0 else 1)
    else if kind.Knight? then KnightStep(from, to) && Leg(from, to) !in Occ(b)
    else if kind.Bishop? then
      BishopPoint(from, c) && BishopPoint(to, c) && DiagonalStep(from, to, 2) && (from + to) / 2 !in Occ(b)
    else if kind.Advisor? then AdvisorPoint(from, c) && AdvisorPoint(to, c) && DiagonalStep(from, to, 1)
    else if kind.Pawn? then PawnStep(from, to, c)
    else Palace(from, c) && Palace(to, c) && KingStep(from, to)
  }

  // A move of side c that respects how the pieces move, own king's safety aside.
  predicate Pseudo(b: Board, c: Side, from: int, to: int) {
    && OnBoard(from) && OnBoard(to) && from != to
    && Own(b, from, c) && !Own(b, to, c)
    && Reaches(b, b[from].kind, c, from, to)
  }

  // The board after the move.
  function Apply(b: Board, from: int, to: int): (r: Board)
    requires OnBoard(from) && OnBoard(to)
  {
    b[from := Empty][to := b[from]]
  }

  // Some move of the other side would capture c's king.
  ghost predicate InCheck(b: Board, c: Side) {
    exists s, k :: Has(b, k, c, King) && Pseudo(b, c.Other(), s, k)
  }

  // The two kings look at each other along an open file.
  ghost predicate Facing(b: Board) {
    exists w, k :: Has(b, w, White, King) && Has(b, k, Black, King) && SameFile(w, k) && Screens(Occ(b), w, k) == {}
  }

  // c's king is not attacked and the kings do not face.
  ghost predicate Safe(b: Board, c: Side) { !InCheck(b, c) && !Facing(b) }

  ghost predicate Legal(b: Board, c: Side, from: int, to: int) {
    Pseudo(b, c, from, to) && Safe(Apply(b, from, to), c)
  }

  // Side c attacks k, the other king's square: by a capturing move or, for
  // the king, by looking along an open file.
  predicate Strikes(b: Board, c: Side, s: int, k: int)
    requires OnBoard(k)
  {
    || Pseudo(b, c, s, k)
    || (Has(b, s, c, King) && SameFile(s, k) && Screens(Occ(b), s, k) == {})
  }

  // Where the pieces stand: what `from_fen` accepts and moves keep.
  ghost predicate KingPlaced(b: Board, c: Side, k: int) {
    Has(b, k, c, King) && Palace(k, c) && forall s :: Has(b, s, c, King) ==> s == k
  }

  predicate PointOk(c: Side, kind: Kind, s: int) {
    if kind.King? then Palace(s, c)
    else if kind.Advisor? then AdvisorPoint(s, c)
    else if kind.Bishop? then BishopPoint(s, c)
    else if kind.Pawn? then PawnPoint(s, c)
    else true
  }

  ghost predicate Placed(b: Board) {
    && (forall s :: OnBoard(s) && b[s].Man? ==> PointOk(b[s].side, b[s].kind, s))
    && (exists k :: KingPlaced(b, White, k))
    && (exists k :: KingPlaced(b, Black, k))
  }

  // A king stays alone in its palace.
  lemma MovesKeepKing(b: Board, c: Side, from: int, to: int, side: Side, k: int)
    requires KingPlaced(b, side, k) && Pseudo(b, c, from, to) && to != k
    ensures KingPlaced(Apply(b, from, to), side, if from == k then to else k)
  {
    var a := Apply(b, from, to);
    forall s | Has(a, s, side, King)
      ensures s == if from == k then to else k
    {
      assert s != to ==> Has(b, s, side, King);
      assert s == to ==> Has(b, from, side, King);
    }
  }
}
