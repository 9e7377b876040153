// Chess positions and moves on plain values: the reference for the chess board.
module ChessRules {
  import opened Geometry
  import opened Options

  datatype Piece = Pawn | Knight | Bishop | Rook | Queen | King

  datatype Cell = Empty | Man(side: Side, piece: Piece)

  type Board = b: seq<Cell> | |b| == 64 witness seq(64, _ => Empty)

  predicate On(s: int) { 0 <= s < 64 }

  function Row(s: int): int { s / 8 }

  function Col(s: int): int { s % 8 }

  // Castling rights: the file of the rook, by side and wing.
  datatype Rights = Rights(whiteShort: Option<int>, whiteLong: Option<int>, blackShort: Option<int>,
    blackLong: Option<int>) {
    function Get(c: Side, short: bool): Option<int> {
      if c.White? then (if short then whiteShort else whiteLong) else if short then blackShort else blackLong
    }

    function Clear(c: Side, short: bool): Rights {
      if c.White? then (if short then this.(whiteShort := None) else this.(whiteLong := None))
      else if short then this.(blackShort := None) else this.(blackLong := None)
    }

    function ClearBoth(c: Side): Rights { Clear(c, true).Clear(c, false) }

    predicate Has(c: Side) { Get(c, true).Some? || Get(c, false).Some? }
  }

  datatype Game = Game(board: Board, turn: Side, ep: Option<int>, rights: Rights)

  datatype MoveType = Normal | Promotion(to: Piece) | EnPassant | Castling

  datatype Move = Move(from: int, to: int, kind: MoveType)

  // The square behind a pawn that moved two squares, or before one taken in passing.
  function Behind(s: int): int { if Row(s) % 2 == 0 then s + 8 else s - 8 }

  function BackRow(c: Side): int { if c.White? then 0 else 7 }

  // Where king and rook stand after castling; on the short wing if the rook is to the right of the king.
  function KingTo(m: Move, c: Side): int { 8 * BackRow(c) + (if m.to > m.from then 6 else 2) }

  function RookTo(m: Move, c: Side): int { 8 * BackRow(c) + (if m.to > m.from then 5 else 3) }

  predicate Is(b: Board, s: int, c: Side, p: Piece) { On(s) && b[s] == Man(c, p) }

  predicate Free(b: Board, m: Move, s: int) { On(s) && (b[s].Empty? || s == m.from || s == m.to) }

  predicate CanStandOn(b: Board, c: Side, s: int) { On(s) && (b[s].Empty? || (b[s].side != c && !b[s].piece.King?)) }

  predicate DoublePush(b: Board, m: Move) {
    On(m.from) && b[m.from].Man? && b[m.from].piece.Pawn? && Abs(m.to - m.from) == 16
  }

  // What making a move relies on: the facts about a legal move that the board asserts.
  predicate Fits(g: Game, m: Move) {
    var b, c := g.board, g.turn;
    && On(m.from) && On(m.to) && m.from != m.to
    && match m.kind {
      case Normal =>
        && b[m.from].Man? && b[m.from].side == c && CanStandOn(b, c, m.to)
        && (DoublePush(b, m) ==> Row(m.to) == (if c.White? then 3 else 4) && b[m.to].Empty? && b[Behind(m.to)].Empty?)
      case Promotion(p) =>
        Is(b, m.from, c, Pawn) && CanStandOn(b, c, m.to) && !p.Pawn? && !p.King? && Abs(m.to - m.from) <= 9
      case EnPassant =>
        && Is(b, m.from, c, Pawn) && b[m.to].Empty? && g.ep == Some(m.to) && Abs(m.to - m.from) <= 9
        && Row(m.to) == (if c.White? then 5 else 2) && Is(b, Behind(m.to), c.Other(), Pawn) && Behind(m.to) != m.from
      case Castling =>
        && Is(b, m.from, c, King) && Is(b, m.to, c, Rook) && Row(m.from) == Row(m.to) == BackRow(c)
        && Free(b, m, KingTo(m, c)) && Free(b, m, RookTo(m, c))
    }
  }

  // The board after a move.
  function Moved(b: Board, c: Side, m: Move): Board
    requires On(m.from) && On(m.to)
  {
    match m.kind
    case Normal => b[m.from := Empty][m.to := b[m.from]]
    case Promotion(p) => b[m.from := Empty][m.to := Man(c, p)]
    case EnPassant =>
      var a := b[m.from := Empty][m.to := b[m.from]];
      if On(Behind(m.to)) then a[Behind(m.to) := Empty] else a
    case Castling => b[m.from := Empty][m.to := Empty][KingTo(m, c) := b[m.from]][RookTo(m, c) := b[m.to]]
  }

  // ---- castling rights after a move ----

  // A rook right goes when that rook leaves its square or is taken there.
  function RookGone(r: Rights, c: Side, s: int, king: int): Rights {
    if r.Get(c, s > king) == Some(Col(s)) then r.Clear(c, s > king) else r
  }

  ghost predicate KingOn(b: Board, c: Side, k: int) { Is(b, k, c, King) && forall s :: Is(b, s, c, King) ==> s == k }

  function RightsAfterCapture(g: Game, m: Move, enemyKing: int): Rights
    requires On(m.to)
  {
    if !m.kind.Castling? && g.board[m.to].Man? && g.board[m.to].piece.Rook? && Row(m.to) == BackRow(g.turn.Other())
    then RookGone(g.rights, g.turn.Other(), m.to, enemyKing) else g.rights
  }

  function RightsAfter(g: Game, m: Move, king: int, enemyKing: int): Rights
    requires On(m.from) && On(m.to)
  {
    var r := RightsAfterCapture(g, m, enemyKing);
    var p := g.board[m.from];
    if p.Man? && p.piece.King? && r.Has(g.turn) then r.ClearBoth(g.turn)
    else if p.Man? && p.piece.Rook? && Row(m.from) == BackRow(g.turn) then RookGone(r, g.turn, m.from, king)
    else r
  }

  // ---- the en passant square after a move ----

  predicate PawnHits(c: Side, from: int, to: int) {
    Row(to) == Row(from) + (if c.White? then 1 else -1) && Abs(Col(to) - Col(from)) == 1
  }

  // An enemy pawn stands where a pawn of side c on ep would hit it.
  predicate PawnBeside(b: Board, c: Side, ep: int) {
    exists s :: 0 <= s < 64 && b[s] == Man(c.Other(), Pawn) && PawnHits(c, ep, s)
  }

  // Whether a capture on the square would be legal, for boards that record only such squares.
  type Judge = (Board, Side, int) -> bool

  function EpAfter(g: Game, m: Move, exact: bool, judge: Judge): Option<int>
    requires On(m.from) && On(m.to)
  {
    var s := Behind(m.to);
    if DoublePush(g.board, m) && PawnBeside(g.board, g.turn, s)
       && (!exact || judge(Moved(g.board, g.turn, m), g.turn.Other(), s))
    then Some(s) else None
  }

  function After(g: Game, m: Move, king: int, enemyKing: int, exact: bool, judge: Judge): Game
    requires On(m.from) && On(m.to)
  {
    Game(Moved(g.board, g.turn, m), g.turn.Other(), EpAfter(g, m, exact, judge), RightsAfter(g, m, king, enemyKing))
  }

  // ---- what a move does, square by square and right by right ----

  // The king goes to the g file and the rook to the f file if the rook was to the right, else to c and d.
  ghost predicate Castles(b: Board, c: Side, m: Move, a: Board) {
    var row := if c.White? then 0 else 56;
    var king, rook := row + (if m.to > m.from then 6 else 2), row + (if m.to > m.from then 5 else 3);
    forall s :: 0 <= s < 64 ==>
      a[s] == (if s == king then Man(c, King) else if s == rook then Man(c, Rook)
               else if s == m.from || s == m.to then Empty else b[s])
  }

  // Any other move: the man, or what it is promoted to, stands on the target; its old square and that of a
  // pawn taken in passing, one row behind the target, are empty.
  ghost predicate Steps(b: Board, c: Side, m: Move, a: Board)
    requires On(m.from)
  {
    var passed := m.to + (if c.White? then -8 else 8);
    forall s :: 0 <= s < 64 ==>
      a[s] == (if s == m.to then (if m.kind.Promotion? then Man(c, m.kind.to) else b[m.from])
               else if s == m.from || (m.kind.EnPassant? && s == passed) then Empty else b[s])
  }

  // The right of side c with its king on k is lost: its king moves, its rook on that wing leaves the back row
  // square of the right, or that rook is taken there.
  ghost predicate Loses(g: Game, m: Move, c: Side, k: int, short: bool, right: Option<int>)
    requires On(m.from) && On(m.to)
  {
    var b, row := g.board, if c.White? then 0 else 56;
    if c == g.turn then b[m.from] == Man(c, King) || (b[m.from] == Man(c, Rook) && Guards(right, m.from, row, k, short))
    else !m.kind.Castling? && b[m.to] == Man(c, Rook) && Guards(right, m.to, row, k, short)
  }

  ghost predicate Guards(right: Option<int>, s: int, row: int, k: int, short: bool) {
    row <= s < row + 8 && right == Some(s - row) && (s > k <==> short)
  }

  // All four rights, with the kings of the two sides on w and k.
  ghost predicate RightsFollow(g: Game, m: Move, w: int, k: int, r: Rights)
    requires On(m.from) && On(m.to)
  {
    var was := g.rights;
    && r.whiteShort == (if Loses(g, m, White, w, true, was.whiteShort) then None else was.whiteShort)
    && r.whiteLong == (if Loses(g, m, White, w, false, was.whiteLong) then None else was.whiteLong)
    && r.blackShort == (if Loses(g, m, Black, k, true, was.blackShort) then None else was.blackShort)
    && r.blackLong == (if Loses(g, m, Black, k, false, was.blackLong) then None else was.blackLong)
  }

  // An enemy pawn stands next to the target, in its row.
  ghost predicate PawnNextTo(b: Board, c: Side, s: int)
    requires On(s)
  {
    (s % 8 > 0 && b[s - 1] == Man(c.Other(), Pawn)) || (s % 8 < 7 && b[s + 1] == Man(c.Other(), Pawn))
  }

  // The square passed over is recorded after a push of two rows next to an enemy pawn that, if asked, may take there.
  ghost predicate EpFollows(g: Game, m: Move, exact: bool, judge: Judge, a: Board, ep: Option<int>)
    requires On(m.from) && On(m.to)
  {
    var passed := m.to + (if g.turn.White? then -8 else 8);
    var pushed := g.board[m.from] == Man(g.turn, Pawn) && (m.to == m.from + 16 || m.to == m.from - 16);
    ep == if pushed && PawnNextTo(g.board, g.turn, m.to) && (!exact || judge(a, g.turn.Other(), passed))
          then Some(passed) else None
  }

  // h follows g by the move: pieces, turn, en passant square and rights, in squares and files alone.
  ghost predicate Follows(g: Game, m: Move, king: int, enemyKing: int, exact: bool, judge: Judge, h: Game)
    requires On(m.from) && On(m.to)
  {
    && (if m.kind.Castling? then Castles(g.board, g.turn, m, h.board) else Steps(g.board, g.turn, m, h.board))
    && h.turn == (if g.turn.White? then Black else White)
    && EpFollows(g, m, exact, judge, h.board, h.ep)
    && (if g.turn.White? then RightsFollow(g, m, king, enemyKing, h.rights)
        else RightsFollow(g, m, enemyKing, king, h.rights))
  }

  lemma AfterFollows(g: Game, m: Move, king: int, enemyKing: int, exact: bool, judge: Judge)
    requires Fits(g, m) && KingOn(g.board, g.turn, king) && KingOn(g.board, g.turn.Other(), enemyKing)
    ensures Follows(g, m, king, enemyKing, exact, judge, After(g, m, king, enemyKing, exact, judge))
  {
    MovedCells(g, m);
    EpIs(g, m, exact, judge);
    RightsFit(g, m, king, enemyKing);
    hide Fits, KingOn, Castles, Steps, EpFollows, RightsFollow, Moved, EpAfter, RightsAfter;
  }

  lemma MovedCells(g: Game, m: Move)
    requires Fits(g, m)
    ensures var a := Moved(g.board, g.turn, m);
      if m.kind.Castling? then Castles(g.board, g.turn, m, a) else Steps(g.board, g.turn, m, a)
  {
  }

  lemma EpIs(g: Game, m: Move, exact: bool, judge: Judge)
    requires Fits(g, m)
    ensures EpFollows(g, m, exact, judge, Moved(g.board, g.turn, m), EpAfter(g, m, exact, judge))
  {
    hide Moved;
    if DoublePush(g.board, m) {
      Beside(g.board, g.turn, m.to);
    }
  }

  lemma Beside(b: Board, c: Side, s: int)
    requires On(s) && Row(s) == (if c.White? then 3 else 4)
    ensures Behind(s) == s + (if c.White? then -8 else 8)
    ensures PawnBeside(b, c, Behind(s)) <==> PawnNextTo(b, c, s)
  {
    var e := Behind(s);
    forall x | On(x)
      ensures PawnHits(c, e, x) <==> (x == s - 1 && s % 8 > 0) || (x == s + 1 && s % 8 < 7)
    {
    }
    hide Behind, PawnHits;
    if PawnNextTo(b, c, s) {
      var x := if s % 8 > 0 && b[s - 1] == Man(c.Other(), Pawn) then s - 1 else s + 1;
      assert PawnHits(c, e, x);
    }
  }

  lemma RightsFit(g: Game, m: Move, king: int, enemyKing: int)
    requires Fits(g, m)
    ensures var r := RightsAfter(g, m, king, enemyKing);
      if g.turn.White? then RightsFollow(g, m, king, enemyKing, r) else RightsFollow(g, m, enemyKing, king, r)
  {
  }
}
