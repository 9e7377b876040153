// The chess board: mailbox, bitboards by piece and by side, and a running key,
// with moves made and unmade in place.
module ChessBoard {
  import opened Geometry
  import opened ChessRules
  import opened ChessKey
  import opened Options
  import Bitboards

  function PieceSlot(p: Piece): nat {
    match p
    case Pawn => 0
    case Knight => 1
    case Bishop => 2
    case Rook => 3
    case Queen => 4
    case King => 5
  }

  function SideSlot(c: Side): nat { if c.White? then 0 else 1 }

  function PiecesOf(b: Board, p: Piece): set<int> { set s | 0 <= s < 64 && b[s].Man? && b[s].piece == p }

  function MenOf(b: Board, c: Side): set<int> { set s | 0 <= s < 64 && b[s].Man? && b[s].side == c }

  ghost predicate Bits(pieces: seq<set<int>>, occ: seq<set<int>>, b: Board) {
    && |pieces| == 6 && |occ| == 2
    && (forall p: Piece {:trigger PieceSlot(p)} :: pieces[PieceSlot(p)] == PiecesOf(b, p))
    && (forall c: Side {:trigger SideSlot(c)} :: occ[SideSlot(c)] == MenOf(b, c))
  }

  lemma BitsAfterPlace(pieces: seq<set<int>>, occ: seq<set<int>>, b: Board, s: int, m: Cell)
    requires Bits(pieces, occ, b) && On(s) && b[s].Empty? && m.Man?
    ensures var i, j := PieceSlot(m.piece), SideSlot(m.side);
      Bits(pieces[i := pieces[i] + {s}], occ[j := occ[j] + {s}], b[s := m])
  {
    var a := b[s := m];
    forall p: Piece {:trigger PieceSlot(p)}
      ensures PiecesOf(a, p) == if p == m.piece then PiecesOf(b, p) + {s} else PiecesOf(b, p)
    {
    }
    forall c: Side {:trigger SideSlot(c)}
      ensures MenOf(a, c) == if c == m.side then MenOf(b, c) + {s} else MenOf(b, c)
    {
    }
    hide PiecesOf, MenOf;
  }

  lemma BitsAfterRemove(pieces: seq<set<int>>, occ: seq<set<int>>, b: Board, s: int)
    requires Bits(pieces, occ, b) && On(s) && b[s].Man?
    ensures var i, j := PieceSlot(b[s].piece), SideSlot(b[s].side);
      Bits(pieces[i := pieces[i] - {s}], occ[j := occ[j] - {s}], b[s := Empty])
  {
    var a, m := b[s := Empty], b[s];
    forall p: Piece {:trigger PieceSlot(p)}
      ensures PiecesOf(a, p) == if p == m.piece then PiecesOf(b, p) - {s} else PiecesOf(b, p)
    {
    }
    forall c: Side {:trigger SideSlot(c)}
      ensures MenOf(a, c) == if c == m.side then MenOf(b, c) - {s} else MenOf(b, c)
    {
    }
    hide PiecesOf, MenOf;
  }

  // The board determines the bitboards.
  lemma BitsUnique(p: seq<set<int>>, o: seq<set<int>>, q: seq<set<int>>, u: seq<set<int>>, b: Board)
    requires Bits(p, o, b) && Bits(q, u, b)
    ensures p == q && o == u
  {
    hide PiecesOf, MenOf;
    forall i | 0 <= i < 6
      ensures p[i] == q[i]
    {
      var piece := if i == 0 then Pawn else if i == 1 then Knight else if i == 2 then Bishop
                   else if i == 3 then Rook else if i == 4 then Queen else King;
      assert PieceSlot(piece) == i;
    }
    assert SideSlot(White) == 0 && SideSlot(Black) == 1;
  }

  // What a move leaves behind for undoing it.
  datatype State = State(hash: bv64, rights: Rights, ep: Option<int>, halfMoves: int, captured: Cell)

  class Chessboard {
    const zobrist: Zobrist
    const board: array<Cell>
    const pieces: array<set<int>>
    const occ: array<set<int>>
    var key: bv64
    var rights: Rights
    var ep: Option<int>
    var turn: Side
    var halfMoves: int
    var plies: int
    var prev: seq<State>

    ghost predicate Shape() { board.Length == 64 && pieces.Length == 6 && occ.Length == 2 && pieces != occ }

    ghost function Cells(): Board
      requires Shape()
      reads board
    {
      board[..]
    }

    ghost function Game(): Game
      requires Shape()
      reads this, board
    {
      ChessRules.Game(Cells(), turn, ep, rights)
    }

    // Bitboards match the mailbox.
    ghost predicate Agrees()
      reads board, pieces, occ
    {
      Shape() && Bits(pieces[..], occ[..], Cells())
    }

    // The running key is the one computed afresh.
    ghost predicate Keyed()
      reads this, board
    {
      Shape() && key == GameKey(zobrist, Game())
    }

    ghost predicate Kings()
      reads board
    {
      Shape() && (exists k :: KingOn(Cells(), White, k)) && (exists k :: KingOn(Cells(), Black, k))
    }

    // Consistent: what every move keeps.
    ghost predicate Valid()
      reads this, board, pieces, occ
    {
      Agrees() && Keyed() && Kings()
    }

    constructor (z: Zobrist)
      ensures zobrist == z && Agrees() && Cells() == seq(64, _ => Empty) && prev == []
      ensures key == 0 && ep == None && turn == White && rights == Rights(None, None, None, None)
      ensures fresh(board) && fresh(pieces) && fresh(occ)
    {
      zobrist := z;
      board := new Cell[64](_ => Empty);
      pieces := new set<int>[6](_ => {});
      occ := new set<int>[2](_ => {});
      key, rights, ep, turn, halfMoves, plies, prev := 0, Rights(None, None, None, None), None, White, 0, 1, [];
      new;
      assert Cells() == seq(64, _ => Empty);
    }

    method RemovePiece(s: int)
      requires Agrees() && On(s) && board[s].Man?
      modifies board, pieces, occ
      ensures Agrees() && Cells() == old(Cells())[s := Empty]
    {
      hide Bits;
      BitsAfterRemove(pieces[..], occ[..], Cells(), s);
      BitsSizes(pieces[..], occ[..], Cells());
      var i, j := PieceSlot(board[s].piece), SideSlot(board[s].side);
      pieces[i] := pieces[i] - {s};
      occ[j] := occ[j] - {s};
      board[s] := Empty;
      assert pieces[..] == old(pieces[..])[i := old(pieces[..])[i] - {s}];
      assert occ[..] == old(occ[..])[j := old(occ[..])[j] - {s}];
    }

    method PlacePiece(s: int, m: Cell)
      requires Agrees() && On(s) && board[s].Empty? && m.Man?
      modifies board, pieces, occ
      ensures Agrees() && Cells() == old(Cells())[s := m]
    {
      hide Bits;
      BitsAfterPlace(pieces[..], occ[..], Cells(), s, m);
      BitsSizes(pieces[..], occ[..], Cells());
      var i, j := PieceSlot(m.piece), SideSlot(m.side);
      pieces[i] := pieces[i] + {s};
      occ[j] := occ[j] + {s};
      board[s] := m;
      assert pieces[..] == old(pieces[..])[i := old(pieces[..])[i] + {s}];
      assert occ[..] == old(occ[..])[j := old(occ[..])[j] + {s}];
    }

    method KingSq(c: Side) returns (k: int)
      requires Agrees() && exists w :: KingOn(Cells(), c, w)
      ensures KingOn(Cells(), c, k)
    {
      ghost var w :| KingOn(Cells(), c, w);
      var kings := pieces[PieceSlot(King)] * occ[SideSlot(c)];
      KingsAre(pieces[..], occ[..], Cells(), c, w);
      k := Bitboards.PopFirst(kings);
    }

    // The key computed from the occupied squares.
    method ComputeKey() returns (k: bv64)
      requires Agrees()
      ensures k == GameKey(zobrist, Game())
    {
      hide Xor, Bits, RightsKey, BoardKey;
      ghost var b := Cells();
      BitsSizes(pieces[..], occ[..], b);
      var left := occ[0] + occ[1];
      AllMen(pieces[..], occ[..], b);
      k := 0;
      ghost var i := 0;
      ghost var rest := BoardKey(zobrist, b, 0);
      ZeroXor(BoardKey(zobrist, b, 0));
      while left != {}
        invariant 0 <= i <= 64 && left == MenFrom(b, i)
        invariant BoardKey(zobrist, b, 0) == Xor(k, BoardKey(zobrist, b, i))
        decreases left
      {
        var s := Bitboards.PopFirst(left);
        NoneBefore(b, left, i, s);
        SkipEmpty(zobrist, b, i, s);
        Assoc(k, zobrist.piece(b[s], s), BoardKey(zobrist, b, s + 1));
        k := Xor(k, zobrist.piece(board[s], s));
        left := left - {s};
        i := s + 1;
      }
      NoneBefore(b, left, i, 64);
      SkipEmpty(zobrist, b, i, 64);
      NoSquares(zobrist, b);
      ZeroXor(k);
      var epHash := if ep.Some? then zobrist.ep(Col(ep.value)) else 0;
      var sideHash := if turn.White? then zobrist.side else 0;
      k := Xor(Xor(Xor(k, epHash), sideHash), RightsKey(zobrist, rights));
    }

    // ---- making a move, one stage at a time; each stage keeps the key right ----

    // Take a piece off, with its key.
    method Take(s: int)
      requires Agrees() && Keyed() && On(s) && board[s].Man?
      modifies board, pieces, occ, this`key
      ensures Agrees() && Keyed() && Cells() == old(Cells())[s := Empty]
    {
      hide Bits, GameKey, Xor;
      ghost var g := Game();
      var m := board[s];
      RemovePiece(s);
      key := Xor(key, zobrist.piece(m, s));
      PieceToggles(zobrist, Game(), s, m);
      assert g.board == Cells()[s := m];
    }

    // Pick the square up and set a piece down on another, then toggle both keys.
    method Shift(from: int, to: int, m: Cell)
      requires Agrees() && Keyed() && On(from) && On(to) && from != to && board[from].Man? && board[to].Empty? && m.Man?
      modifies board, pieces, occ, this`key
      ensures Agrees() && Keyed() && Cells() == old(Cells())[from := Empty][to := m]
    {
      hide Bits, GameKey, Xor;
      ghost var g := Game();
      var piece := board[from];
      RemovePiece(from);
      ghost var h := Game();
      PlacePiece(to, m);
      key := Xor(key, Xor(zobrist.piece(piece, from), zobrist.piece(m, to)));
      assert g.board == h.board[from := piece];
      PieceToggles(zobrist, h, from, piece);
      PieceToggles(zobrist, h, to, m);
      Assoc(GameKey(zobrist, g), zobrist.piece(piece, from), zobrist.piece(m, to));
    }

    method DropEp()
      requires Agrees() && Keyed()
      modifies this`key, this`ep
      ensures Keyed() && ep == None
    {
      hide Bits, GameKey, Xor;
      ghost var g := Game();
      if ep.Some? {
        EpToggles(zobrist, g.(ep := None), ep.value);
        key := Xor(key, zobrist.ep(Col(ep.value)));
      }
      ep := None;
    }

    // A rook that leaves its square or is taken there takes its right with it.
    method DropRook(c: Side, s: int, king: int)
      requires Agrees() && Keyed()
      modifies this`key, this`rights
      ensures Keyed() && rights == RookGone(old(rights), c, s, king)
    {
      hide Bits, GameKey, Xor;
      var short := s > king;
      if rights.Get(c, short) == Some(Col(s)) {
        RightToggles(zobrist, Game(), c, short);
        rights := rights.Clear(c, short);
        key := Xor(key, zobrist.right(RightIndex(c, short)));
      }
    }

    // What stands on the target square is taken, unless the move is castling.
    method Capture(m: Move, ghost g: Game, ghost enemyKing: int)
      requires Agrees() && Keyed() && Fits(g, m) && KingOn(g.board, g.turn.Other(), enemyKing)
      requires Cells() == g.board && turn == g.turn && rights == g.rights
      modifies board, pieces, occ, this`key, this`rights, this`halfMoves
      ensures Agrees() && Keyed() && Cells() == Emptied(g, m)
      ensures rights == RightsAfterCapture(g, m, enemyKing)
      ensures halfMoves == (if !m.kind.Castling? && g.board[m.to].Man? then 0 else old(halfMoves))
    {
      hide Bits, GameKey, Xor, KingOn, RookGone;
      var captured := board[m.to];
      if captured.Man? && !m.kind.Castling? {
        KingLeft(Cells(), turn.Other(), enemyKing, m.to);
        Take(m.to);
        halfMoves := 0;
        if captured.piece.Rook? && Row(m.to) == BackRow(turn.Other()) {
          var king := KingSq(turn.Other());
          OneKing(Cells(), turn.Other(), king, enemyKing);
          DropRook(turn.Other(), m.to, king);
        }
      } else if captured.Empty? {
        assert Cells()[m.to := Empty] == Cells();
      }
    }

    // The rights of the mover.
    method MoverRights(m: Move, ghost king: int)
      requires Agrees() && Keyed() && On(m.from) && board[m.from].Man? && KingOn(Cells(), turn, king)
      modifies this`key, this`rights
      ensures Keyed()
      ensures var p := Cells()[m.from].piece;
        rights == if p.King? && old(rights).Has(turn) then old(rights).ClearBoth(turn)
                  else if p.Rook? && Row(m.from) == BackRow(turn) then RookGone(old(rights), turn, m.from, king)
                    else old(rights)
    {
      hide Bits, GameKey, Xor, KingOn, RookGone, RightsKey;
      var p := board[m.from].piece;
      if p.King? && rights.Has(turn) {
        ghost var g := Game();
        RightsSwap(zobrist, g, rights.ClearBoth(turn));
        key := Xor(key, RightsKey(zobrist, rights));
        rights := rights.ClearBoth(turn);
        key := Xor(key, RightsKey(zobrist, rights));
      } else if p.Rook? && Row(m.from) == BackRow(turn) {
        var k := KingSq(turn);
        OneKing(Cells(), turn, k, king);
        DropRook(turn, m.from, k);
      }
    }

    // After a double push the square behind the pawn is recorded, if an enemy
    // pawn stands beside; with `exact`, only if it could take, for which the pawn
    // is moved and moved back.
    method PushEp(m: Move, exact: bool, judge: Judge)
      requires Agrees() && Keyed() && ep.None? && DoublePush(Cells(), m) && On(m.to) && On(Behind(m.to))
      requires board[m.to].Empty?
      requires m.from != m.to && board[m.from].side == turn && m.kind.Normal?
      modifies board, pieces, occ, this`key, this`ep, this`turn
      ensures Agrees() && Keyed() && Cells() == old(Cells()) && turn == old(turn)
      ensures ep == EpAfter(old(Game()), m, exact, judge)
    {
      hide Bits, GameKey, Xor;
      var s := Behind(m.to);
      if PawnBeside(board[..], turn, s) {
        var found := true;
        if exact {
          ghost var b := Cells();
          var piece := board[m.from];
          RemovePiece(m.from);
          PlacePiece(m.to, piece);
          turn := turn.Other();
          found := judge(board[..], turn, s);
          turn := turn.Other();
          RemovePiece(m.to);
          PlacePiece(m.from, piece);
          assert Cells() == b;
        }
        if found {
          EpToggles(zobrist, Game(), s);
          ep := Some(s);
          key := Xor(key, zobrist.ep(Col(s)));
        }
      }
    }

    method Castle(m: Move, ghost g: Game)
      requires Agrees() && Keyed() && Fits(g, m) && m.kind.Castling? && Cells() == g.board && turn == g.turn
      modifies board, pieces, occ, this`key
      ensures Agrees() && Keyed() && Cells() == Moved(g.board, turn, m)
    {
      hide Bits, GameKey, Xor, Row;
      ghost var g0 := Game();
      var king, rook := board[m.from], board[m.to];
      var kingTo, rookTo := KingTo(m, turn), RookTo(m, turn);
      RemovePiece(m.from);
      ghost var g1 := Game();
      RemovePiece(m.to);
      ghost var g2 := Game();
      PlacePiece(kingTo, king);
      ghost var g3 := Game();
      PlacePiece(rookTo, rook);
      key := Xor(key, Xor(zobrist.piece(king, m.from), zobrist.piece(king, kingTo)));
      key := Xor(key, Xor(zobrist.piece(rook, m.to), zobrist.piece(rook, rookTo)));
      assert g0.board == g1.board[m.from := king] && g1.board == g2.board[m.to := rook];
      PieceToggles(zobrist, g1, m.from, king);
      PieceToggles(zobrist, g2, m.to, rook);
      PieceToggles(zobrist, g2, kingTo, king);
      PieceToggles(zobrist, g3, rookTo, rook);
      FourToggles(GameKey(zobrist, g0), zobrist.piece(king, m.from), zobrist.piece(rook, m.to),
                  zobrist.piece(king, kingTo), zobrist.piece(rook, rookTo));
    }

    // The pieces move; what stood on the target square is already gone.
    method MovePieces(m: Move, ghost g: Game)
      requires Agrees() && Keyed() && Fits(g, m) && Cells() == Emptied(g, m) && turn == g.turn
      modifies board, pieces, occ, this`key
      ensures Agrees() && Keyed() && Cells() == Moved(g.board, turn, m)
    {
      hide Bits, GameKey, Xor, Row;
      ghost var b := g.board;
      if m.kind.Castling? {
        Castle(m, g);
      } else {
        var piece := if m.kind.Promotion? then Man(turn, m.kind.to) else board[m.from];
        Shift(m.from, m.to, piece);
        assert b[m.to := Empty][m.from := Empty][m.to := piece] == b[m.from := Empty][m.to := piece];
        if m.kind.EnPassant? {
          Take(Behind(m.to));
        }
      }
    }

    // Before the pieces move: the old en passant square goes, the target is
    // cleared, rights are lost, the clock runs.
    method Prepare(m: Move, ghost g: Game, ghost king: int, ghost enemyKing: int)
      requires Agrees() && Keyed() && Fits(g, m) && Game() == g
      requires KingOn(g.board, g.turn, king) && KingOn(g.board, g.turn.Other(), enemyKing)
      modifies board, pieces, occ, this`key, this`ep, this`rights, this`halfMoves
      ensures Agrees() && Keyed() && Cells() == Emptied(g, m) && ep == None
      ensures rights == RightsAfter(g, m, king, enemyKing) && halfMoves == HalfMovesAfter(g, m, old(halfMoves))
    {
      hide Bits, GameKey, Xor, KingOn, RookGone, Behind, Row;
      var piece := board[m.from].piece;
      halfMoves := (halfMoves + 1) % 256;
      DropEp();
      Capture(m, g, enemyKing);
      KingStays(g, m, king);
      MoverRights(m, king);
      if piece.Pawn? {
        halfMoves := 0;
      }
    }

    method RecordPush(m: Move, exact: bool, judge: Judge, ghost g: Game)
      requires Agrees() && Keyed() && Fits(g, m) && Cells() == Emptied(g, m) && turn == g.turn && ep == None
      modifies board, pieces, occ, this`key, this`ep, this`turn
      ensures Agrees() && Keyed() && Cells() == old(Cells()) && turn == old(turn)
      ensures ep == EpAfter(g, m, exact, judge)
    {
      hide Bits, GameKey, Xor, PawnBeside, EpAfter, Behind, Row;
      FromOccupied(g, m);
      if board[m.from].piece.Pawn? && Abs(m.to - m.from) == 16 {
        PushIsOpen(g, m);
        EpSame(g, Game(), m, exact, judge);
        PushEp(m, exact, judge);
      } else {
        NoPush(g, m, exact, judge);
      }
    }

    // Make a move that fits the position.
    method MakeMove(m: Move, exact: bool, judge: Judge) returns (ghost king: int, ghost enemyKing: int)
      requires Valid() && Fits(Game(), m)
      modifies this, board, pieces, occ
      ensures Valid()
      ensures KingOn(old(Cells()), old(turn), king) && KingOn(old(Cells()), old(turn).Other(), enemyKing)
      ensures Game() == After(old(Game()), m, king, enemyKing, exact, judge)
      ensures Follows(old(Game()), m, king, enemyKing, exact, judge, Game())
      ensures prev == old(prev) + [State(old(key), old(rights), old(ep), old(halfMoves), old(Cells())[m.to])]
      ensures plies == (old(plies) + 1) % 65536
      ensures halfMoves == HalfMovesAfter(old(Game()), m, old(halfMoves))
    {
      hide Bits, GameKey, Xor, KingOn, EpAfter, Moved, RightsAfter, HalfMovesAfter, Fits, Emptied, Follows;
      ghost var g := Game();
      king, enemyKing := BothKings(g.board, turn);
      AfterFollows(g, m, king, enemyKing, exact, judge);
      OnSquares(g, m);
      prev := prev + [State(key, rights, ep, halfMoves, board[m.to])];
      plies := (plies + 1) % 65536;
      Prepare(m, g, king, enemyKing);
      RecordPush(m, exact, judge, g);
      MovePieces(m, g);
      SideToggles(zobrist, Game());
      key := Xor(key, zobrist.side);
      turn := turn.Other();
      KingsKept(g, m, king, enemyKing);
    }

    // The king and rook go back to where they castled from.
    method Uncastle(m: Move, ghost g: Game)
      requires Agrees() && Fits(g, m) && m.kind.Castling? && Cells() == Moved(g.board, g.turn, m)
      modifies board, pieces, occ
      ensures Agrees() && Cells() == g.board
    {
      hide Bits;
      var short := m.to > m.from;
      var rookFrom := 8 * Row(m.from) + (if short then 5 else 3);
      var kingTo := 8 * Row(m.from) + (if short then 6 else 2);
      assert rookFrom == RookTo(m, g.turn) && kingTo == KingTo(m, g.turn);
      hide Row;
      var rook, king := board[rookFrom], board[kingTo];
      RemovePiece(rookFrom);
      RemovePiece(kingTo);
      PlacePiece(m.from, king);
      PlacePiece(m.to, rook);
      assert Cells() == g.board;
    }

    // Unmake the move that led here from g.
    method UnmakeMove(m: Move, ghost g: Game)
      requires Agrees() && Fits(g, m) && Cells() == Moved(g.board, g.turn, m) && turn == g.turn.Other()
      requires prev != []
      requires var last := prev[|prev| - 1];
        last.hash == GameKey(zobrist, g) && last.rights == g.rights && last.ep == g.ep && last.captured == g.board[m.to]
      modifies this, board, pieces, occ
      ensures Agrees() && Keyed() && Game() == g
      ensures prev == old(prev)[..|old(prev)| - 1] && plies == (old(plies) - 1) % 65536
      ensures halfMoves == old(prev)[|old(prev)| - 1].halfMoves
    {
      hide Bits, GameKey, Row, Moved, Fits;
      var last := prev[|prev| - 1];
      ep, rights, halfMoves, turn := last.ep, last.rights, last.halfMoves, turn.Other();
      plies := (plies - 1) % 65536;
      if m.kind.Castling? {
        Uncastle(m, g);
      } else {
        PutBack(m, last.captured, g);
      }
      key := last.hash;
      prev := prev[..|prev| - 1];
    }

    // The piece goes back, and so does what it took.
    method PutBack(m: Move, captured: Cell, ghost g: Game)
      requires Agrees() && Fits(g, m) && !m.kind.Castling? && Cells() == Moved(g.board, g.turn, m)
      requires turn == g.turn && ep == g.ep && captured == g.board[m.to]
      modifies board, pieces, occ
      ensures Agrees() && Cells() == g.board
    {
      hide Bits, Row;
      if m.kind.Promotion? {
        RemovePiece(m.to);
        PlacePiece(m.from, Man(turn, Pawn));
      } else {
        var piece := board[m.to];
        RemovePiece(m.to);
        PlacePiece(m.from, piece);
      }
      if m.kind.EnPassant? {
        PlacePiece(Behind(ep.value), Man(turn.Other(), Pawn));
      } else if captured.Man? {
        PlacePiece(m.to, captured);
      }
      assert Cells() == g.board;
    }

    // Making a move and unmaking it restores every field.
    method MakeAndUnmake(m: Move, exact: bool, judge: Judge)
      requires Valid() && Fits(Game(), m)
      modifies this, board, pieces, occ
      ensures Valid() && Game() == old(Game()) && key == old(key) && pieces[..] == old(pieces[..])
      ensures occ[..] == old(occ[..])
      ensures prev == old(prev) && halfMoves == old(halfMoves)
      ensures 0 <= old(plies) < 65536 ==> plies == old(plies)
    {
      hide Bits, GameKey, KingOn, EpAfter, Moved, RightsAfter, HalfMovesAfter, Fits;
      ghost var g, p, o := Game(), pieces[..], occ[..];
      OnSquares(g, m);
      ghost var king, enemyKing;
      king, enemyKing := MakeMove(m, exact, judge);
      UnmakeMove(m, g);
      BitsUnique(pieces[..], occ[..], p, o, g.board);
      assert prev == old(prev);
    }
  }

  lemma OnSquares(g: Game, m: Move)
    requires Fits(g, m)
    ensures On(m.from) && On(m.to)
  {
  }

  lemma FromOccupied(g: Game, m: Move)
    requires Fits(g, m)
    ensures Emptied(g, m)[m.from].Man? && Emptied(g, m)[m.from] == g.board[m.from]
  {
  }

  // The board once the captured piece is off.
  function Emptied(g: Game, m: Move): Board
    requires On(m.to)
  {
    if m.kind.Castling? then g.board else g.board[m.to := Empty]
  }

  // The clock restarts at captures and pawn moves, and is kept in one byte.
  function HalfMovesAfter(g: Game, m: Move, halfMoves: int): int
    requires On(m.from) && On(m.to)
  {
    if (g.board[m.to].Man? && !m.kind.Castling?) || (g.board[m.from].Man? && g.board[m.from].piece.Pawn?) then 0
    else (halfMoves + 1) % 256
  }

  lemma BothKings(b: Board, c: Side) returns (k: int, e: int)
    requires (exists k :: KingOn(b, White, k)) && (exists k :: KingOn(b, Black, k))
    ensures KingOn(b, c, k) && KingOn(b, c.Other(), e)
  {
    hide KingOn;
    k :| KingOn(b, c, k);
    e :| KingOn(b, c.Other(), e);
  }

  lemma KingStays(g: Game, m: Move, k: int)
    requires Fits(g, m) && KingOn(g.board, g.turn, k)
    ensures KingOn(Emptied(g, m), g.turn, k) && Emptied(g, m)[m.from].Man?
  {
    if !m.kind.Castling? && g.board[m.to].Man? {
      KingLeft(g.board, g.turn, k, m.to);
    } else if g.board[m.to].Empty? {
      assert g.board[m.to := Empty] == g.board;
    }
  }

  lemma PushIsOpen(g: Game, m: Move)
    requires Fits(g, m) && g.board[m.from].Man? && g.board[m.from].piece.Pawn? && Abs(m.to - m.from) == 16
    ensures m.kind.Normal? && DoublePush(g.board, m) && On(Behind(m.to)) && g.board[m.to].Empty?
    ensures Emptied(g, m) == g.board
    ensures g.board[m.from].side == g.turn
  {
    assert g.board[m.to := Empty] == g.board;
  }

  lemma EpSame(g: Game, h: Game, m: Move, exact: bool, judge: Judge)
    requires On(m.from) && On(m.to) && g.board == h.board && g.turn == h.turn
    ensures EpAfter(g, m, exact, judge) == EpAfter(h, m, exact, judge)
  {
  }

  lemma NoPush(g: Game, m: Move, exact: bool, judge: Judge)
    requires Fits(g, m) && !(g.board[m.from].piece.Pawn? && Abs(m.to - m.from) == 16)
    ensures EpAfter(g, m, exact, judge) == None
  {
  }

  lemma KingsKept(g: Game, m: Move, king: int, enemyKing: int)
    requires Fits(g, m) && KingOn(g.board, g.turn, king) && KingOn(g.board, g.turn.Other(), enemyKing)
    ensures var a := Moved(g.board, g.turn, m);
      (exists k :: KingOn(a, White, k)) && (exists k :: KingOn(a, Black, k))
  {
    var a := Moved(g.board, g.turn, m);
    var k := if m.from != king then king else if m.kind.Castling? then KingTo(m, g.turn) else m.to;
    KingKept(g, m, king, k);
    EnemyKingKept(g, m, enemyKing);
    hide KingOn;
    assert KingOn(a, g.turn, k) && KingOn(a, g.turn.Other(), enemyKing);
  }

  lemma KingKept(g: Game, m: Move, king: int, k: int)
    requires Fits(g, m) && KingOn(g.board, g.turn, king)
    requires k == if m.from != king then king else if m.kind.Castling? then KingTo(m, g.turn) else m.to
    ensures KingOn(Moved(g.board, g.turn, m), g.turn, k)
  {
    var a, b, c := Moved(g.board, g.turn, m), g.board, g.turn;
    assert Is(b, m.from, c, King) ==> m.from == king;
    forall s | Is(a, s, c, King)
      ensures s == k
    {
      assert Is(b, s, c, King) ==> s == king;
    }
  }

  lemma EnemyKingKept(g: Game, m: Move, e: int)
    requires Fits(g, m) && KingOn(g.board, g.turn.Other(), e)
    ensures KingOn(Moved(g.board, g.turn, m), g.turn.Other(), e)
  {
    var a, b, c := Moved(g.board, g.turn, m), g.board, g.turn.Other();
    forall s | Is(a, s, c, King)
      ensures s == e
    {
      assert Is(b, s, c, King);
    }
  }

  lemma FourToggles(k: bv64, a: bv64, b: bv64, c: bv64, d: bv64)
    ensures Xor(Xor(Xor(Xor(k, a), b), c), d) == Xor(Xor(k, Xor(a, c)), Xor(b, d))
  {
    hide Xor;
    Later(Xor(k, a), b, c);
    Assoc(k, a, c);
    Assoc(Xor(k, Xor(a, c)), b, d);
  }

  lemma KingLeft(b: Board, c: Side, k: int, s: int)
    requires KingOn(b, c, k) && On(s) && b[s].Man? && !b[s].piece.King?
    ensures KingOn(b[s := Empty], c, k)
  {
    var a := b[s := Empty];
    forall x | Is(a, x, c, King)
      ensures x == k
    {
      assert Is(b, x, c, King);
    }
  }

  lemma OneKing(b: Board, c: Side, k: int, w: int)
    requires KingOn(b, c, k) && KingOn(b, c, w)
    ensures k == w
  {
    assert Is(b, k, c, King);
  }

  function MenFrom(b: Board, i: nat): set<int> { set s | i <= s < 64 && b[s].Man? }

  lemma NoneBefore(b: Board, left: set<int>, i: nat, s: int)
    requires left == MenFrom(b, i) && i <= s <= 64 && forall x :: x in left ==> s <= x
    ensures forall x :: i <= x < s ==> b[x].Empty?
    ensures s < 64 ==> left - {s} == MenFrom(b, s + 1)
  {
    forall x | i <= x < s
      ensures b[x].Empty?
    {
      assert b[x].Man? ==> x in left;
    }
  }

  lemma BitsSizes(pieces: seq<set<int>>, occ: seq<set<int>>, b: Board)
    requires Bits(pieces, occ, b)
    ensures |pieces| == 6 && |occ| == 2
  {
  }

  lemma KingsAre(pieces: seq<set<int>>, occ: seq<set<int>>, b: Board, c: Side, k: int)
    requires Bits(pieces, occ, b) && KingOn(b, c, k)
    ensures |pieces| == 6 && |occ| == 2 && pieces[PieceSlot(King)] * occ[SideSlot(c)] == {k}
  {
    forall s | s in PiecesOf(b, King) * MenOf(b, c)
      ensures s == k
    {
      assert Is(b, s, c, King);
    }
    assert pieces[PieceSlot(King)] == PiecesOf(b, King) && occ[SideSlot(c)] == MenOf(b, c);
  }

  lemma AllMen(pieces: seq<set<int>>, occ: seq<set<int>>, b: Board)
    requires Bits(pieces, occ, b)
    ensures |occ| == 2 && occ[0] + occ[1] == MenFrom(b, 0)
  {
    assert SideSlot(White) == 0 && SideSlot(Black) == 1;
    assert occ[SideSlot(White)] == MenOf(b, White) && occ[SideSlot(Black)] == MenOf(b, Black);
  }

  lemma NoSquares(z: Zobrist, b: Board)
    ensures BoardKey(z, b, 64) == 0
  {
  }

  // Empty squares contribute nothing.
  lemma {:induction false} SkipEmpty(z: Zobrist, b: Board, i: nat, s: nat)
    requires i <= s <= 64 && forall x :: i <= x < s ==> b[x].Empty?
    ensures BoardKey(z, b, i) == BoardKey(z, b, s)
    ensures s < 64 ==> BoardKey(z, b, s) == Xor(CellKey(z, b[s], s), BoardKey(z, b, s + 1))
    decreases s - i
  {
    hide Xor;
    if i < s {
      SkipEmpty(z, b, i + 1, s);
      ZeroXor(BoardKey(z, b, i + 1));
    }
  }
}
