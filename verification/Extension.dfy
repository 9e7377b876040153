// The entry points of the extension on texts: listing the legal moves of a FEN
// and making a move, both commuting with the four mirrors.
module Extension {
  import opened Geometry
  import opened Rules
  import opened Attacks
  import opened Bitboards
  import opened Hashing
  import opened History
  import opened Engine
  import opened Generator
  import opened Symmetry
  import opened MoveText
  import opened Fen
  import opened FenReader

  // Two pawns of one side, one behind the other in their own half.
  predicate PawnBehind(b: Board, c: Side, s: int, t: int) {
    Has(b, s, c, Pawn) && Has(b, t, c, Pawn) && HomeHalf(s, c) && HomeHalf(t, c) && PawnStep(s, t, c)
  }

  ghost predicate Doubled(b: Board, c: Side) { exists s, t :: PawnBehind(b, c, s, t) }

  // The positions the extension plays from.
  ghost predicate Playable(p: Pos) {
    Acceptable(p.board) && Safe(p.board, p.turn.Other()) && !Doubled(p.board, White) && !Doubled(p.board, Black)
  }

  method HasDoubled(p: Position, c: Side) returns (r: bool)
    requires p.Agrees()
    ensures r <==> Doubled(p.Board(), c)
  {
    hide Men, Counts, PawnStep, HomeHalf;
    ghost var b := p.Board();
    var pawns := p.pieces[Slot(c, Pawn)];
    assert pawns == Of(b, c, Pawn);
    var left := HalfOf(pawns, c);
    r := false;
    while left != {}
      invariant left <= HalfOf(pawns, c)
      invariant forall s, t :: PawnBehind(b, c, s, t) ==> s in left
      decreases left
    {
      var from := PopFirst(left);
      var hit := HalfOf(PawnAtt(from, c) * pawns, c);
      if hit != {} {
        ghost var t := Element(hit);
        assert PawnBehind(b, c, from, t);
        r := true;
        return;
      }
      forall s, t | PawnBehind(b, c, s, t)
        ensures s != from
      {
        if s == from {
          PawnIsHit(b, c, s, t);
        }
      }
      left := left - {from};
    }
  }

  lemma PawnIsHit(b: Board, c: Side, s: int, t: int)
    requires PawnBehind(b, c, s, t)
    ensures t in HalfOf(PawnAtt(s, c) * Of(b, c, Pawn), c)
  {
  }

  method KingsFace(p: Position) returns (r: bool)
    requires Ready(p)
    ensures r <==> Facing(p.Board())
  {
    hide Placed, Bits, Counts, Line, SameFile;
    ghost var b := p.Board();
    var me := p.King(p.turn);
    var opp := p.King(p.turn.Other());
    r := SameFile(me, opp) && Line(me, opp) * p.blockers == {};
    FacingKings(b, p.turn, me, opp);
  }

  lemma FacingKings(b: Board, c: Side, me: int, opp: int)
    requires KingPlaced(b, c, me) && KingPlaced(b, c.Other(), opp)
    ensures Facing(b) <==> SameFile(me, opp) && Screens(Occ(b), me, opp) == {}
  {
    LineSymmetric(me, opp);
    if SameFile(me, opp) && Screens(Occ(b), me, opp) == {} {
      var w, k := if c.White? then me else opp, if c.White? then opp else me;
      assert Has(b, w, White, King) && Has(b, k, Black, King) && SameFile(w, k) && Screens(Occ(b), w, k) == {};
    }
  }

  method IsLegal(p: Position) returns (r: bool)
    requires Ready(p)
    ensures r <==> Safe(p.Board(), p.turn.Other()) && !Doubled(p.Board(), White) && !Doubled(p.Board(), Black)
  {
    hide Placed, Facing, Rules.InCheck, Doubled, Bits, Counts;
    var face := KingsFace(p);
    if face {
      return false;
    }
    var check := p.InCheck(p.turn.Other());
    if check {
      return false;
    }
    var white := HasDoubled(p, White);
    var black := HasDoubled(p, Black);
    r := !white && !black;
  }

  // ---- ccbmovegen ----

  ghost predicate LegalText(p: Pos, m: string) {
    exists f, t :: OnBoard(f) && OnBoard(t) && m == TextOf(f, t) && Legal(p.board, p.turn, f, t)
  }

  // What the generator is to return: the texts of the legal moves.
  ghost predicate GivesMoves(p: Pos, texts: set<string>) {
    forall m :: m in texts <==> Playable(p) && LegalText(p, m)
  }

  method TextsOfMoves(moves: seq<int>) returns (texts: set<string>)
    requires forall m :: m in moves ==> OnBoard(MoveFrom(m)) && OnBoard(MoveTo(m))
    ensures texts == set m | m in moves :: TextOf(MoveFrom(m), MoveTo(m))
  {
    hide MoveFrom, MoveTo, TextOf;
    texts := {};
    for i := 0 to |moves|
      invariant texts == set m | m in moves[..i] :: TextOf(MoveFrom(m), MoveTo(m))
    {
      assert moves[..i + 1] == moves[..i] + [moves[i]];
      texts := texts + {TextOf(MoveFrom(moves[i]), MoveTo(moves[i]))};
    }
    assert moves[..|moves|] == moves;
  }

  // The legal moves of the position the text stands for; none if it stands for
  // none, or for one that is not played from.
  method MoveGen(z: Zobrist, fen: string) returns (texts: set<string>)
    ensures if ReadText(fen).Some? then GivesMoves(ReadText(fen).value, texts) else texts == {}
  {
    hide Placed, Safe, Doubled, Rationed, Legal, Pseudo, MoveFrom, MoveTo, MoveMake, TextOf, Bits, Counts, ReadText;
    var p := new Position(z);
    var ok := FromFen(p, fen);
    texts := {};
    if ok {
      ghost var q := Pos(p.Board(), p.turn);
      var legal := IsLegal(p);
      if legal {
        SafeKingsApart(q.board, q.turn.Other());
        var moves := GenLegals(p);
        LegalIsPseudo(q.board, q.turn);
        PseudoOnBoard(q.board, q.turn);
        texts := TextsOfMoves(moves);
        forall m
          ensures m in texts <==> LegalText(q, m)
        {
          ListedText(q, moves, m);
        }
      }
    }
  }

  lemma SafeKingsApart(b: Board, c: Side)
    requires Safe(b, c)
    ensures !Facing(b)
  {
  }

  // From the text of a position itself these are the moves of the position.
  lemma MovesOfOwnText(q: Pos, texts: set<string>)
    requires if ReadText(FenOf(q)).Some? then GivesMoves(ReadText(FenOf(q)).value, texts) else texts == {}
    ensures GivesMoves(q, texts)
  {
    hide ReadText, FenOf, LegalText;
    ReadsBack(q);
  }

  lemma PseudoOnBoard(b: Board, c: Side)
    ensures forall f, t :: Pseudo(b, c, f, t) ==> OnBoard(f) && OnBoard(t)
  {
  }

  lemma ListedText(q: Pos, moves: seq<int>, m: string)
    requires forall x :: x in moves ==> OnBoard(MoveFrom(x)) && OnBoard(MoveTo(x))
    requires forall x :: x in moves <==>
      x == MoveMake(MoveFrom(x), MoveTo(x)) && Legal(q.board, q.turn, MoveFrom(x), MoveTo(x))
    ensures (exists x :: x in moves && m == TextOf(MoveFrom(x), MoveTo(x))) <==> LegalText(q, m)
  {
    hide Legal, MoveMake, MoveFrom, MoveTo, TextOf;
    if LegalText(q, m) {
      var f, t :| OnBoard(f) && OnBoard(t) && m == TextOf(f, t) && Legal(q.board, q.turn, f, t);
      Unpack(f, t);
      assert MoveMake(f, t) in moves;
    }
  }

  // ---- ccbmovemake ----

  function SquareOfText(x: char, y: char): int
    requires 'a' <= x <= 'i' && '0' <= y <= '9'
  {
    9 * (y as int - '0' as int) + (8 - (x as int - 'a' as int))
  }

  method ParseMove(move: string, ghost f: int, ghost t: int) returns (m: int)
    requires OnBoard(f) && OnBoard(t) && move == TextOf(f, t)
    ensures m == MoveMake(f, t)
  {
    assert 0 <= Rank(f) <= 9 && 0 <= File(f) <= 8 && 0 <= Rank(t) <= 9 && 0 <= File(t) <= 8 by {
      Coordinates(f);
      Coordinates(t);
    }
    SquareOfCoordinates(f);
    SquareOfCoordinates(t);
    hide Rank, File;
    m := MoveMake(SquareOfText(move[0], move[1]), SquareOfText(move[2], move[3]));
  }

  lemma SquareOfCoordinates(s: int)
    ensures s == 9 * Rank(s) + File(s)
  {
  }

  // The position after a move.
  function Made(p: Pos, f: int, t: int): Pos
    requires OnBoard(f) && OnBoard(t)
  {
    Pos(Apply(p.board, f, t), p.turn.Other())
  }

  method MakeMove(z: Zobrist, fen: string, move: string, ghost f: int, ghost t: int) returns (out: string)
    requires ReadText(fen).Some? && OnBoard(f) && OnBoard(t) && move == TextOf(f, t)
    requires var q := ReadText(fen).value; Pseudo(q.board, q.turn, f, t) && !Has(q.board, t, q.turn.Other(), King)
    ensures out == FenOf(Made(ReadText(fen).value, f, t))
  {
    hide FenOf, Placed, Safe, Rationed, Pseudo, MoveFrom, MoveTo, MoveMake, TextOf, Bits, Counts, Chronicle, Locked;
    hide Toggled, PosKey, ReadText;
    var p := new Position(z);
    var ok := FromFen(p, fen);
    var m := ParseMove(move, f, t);
    Unpack(f, t);
    p.MoveDo(m);
    out := ToFen(p.square[..], p.turn);
  }
}
