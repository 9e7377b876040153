// The four mirrors of the board, and the rules commuting with them.
module Symmetry {
  import opened Geometry
  import opened Rules
  import opened Attacks
  import opened Bitboards

  datatype Mirror = Mirror(swapFiles: bool, swapSides: bool)

  const ID := Mirror(false, false)
  const BW := Mirror(false, true)
  const LR := Mirror(true, false)
  const LRBW := Mirror(true, true)

  datatype Pos = Pos(board: Board, turn: Side)

  function Then(g: Mirror, h: Mirror): Mirror {
    Mirror(g.swapFiles != h.swapFiles, g.swapSides != h.swapSides)
  }

  function SqOf(g: Mirror, s: int): int {
    9 * (if g.swapSides then 9 - Rank(s) else Rank(s)) + (if g.swapFiles then 8 - File(s) else File(s))
  }

  function SideOf(g: Mirror, c: Side): Side { if g.swapSides then c.Other() else c }

  function CellOf(g: Mirror, c: Cell): Cell { if c.Man? then Man(SideOf(g, c.side), c.kind) else c }

  function BoardOf(g: Mirror, b: Board): Board {
    seq(90, s requires 0 <= s < 90 => CellOf(g, if 0 <= SqOf(g, s) < 90 then b[SqOf(g, s)] else Empty))
  }

  function Image(g: Mirror, p: Pos): Pos { Pos(BoardOf(g, p.board), SideOf(g, p.turn)) }

  // ---- the group ----

  lemma SqMoves(g: Mirror, s: int)
    requires OnBoard(s)
    ensures OnBoard(SqOf(g, s)) && SqOf(g, SqOf(g, s)) == s
    ensures Rank(SqOf(g, s)) == (if g.swapSides then 9 - Rank(s) else Rank(s))
    ensures File(SqOf(g, s)) == (if g.swapFiles then 8 - File(s) else File(s))
  {
  }

  lemma SqCompose(g: Mirror, h: Mirror, s: int)
    requires OnBoard(s)
    ensures SqOf(g, SqOf(h, s)) == SqOf(Then(g, h), s)
  {
    SqMoves(h, s);
    hide Rank, File;
  }

  lemma CellAt(g: Mirror, b: Board, s: int)
    requires OnBoard(s)
    ensures OnBoard(SqOf(g, s)) && BoardOf(g, b)[SqOf(g, s)] == CellOf(g, b[s])
  {
    SqMoves(g, s);
    SqMoves(g, SqOf(g, s));
  }

  lemma CellsCompose(g: Mirror, h: Mirror, b: Board, s: int)
    requires OnBoard(s)
    ensures BoardOf(g, BoardOf(h, b))[s] == BoardOf(Then(g, h), b)[s]
  {
    var x := SqOf(g, s);
    SqMoves(g, s);
    SqMoves(h, x);
    SqMoves(Then(g, h), s);
    SqCompose(h, g, s);
    CellAt(g, BoardOf(h, b), x);
    CellAt(h, b, SqOf(h, x));
    CellAt(Then(g, h), b, SqOf(Then(g, h), s));
    hide SqOf, BoardOf;
  }

  // Mirroring twice is mirroring by the product: the Klein four-group acts on positions.
  lemma ImagesCompose(g: Mirror, h: Mirror, p: Pos)
    ensures Image(g, Image(h, p)) == Image(Then(g, h), p)
  {
    hide SqOf, BoardOf;
    forall s | OnBoard(s)
      ensures BoardOf(g, BoardOf(h, p.board))[s] == BoardOf(Then(g, h), p.board)[s]
    {
      CellsCompose(g, h, p.board, s);
    }
    assert BoardOf(g, BoardOf(h, p.board)) == BoardOf(Then(g, h), p.board);
  }

  lemma GroupLaws(g: Mirror, h: Mirror, p: Pos)
    ensures Image(ID, p) == p && Image(g, Image(g, p)) == p
    ensures Image(g, Image(h, p)) == Image(h, Image(g, p))
    ensures Image(LRBW, p) == Image(LR, Image(BW, p))
  {
    hide SqOf;
    forall s | OnBoard(s)
      ensures SqOf(ID, s) == s
    {
      Stays(s);
    }
    assert BoardOf(ID, p.board) == p.board;
    ImagesCompose(g, g, p);
    ImagesCompose(g, h, p);
    ImagesCompose(h, g, p);
    ImagesCompose(LR, BW, p);
  }

  lemma Stays(s: int)
    ensures SqOf(ID, s) == s
  {
  }

  // ---- geometry is mirrored ----

  lemma LinesMirror(g: Mirror, a: int, b: int)
    requires OnBoard(a) && OnBoard(b)
    ensures var x, y := SqOf(g, a), SqOf(g, b);
      (SameRank(x, y) <==> SameRank(a, b)) && (SameFile(x, y) <==> SameFile(a, b)) && (x == y <==> a == b)
  {
    SqMoves(g, a);
    SqMoves(g, b);
    Square(a, b);
    hide SqOf, Rank, File;
  }

  lemma StepsMirror(g: Mirror, a: int, b: int)
    requires OnBoard(a) && OnBoard(b)
    ensures var x, y := SqOf(g, a), SqOf(g, b);
      && Abs(Rank(x) - Rank(y)) == Abs(Rank(a) - Rank(b)) && Abs(File(x) - File(y)) == Abs(File(a) - File(b))
      && (KnightStep(x, y) <==> KnightStep(a, b)) && (KingStep(x, y) <==> KingStep(a, b))
      && (DiagonalStep(x, y, 1) <==> DiagonalStep(a, b, 1)) && (DiagonalStep(x, y, 2) <==> DiagonalStep(a, b, 2))
  {
    SqMoves(g, a);
    SqMoves(g, b);
    hide SqOf, Rank, File;
  }

  lemma PointsMirror(g: Mirror, a: int, c: Side)
    requires OnBoard(a)
    ensures var x, d := SqOf(g, a), SideOf(g, c);
      && (Palace(x, d) <==> Palace(a, c)) && (AdvisorPoint(x, d) <==> AdvisorPoint(a, c))
      && (HomeHalf(x, d) <==> HomeHalf(a, c)) && (BishopPoint(x, d) <==> BishopPoint(a, c))
      && (PawnPoint(x, d) <==> PawnPoint(a, c))
  {
    PalaceMirrors(g, a, c);
    HalfMirrors(g, a, c);
    hide SqOf, Rank, File, Palace, AdvisorPoint, HomeHalf, BishopPoint, PawnPoint;
  }

  lemma PalaceMirrors(g: Mirror, a: int, c: Side)
    requires OnBoard(a)
    ensures var x, d := SqOf(g, a), SideOf(g, c);
      (Palace(x, d) <==> Palace(a, c)) && (AdvisorPoint(x, d) <==> AdvisorPoint(a, c))
  {
    SqMoves(g, a);
    hide SqOf, Rank, File;
  }

  lemma HalfMirrors(g: Mirror, a: int, c: Side)
    requires OnBoard(a)
    ensures var x, d := SqOf(g, a), SideOf(g, c);
      && (HomeHalf(x, d) <==> HomeHalf(a, c)) && (BishopPoint(x, d) <==> BishopPoint(a, c))
      && (PawnPoint(x, d) <==> PawnPoint(a, c))
  {
    SqMoves(g, a);
    HalfByRank(a);
    HalfByRank(SqOf(g, a));
    FileParity(File(a));
    hide SqOf, Rank, File;
  }

  lemma FileParity(f: int)
    ensures (8 - f) % 4 == 0 <==> f % 4 == 0
    ensures (8 - f) % 4 == 2 <==> f % 4 == 2
    ensures (8 - f) % 2 == 0 <==> f % 2 == 0
  {
  }

  lemma PawnStepMirrors(g: Mirror, a: int, b: int, c: Side)
    requires OnBoard(a) && OnBoard(b)
    ensures PawnStep(SqOf(g, a), SqOf(g, b), SideOf(g, c)) <==> PawnStep(a, b, c)
  {
    SqMoves(g, a);
    SqMoves(g, b);
    PointsMirror(g, a, c);
    StepsMirror(g, a, b);
    hide SqOf, Rank, File, HomeHalf;
  }

  lemma HalfByRank(s: int)
    ensures s < 45 <==> Rank(s) < 5
  {
  }

  lemma Square(a: int, b: int)
    ensures Rank(a) == Rank(b) && File(a) == File(b) ==> a == b
    ensures a == b ==> Rank(a) == Rank(b)
  {
  }

  lemma BetweenMirrors(g: Mirror, m: int, a: int, b: int)
    requires OnBoard(m) && OnBoard(a) && OnBoard(b)
    ensures Between(SqOf(g, m), SqOf(g, a), SqOf(g, b)) <==> Between(m, a, b)
  {
    LinesMirror(g, m, a);
    LinesMirror(g, a, b);
    BetweenByCoordinates(m, a, b);
    SqMoves(g, m);
    SqMoves(g, a);
    SqMoves(g, b);
    BetweenByCoordinates(SqOf(g, m), SqOf(g, a), SqOf(g, b));
    hide SqOf, Rank, File, Between;
  }

  lemma BetweenByCoordinates(m: int, a: int, b: int)
    ensures Between(m, a, b) <==>
      || (Rank(a) == Rank(b) == Rank(m) && Mid(File(m), File(a), File(b)))
      || (File(a) == File(b) == File(m) && Mid(Rank(m), Rank(a), Rank(b)))
  {
  }

  // ---- the same number of screens ----

  function SqsOf(g: Mirror, x: set<int>): set<int> { set s | s in x :: SqOf(g, s) }

  lemma {:induction false} SameSize(g: Mirror, x: set<int>)
    requires forall s :: s in x ==> OnBoard(s)
    ensures |SqsOf(g, x)| == |x|
  {
    if x != {} {
      var s := Element(x);
      var rest := x - {s};
      SameSize(g, rest);
      assert SqsOf(g, x) == SqsOf(g, rest) + {SqOf(g, s)};
      forall u | u in rest ensures SqOf(g, u) != SqOf(g, s) {
        LinesMirror(g, u, s);
      }
    }
  }

  lemma ScreensMirror(g: Mirror, b: Board, f: int, t: int)
    requires OnBoard(f) && OnBoard(t)
    ensures |Screens(Occ(BoardOf(g, b)), SqOf(g, f), SqOf(g, t))| == |Screens(Occ(b), f, t)|
  {
    var x, y := Screens(Occ(b), f, t), Screens(Occ(BoardOf(g, b)), SqOf(g, f), SqOf(g, t));
    SameSize(g, x);
    forall s | OnBoard(s)
      ensures SqOf(g, s) in y <==> s in x
      ensures OnBoard(SqOf(g, s)) && SqOf(g, SqOf(g, s)) == s
    {
      CellAt(g, b, s);
      SqMoves(g, s);
      BetweenMirrors(g, s, f, t);
    }
    hide SqOf, Line, Occ, BoardOf;
    forall s | s in y ensures s in SqsOf(g, x) {
      assert s == SqOf(g, SqOf(g, s));
    }
    assert y == SqsOf(g, x);
  }

  // ---- moves are mirrored ----

  lemma LegIs(a: int, b: int)
    requires OnBoard(a) && OnBoard(b) && KnightStep(a, b)
    ensures var l, dr, df := Leg(a, b), Rank(b) - Rank(a), File(b) - File(a);
      && OnBoard(l)
      && Rank(l) == (if dr == 2 then Rank(a) + 1 else if dr == -2 then Rank(a) - 1 else Rank(a))
      && File(l) == (if dr == 2 || dr == -2 then File(a) else if df == 2 then File(a) + 1 else File(a) - 1)
  {
  }

  lemma LegMirrors(g: Mirror, a: int, b: int)
    requires OnBoard(a) && OnBoard(b) && KnightStep(a, b)
    ensures OnBoard(Leg(a, b)) && Leg(SqOf(g, a), SqOf(g, b)) == SqOf(g, Leg(a, b))
  {
    hide SqOf, Rank, File, Leg;
    StepsMirror(g, a, b);
    SqMoves(g, a);
    SqMoves(g, b);
    LegIs(a, b);
    LegIs(SqOf(g, a), SqOf(g, b));
    SqMoves(g, Leg(a, b));
    Square(Leg(SqOf(g, a), SqOf(g, b)), SqOf(g, Leg(a, b)));
  }

  lemma EyeMirrors(g: Mirror, a: int, b: int)
    requires OnBoard(a) && OnBoard(b) && DiagonalStep(a, b, 2)
    ensures OnBoard((a + b) / 2) && (SqOf(g, a) + SqOf(g, b)) / 2 == SqOf(g, (a + b) / 2)
  {
    hide SqOf, Rank, File;
    EyeIs(a, b);
    StepsMirror(g, a, b);
    SqMoves(g, a);
    SqMoves(g, b);
    EyeIs(SqOf(g, a), SqOf(g, b));
    SquareIs(SqOf(g, a), SqOf(g, b), g, a, b);
  }

  lemma EyeIs(a: int, b: int)
    requires OnBoard(a) && OnBoard(b) && DiagonalStep(a, b, 2)
    ensures OnBoard((a + b) / 2) && 2 * Rank((a + b) / 2) == Rank(a) + Rank(b)
    ensures 2 * File((a + b) / 2) == File(a) + File(b)
  {
  }

  lemma SquareIs(x: int, y: int, g: Mirror, a: int, b: int)
    requires 2 * Rank((x + y) / 2) == Rank(x) + Rank(y) && 2 * File((x + y) / 2) == File(x) + File(y)
    requires 2 * Rank((a + b) / 2) == Rank(a) + Rank(b) && 2 * File((a + b) / 2) == File(a) + File(b)
    requires Rank(x) == (if g.swapSides then 9 - Rank(a) else Rank(a))
    requires File(x) == (if g.swapFiles then 8 - File(a) else File(a))
    requires Rank(y) == (if g.swapSides then 9 - Rank(b) else Rank(b))
    requires File(y) == (if g.swapFiles then 8 - File(b) else File(b))
    ensures (x + y) / 2 == SqOf(g, (a + b) / 2)
  {
    var u, v := (x + y) / 2, (a + b) / 2;
    assert u == 9 * Rank(u) + File(u);
    hide Rank, File;
  }

  lemma OccMirrors(g: Mirror, b: Board, s: int)
    requires OnBoard(s)
    ensures SqOf(g, s) in Occ(BoardOf(g, b)) <==> s in Occ(b)
  {
    CellAt(g, b, s);
  }

  lemma ReachesMirrors(g: Mirror, b: Board, kind: Kind, c: Side, f: int, t: int)
    requires OnBoard(f) && OnBoard(t) && OnBoard(SqOf(g, f)) && OnBoard(SqOf(g, t))
    ensures Reaches(BoardOf(g, b), kind, SideOf(g, c), SqOf(g, f), SqOf(g, t)) <==> Reaches(b, kind, c, f, t)
  {
    hide SqOf, Rank, File, Occ, Screens, Leg, KnightStep, KingStep, PawnStep, DiagonalStep, Palace, AdvisorPoint;
    hide BishopPoint, SameRank, SameFile, SideOf, BoardOf;
    LinesMirror(g, f, t);
    StepsMirror(g, f, t);
    PointsMirror(g, f, c);
    PointsMirror(g, t, c);
    PawnStepMirrors(g, f, t, c);
    ScreensMirror(g, b, f, t);
    CellAt(g, b, t);
    if KnightStep(f, t) {
      LegMirrors(g, f, t);
      OccMirrors(g, b, Leg(f, t));
    }
    if DiagonalStep(f, t, 2) {
      EyeMirrors(g, f, t);
      OccMirrors(g, b, (f + t) / 2);
    }
  }

  lemma PseudoMirrors(g: Mirror, b: Board, c: Side, f: int, t: int)
    requires OnBoard(f) && OnBoard(t)
    ensures Pseudo(BoardOf(g, b), SideOf(g, c), SqOf(g, f), SqOf(g, t)) <==> Pseudo(b, c, f, t)
  {
    CellAt(g, b, f);
    CellAt(g, b, t);
    LinesMirror(g, f, t);
    if b[f].Man? {
      ReachesMirrors(g, b, b[f].kind, c, f, t);
    }
    hide SqOf, Reaches, BoardOf;
  }

  // Making the mirrored move gives the mirrored board.
  lemma ApplyMirrors(g: Mirror, b: Board, f: int, t: int)
    requires OnBoard(f) && OnBoard(t) && OnBoard(SqOf(g, f)) && OnBoard(SqOf(g, t))
    ensures Apply(BoardOf(g, b), SqOf(g, f), SqOf(g, t)) == BoardOf(g, Apply(b, f, t))
  {
    var x, y := Apply(BoardOf(g, b), SqOf(g, f), SqOf(g, t)), BoardOf(g, Apply(b, f, t));
    forall s | OnBoard(s)
      ensures x[s] == y[s]
    {
      SqMoves(g, s);
      var u := SqOf(g, s);
      CellAt(g, b, u);
      CellAt(g, b, f);
      CellAt(g, Apply(b, f, t), u);
      LinesMirror(g, u, f);
      LinesMirror(g, u, t);
      hide SqOf, BoardOf;
    }
  }

  lemma HasMirrors(g: Mirror, b: Board, s: int, c: Side, kind: Kind)
    requires OnBoard(s)
    ensures OnBoard(SqOf(g, s))
    ensures Has(BoardOf(g, b), SqOf(g, s), SideOf(g, c), kind) <==> Has(b, s, c, kind)
  {
    CellAt(g, b, s);
  }

  lemma CheckCarriesOver(g: Mirror, b: Board, c: Side)
    requires InCheck(b, c)
    ensures InCheck(BoardOf(g, b), SideOf(g, c))
  {
    hide SqOf, BoardOf, Reaches;
    var s, k :| Has(b, k, c, King) && Pseudo(b, c.Other(), s, k);
    HasMirrors(g, b, k, c, King);
    PseudoMirrors(g, b, c.Other(), s, k);
    assert SideOf(g, c.Other()) == SideOf(g, c).Other();
  }

  lemma FacingCarriesOver(g: Mirror, b: Board)
    requires Facing(b)
    ensures Facing(BoardOf(g, b))
  {
    hide SqOf, BoardOf, Screens, Occ;
    var w, k :| Has(b, w, White, King) && Has(b, k, Black, King) && SameFile(w, k) && Screens(Occ(b), w, k) == {};
    HasMirrors(g, b, w, White, King);
    HasMirrors(g, b, k, Black, King);
    LinesMirror(g, w, k);
    ScreensMirror(g, b, w, k);
    ScreensMirror(g, b, k, w);
    ScreensSymmetric(Occ(b), w, k);
    SqMoves(g, w);
    SqMoves(g, k);
    var x, y := if g.swapSides then SqOf(g, k) else SqOf(g, w), if g.swapSides then SqOf(g, w) else SqOf(g, k);
    assert Has(BoardOf(g, b), x, White, King) && Has(BoardOf(g, b), y, Black, King);
    assert SameFile(x, y) && Screens(Occ(BoardOf(g, b)), x, y) == {};
  }

  lemma MirrorBack(g: Mirror, b: Board, c: Side)
    ensures BoardOf(g, BoardOf(g, b)) == b && SideOf(g, SideOf(g, c)) == c
  {
    GroupLaws(g, g, Pos(b, c));
  }

  lemma SafeMirrors(g: Mirror, b: Board, c: Side)
    ensures Safe(BoardOf(g, b), SideOf(g, c)) <==> Safe(b, c)
  {
    hide BoardOf, SideOf, InCheck, Facing;
    MirrorBack(g, b, c);
    var a := BoardOf(g, b);
    if InCheck(b, c) { CheckCarriesOver(g, b, c); }
    if InCheck(a, SideOf(g, c)) { CheckCarriesOver(g, a, SideOf(g, c)); }
    if Facing(b) { FacingCarriesOver(g, b); }
    if Facing(a) { FacingCarriesOver(g, a); }
  }

  // A move is legal iff its mirror image is legal in the mirrored position.
  lemma LegalMirrors(g: Mirror, b: Board, c: Side, f: int, t: int)
    requires OnBoard(f) && OnBoard(t)
    ensures Legal(BoardOf(g, b), SideOf(g, c), SqOf(g, f), SqOf(g, t)) <==> Legal(b, c, f, t)
  {
    hide BoardOf, SideOf, SqOf, Pseudo, Safe;
    PseudoMirrors(g, b, c, f, t);
    SqMoves(g, f);
    SqMoves(g, t);
    ApplyMirrors(g, b, f, t);
    SafeMirrors(g, Apply(b, f, t), c);
  }
}
