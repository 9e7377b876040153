// Move making and move generation commute with the four mirrors.
module Commutes {
  import opened Geometry
  import opened Rules
  import opened Attacks
  import opened Symmetry
  import opened MoveText
  import opened FenReader
  import opened Extension

  // ---- what the reader accepts ----

  lemma RationsMirror(g: Mirror, b: Board, c: Side, kind: Kind)
    ensures |Of(BoardOf(g, b), SideOf(g, c), kind)| == |Of(b, c, kind)|
  {
    hide SqOf, BoardOf, SideOf;
    var x, y := Of(b, c, kind), Of(BoardOf(g, b), SideOf(g, c), kind);
    SameSize(g, x);
    forall s | OnBoard(s)
      ensures OnBoard(SqOf(g, s)) && SqOf(g, SqOf(g, s)) == s && (SqOf(g, s) in y <==> s in x)
    {
      SqMoves(g, s);
      HasMirrors(g, b, s, c, kind);
    }
    forall s | s in y
      ensures s in SqsOf(g, x)
    {
      assert s == SqOf(g, SqOf(g, s));
    }
    assert y == SqsOf(g, x);
  }

  lemma KingPlacedMirrors(g: Mirror, b: Board, c: Side, k: int)
    requires KingPlaced(b, c, k)
    ensures KingPlaced(BoardOf(g, b), SideOf(g, c), SqOf(g, k))
  {
    hide SqOf, BoardOf, SideOf, Palace;
    HasMirrors(g, b, k, c, King);
    PointsMirror(g, k, c);
    forall s | Has(BoardOf(g, b), s, SideOf(g, c), King)
      ensures s == SqOf(g, k)
    {
      SqMoves(g, s);
      HasMirrors(g, b, SqOf(g, s), c, King);
    }
  }

  lemma PointMirrors(g: Mirror, b: Board, s: int)
    requires OnBoard(s) && (b[s].Man? ==> PointOk(b[s].side, b[s].kind, s))
    ensures OnBoard(SqOf(g, s))
    ensures var m := BoardOf(g, b)[SqOf(g, s)]; m.Man? ==> PointOk(m.side, m.kind, SqOf(g, s))
  {
    CellAt(g, b, s);
    if b[s].Man? {
      PointsMirror(g, s, b[s].side);
    }
    hide SqOf, BoardOf, SideOf, Palace, AdvisorPoint, BishopPoint, PawnPoint;
  }

  lemma AcceptableCarriesOver(g: Mirror, b: Board)
    requires Acceptable(b)
    ensures Acceptable(BoardOf(g, b))
  {
    hide SqOf, BoardOf, PointOk, KingPlaced, Of;
    var a := BoardOf(g, b);
    forall s | OnBoard(s) && a[s].Man?
      ensures PointOk(a[s].side, a[s].kind, s)
    {
      SqMoves(g, s);
      PointMirrors(g, b, SqOf(g, s));
    }
    var w :| KingPlaced(b, White, w);
    var k :| KingPlaced(b, Black, k);
    KingPlacedMirrors(g, b, White, w);
    KingPlacedMirrors(g, b, Black, k);
    forall c: Side, kind: Kind
      ensures |Of(a, c, kind)| <= Ration(kind)
    {
      RationsMirror(g, b, SideOf(g, c), kind);
      assert SideOf(g, SideOf(g, c)) == c;
    }
  }

  lemma DoubledCarriesOver(g: Mirror, b: Board, c: Side)
    requires Doubled(b, c)
    ensures Doubled(BoardOf(g, b), SideOf(g, c))
  {
    hide SqOf, BoardOf, SideOf, PawnStep, HomeHalf;
    var s, t :| PawnBehind(b, c, s, t);
    HasMirrors(g, b, s, c, Pawn);
    HasMirrors(g, b, t, c, Pawn);
    PointsMirror(g, s, c);
    PointsMirror(g, t, c);
    PawnStepMirrors(g, s, t, c);
    assert PawnBehind(BoardOf(g, b), SideOf(g, c), SqOf(g, s), SqOf(g, t));
  }

  lemma PlayableCarriesOver(g: Mirror, p: Pos)
    requires Playable(p)
    ensures Playable(Image(g, p))
  {
    hide BoardOf, Acceptable, Safe, Doubled;
    AcceptableCarriesOver(g, p.board);
    SafeMirrors(g, p.board, p.turn.Other());
    var a := BoardOf(g, p.board);
    forall c: Side
      ensures !Doubled(a, c)
    {
      if Doubled(a, c) {
        DoubledCarriesOver(g, a, c);
        MirrorBack(g, p.board, c);
      }
    }
    assert SideOf(g, p.turn.Other()) == SideOf(g, p.turn).Other();
  }

  lemma PlayableMirrors(g: Mirror, p: Pos)
    ensures Playable(Image(g, p)) <==> Playable(p)
    ensures Acceptable(Image(g, p).board) <==> Acceptable(p.board)
  {
    hide BoardOf, Playable, Acceptable;
    GroupLaws(g, g, p);
    if Playable(p) { PlayableCarriesOver(g, p); }
    if Playable(Image(g, p)) { PlayableCarriesOver(g, Image(g, p)); }
    if Acceptable(p.board) { AcceptableCarriesOver(g, p.board); }
    if Acceptable(Image(g, p).board) { AcceptableCarriesOver(g, Image(g, p).board); }
  }

  // ---- the two entry points ----

  lemma LegalTextCarriesOver(g: Mirror, p: Pos, m: string)
    requires LegalText(p, m)
    ensures LegalText(Image(g, p), MirrorText(g, m))
  {
    hide BoardOf, SqOf, SideOf, Legal, TextOf, MirrorText;
    var f, t :| OnBoard(f) && OnBoard(t) && m == TextOf(f, t) && Legal(p.board, p.turn, f, t);
    TextMirrors(g, f, t);
    LegalMirrors(g, p.board, p.turn, f, t);
  }

  // ccbmovegen of the mirrored text is the mirror of ccbmovegen.
  lemma GenerationCommutes(g: Mirror, p: Pos, texts: set<string>, images: set<string>)
    requires GivesMoves(p, texts) && GivesMoves(Image(g, p), images)
    ensures images == set m | m in texts :: MirrorText(g, m)
  {
    hide Image, Playable, LegalText, MirrorText;
    PlayableMirrors(g, p);
    GroupLaws(g, g, p);
    forall m | m in texts
      ensures MirrorText(g, m) in images
    {
      LegalTextCarriesOver(g, p, m);
    }
    forall m | m in images
      ensures MirrorText(g, m) in texts && m == MirrorText(g, MirrorText(g, m))
    {
      LegalTextCarriesOver(g, Image(g, p), m);
      TextsCompose(g, g, m);
    }
  }

  // ccbmovemake of the mirrored text and move is the mirror of ccbmovemake, and
  // takes the mirrored move exactly when it takes the move.
  lemma MakingCommutes(g: Mirror, p: Pos, f: int, t: int)
    requires OnBoard(f) && OnBoard(t)
    ensures OnBoard(SqOf(g, f)) && OnBoard(SqOf(g, t)) && MirrorText(g, TextOf(f, t)) == TextOf(SqOf(g, f), SqOf(g, t))
    ensures Made(Image(g, p), SqOf(g, f), SqOf(g, t)) == Image(g, Made(p, f, t))
    ensures Pseudo(Image(g, p).board, Image(g, p).turn, SqOf(g, f), SqOf(g, t)) <==> Pseudo(p.board, p.turn, f, t)
    ensures Acceptable(Image(g, p).board) <==> Acceptable(p.board)
  {
    hide BoardOf, SqOf, Pseudo, Acceptable, TextOf, MirrorText;
    TextMirrors(g, f, t);
    ApplyMirrors(g, p.board, f, t);
    PseudoMirrors(g, p.board, p.turn, f, t);
    PlayableMirrors(g, p);
  }
}
