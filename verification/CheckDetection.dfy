// Which side's king a move attacks: the incremental tests of the engine find
// exactly the checks that looking at the whole new board finds.
module CheckDetection {
  import opened Geometry
  import opened Rules
  import opened Attacks
  import opened Bitboards
  import opened Legality

  // ---- the tests, on the board `a` after the move, for one attacker s of side me ----

  predicate RankCannon(a: Board, me: Side, k: int, s: int) { IsCannon(a, s, me) && s in CannonRankAtt(k, Occ(a)) }

  predicate RankRook(a: Board, me: Side, k: int, s: int) { IsRook(a, s, me) && s in RookRankAtt(k, Occ(a)) }

  predicate FileCannon(a: Board, me: Side, k: int, s: int) { IsCannon(a, s, me) && s in CannonFileAtt(k, Occ(a)) }

  predicate FileRook(a: Board, me: Side, k: int, s: int) { IsRook(a, s, me) && s in RookFileAtt(k, Occ(a)) }

  predicate NearPawn(a: Board, me: Side, k: int, s: int) { Has(a, s, me, Pawn) && s in PawnAttd(k, me) }

  predicate HorseAttack(a: Board, me: Side, k: int, s: int) { Has(a, s, me, Knight) && s in KnightAttd(k, Occ(a)) }

  // The piece that moved looks at the king over n blockers.
  predicate Sees(a: Board, to: int, k: int, n: nat) { |Screens(Occ(a), to, k)| == n }

  // Tests made when the move stays on the king's rank.
  predicate AlongRank(a: Board, me: Side, kind: Kind, cap: bool, to: int, k: int, s: int) {
    || (kind.Pawn? && NearPawn(a, me, k, s))
    || (cap &&
        if kind.Rook? then s == to && Sees(a, to, k, 0)
        else if kind.Pawn? then RankCannon(a, me, k, s)
        else kind.Cannon? && (RankCannon(a, me, k, s) || RankRook(a, me, k, s)))
  }

  predicate AlongFile(a: Board, me: Side, kind: Kind, cap: bool, to: int, k: int, s: int) {
    || (kind.Pawn? && NearPawn(a, me, k, s))
    || (cap &&
        if kind.Rook? then s == to && Sees(a, to, k, 0)
        else if kind.Pawn? then FileCannon(a, me, k, s)
        else kind.Cannon? && (FileCannon(a, me, k, s) || FileRook(a, me, k, s)))
  }

  // Tests for the line or leg the piece has left.
  predicate Leaves(a: Board, me: Side, from: int, k: int, s: int) {
    || (SameRank(from, k) && (RankCannon(a, me, k, s) || RankRook(a, me, k, s)))
    || (SameFile(from, k) && (FileCannon(a, me, k, s) || FileRook(a, me, k, s)))
    || ((Abs(from - k) == 8 || Abs(from - k) == 10) && HorseAttack(a, me, k, s))
  }

  // Tests for the square the piece has reached.
  predicate Arrives(a: Board, me: Side, kind: Kind, cap: bool, to: int, k: int, s: int) {
    if SameRank(to, k) then
      || (kind.Rook? && s == to && Sees(a, to, k, 0))
      || (kind.Pawn? && NearPawn(a, me, k, s))
      || (kind.Cannon? && s == to && Sees(a, to, k, 1))
      || (!kind.Rook? && !cap && RankCannon(a, me, k, s))
    else if SameFile(to, k) then
      || (kind.Rook? && s == to && Sees(a, to, k, 0))
      || (kind.Pawn? && NearPawn(a, me, k, s))
      || (kind.Cannon? && s == to && Sees(a, to, k, 1))
      || (!kind.Rook? && !cap && FileCannon(a, me, k, s))
    else
      kind.Knight? && s == to && KnightStep(to, k) && Leg(to, k) !in Occ(a)
  }

  predicate Finds(a: Board, me: Side, kind: Kind, cap: bool, from: int, to: int, k: int, s: int) {
    if kind.King? then SameFile(from, k) && SameRank(from, to) && FileCannon(a, me, k, s)
    else if SameRank(from, k) && SameRank(from, to) then AlongRank(a, me, kind, cap, to, k, s)
    else if SameFile(from, k) && SameFile(from, to) then AlongFile(a, me, kind, cap, to, k, s)
    else Leaves(a, me, from, k, s) || Arrives(a, me, kind, cap, to, k, s)
  }

  // Side me moves; the other king stands on k and was not attacked.
  ghost predicate Attacking(b: Board, me: Side, from: int, to: int, k: int) {
    KingPlaced(b, me.Other(), k) && Pseudo(b, me, from, to) && to != k && forall s :: !Pseudo(b, me, s, k)
  }

  // ---- the checks the tests do not look for ----

  // The king that alone stood between its rook and the other king steps aside,
  // and there is no cannon that gains the rook as its screen.
  ghost predicate UncoversRook(b: Board, me: Side, from: int, to: int, k: int) {
    && SameRank(from, to)
    && (exists s :: IsRook(b, s, me) && SameFile(s, k) && Screens(Occ(b), s, k) == {from})
    && !exists s ::
         IsCannon(b, s, me) && SameFile(s, k) && from in Screens(Occ(b), s, k) && |Screens(Occ(b), s, k)| == 2
  }

  // The king becomes the only screen between its cannon and the other king.
  ghost predicate ScreensCannon(b: Board, me: Side, from: int, to: int, k: int)
    requires OnBoard(from) && OnBoard(to)
  {
    exists s :: IsCannon(b, s, me) && SameFile(s, k) && Screens(Occ(Apply(b, from, to)), s, k) == {to}
  }

  ghost predicate Overlooked(b: Board, me: Side, from: int, to: int, k: int)
    requires OnBoard(from) && OnBoard(to)
  {
    Has(b, from, me, King) && (UncoversRook(b, me, from, to, k) || ScreensCannon(b, me, from, to, k))
  }

  // ---- every finding is a check ----

  lemma FindsSound(b: Board, me: Side, from: int, to: int, k: int, s: int)
    requires Attacking(b, me, from, to, k)
    requires Finds(Apply(b, from, to), me, b[from].kind, b[to].Man?, from, to, k, s)
    ensures Pseudo(Apply(b, from, to), me, s, k)
  {
    hide Rank, File, Screens, RookRankAtt, RookFileAtt, CannonRankAtt, CannonFileAtt, MoveConnect, Flip, Line;
    hide Between, Occ;
    var a := Apply(b, from, to);
    if s != k && OnBoard(s) {
      LookUps(Occ(a), k, s);
    }
  }

  // ---- every check is found ----

  lemma KnightGeometry(s: int, k: int)
    requires OnBoard(s) && OnBoard(k) && KnightStep(s, k)
    ensures !SameRank(s, k) && !SameFile(s, k)
    ensures !SameRank(Leg(s, k), k) && !SameFile(Leg(s, k), k) && (Abs(Leg(s, k) - k) == 8 || Abs(Leg(s, k) - k) == 10)
  {
  }

  lemma MoverKnightFound(b: Board, me: Side, from: int, to: int, k: int)
    requires Attacking(b, me, from, to, k) && Pseudo(Apply(b, from, to), me, to, k) && b[from].kind.Knight?
    ensures Finds(Apply(b, from, to), me, Knight, b[to].Man?, from, to, k, to)
  {
    hide Rank, File, Occ, Leg, SameRank, SameFile, KnightStep;
    KnightGeometry(from, to);
    KnightGeometry(to, k);
  }

  // A pawn that attacks k stands on k's file or rank and came along it or from neither.
  lemma PawnGeometry(from: int, to: int, k: int, me: Side)
    requires OnBoard(from) && OnBoard(to) && OnBoard(k) && PawnStep(from, to, me) && PawnStep(to, k, me) && from != k
    ensures SameRank(to, k) || SameFile(to, k)
    ensures SameRank(from, k) ==> SameRank(from, to)
    ensures SameFile(from, k) ==> SameFile(from, to)
  {
  }

  lemma MoverPawnFound(b: Board, me: Side, from: int, to: int, k: int)
    requires Attacking(b, me, from, to, k) && Pseudo(Apply(b, from, to), me, to, k) && b[from].kind.Pawn?
    ensures Finds(Apply(b, from, to), me, Pawn, b[to].Man?, from, to, k, to)
  {
    hide Rank, File, Occ, SameRank, SameFile, PawnStep;
    PawnGeometry(from, to, k, me);
    assert to in PawnAttd(k, me);
  }

  // A slider that moves quietly along a line of k keeps its view of k.
  lemma QuietSlide(b: Board, me: Side, from: int, to: int, k: int)
    requires Pseudo(b, me, from, to) && (b[from].kind.Rook? || b[from].kind.Cannon?) && b[to].Empty?
    requires Has(b, k, me.Other(), King)
    requires (SameRank(from, to) && SameRank(to, k)) || (SameFile(from, to) && SameFile(to, k))
    ensures |Screens(Occ(Apply(b, from, to)), to, k)| == |Screens(Occ(b), from, k)|
  {
    var occ, after := Occ(b), Occ(Apply(b, from, to));
    assert Screens(occ, from, to) == {};
    OccApply(b, from, to);
    assert k !in Line(from, to) by {
      assert k !in Screens(occ, from, to);
    }
    forall x | x in after || x in occ
      ensures x in Screens(after, to, k) <==> x in Screens(occ, from, k)
    {
      assert x !in Screens(occ, from, to);
    }
    assert Screens(after, to, k) == Screens(occ, from, k);
  }

  lemma MoverSliderFound(b: Board, me: Side, from: int, to: int, k: int)
    requires Attacking(b, me, from, to, k) && Pseudo(Apply(b, from, to), me, to, k)
    requires b[from].kind.Rook? || b[from].kind.Cannon?
    ensures Finds(Apply(b, from, to), me, b[from].kind, b[to].Man?, from, to, k, to)
  {
    hide Rank, File, Screens, Line, Between, Occ, RookRankAtt, RookFileAtt, CannonRankAtt, CannonFileAtt;
    var a := Apply(b, from, to);
    assert from != k && !Strikes(b, me, from, k);
    LookUps(Occ(a), k, to);
    if SameRank(from, k) && SameFile(from, k) { Crossing(from, k); }
    if SameRank(to, k) && SameFile(to, k) { Crossing(to, k); }
    if b[to].Empty? && ((SameRank(from, to) && SameRank(to, k)) || (SameFile(from, to) && SameFile(to, k))) {
      QuietSlide(b, me, from, to, k);
    }
  }

  // The piece that moved gives check.
  lemma MoverFound(b: Board, me: Side, from: int, to: int, k: int)
    requires Attacking(b, me, from, to, k) && Pseudo(Apply(b, from, to), me, to, k)
    ensures Finds(Apply(b, from, to), me, b[from].kind, b[to].Man?, from, to, k, to)
  {
    hide Screens, Occ, Finds;
    if b[from].kind.Knight? {
      MoverKnightFound(b, me, from, to, k);
    } else if b[from].kind.Pawn? {
      MoverPawnFound(b, me, from, to, k);
    } else if b[from].kind.Rook? || b[from].kind.Cannon? {
      MoverSliderFound(b, me, from, to, k);
    }
  }

  ghost predicate Discovered(b: Board, me: Side, from: int, to: int, k: int, s: int) {
    && Attacking(b, me, from, to, k) && s != to
    && Pseudo(Apply(b, from, to), me, s, k)
  }

  // A knight behind the leg the mover has left.
  lemma KnightFound(b: Board, me: Side, from: int, to: int, k: int, s: int)
    requires Discovered(b, me, from, to, k, s) && !IsSlider(b[s].kind)
    ensures Finds(Apply(b, from, to), me, b[from].kind, b[to].Man?, from, to, k, s)
  {
    KnightUnblocked(b, me, from, to, k, s);
    hide Screens, Occ, Leg, KnightStep;
    KnightGeometry(s, k);
  }

  lemma KnightUnblocked(b: Board, me: Side, from: int, to: int, k: int, s: int)
    requires Discovered(b, me, from, to, k, s) && !IsSlider(b[s].kind)
    ensures OnBoard(s) && OnBoard(k) && KnightStep(s, k) && Leg(s, k) == from
    ensures HorseAttack(Apply(b, from, to), me, k, s)
  {
    hide Rank, File, Screens, Leg, KnightStep;
    var a := Apply(b, from, to);
    StrikeForms(b, me.Other(), s, k);
    StrikeForms(a, me.Other(), s, k);
    OccApply(b, from, to);
  }

  lemma SliderCounts(b: Board, me: Side, from: int, to: int, k: int, s: int)
    requires Discovered(b, me, from, to, k, s) && IsSlider(b[s].kind)
    ensures OnBoard(s) && OnBoard(k) && Own(b, s, me) && Aligned(s, k)
    ensures s in Occ(b) && k in Occ(b) && from in Occ(b) && (to in Occ(b) <==> b[to].Man?)
    ensures s != from && k != from
    ensures var n, m := |Screens(Occ(b), s, k)|, |Screens(Occ(Apply(b, from, to)), s, k)|;
      && m == n - (if In(from, s, k) then 1 else 0) + (if In(to, s, k) && b[to].Empty? then 1 else 0)
      && (if b[s].kind.Rook? then n != 0 && m == 0 else b[s].kind.Cannon? && n != 1 && m == 1)
  {
    hide Rank, File, Screens, Line, Between;
    var a := Apply(b, from, to);
    StrikeForms(b, me.Other(), s, k);
    StrikeForms(a, me.Other(), s, k);
    ScreensApply(b, from, to, s, k);
  }

  // The mover was the last blocker of a rook.
  lemma RookFound(b: Board, me: Side, from: int, to: int, k: int, s: int)
    requires Discovered(b, me, from, to, k, s) && b[s].kind.Rook? && !b[from].kind.King?
    ensures Finds(Apply(b, from, to), me, b[from].kind, b[to].Man?, from, to, k, s)
  {
    hide Rank, File, Screens, Line, Between, Occ, RookRankAtt, RookFileAtt, CannonRankAtt, CannonFileAtt, In, Reaches;
    SliderCounts(b, me, from, to, k, s);
    LookUps(Occ(Apply(b, from, to)), k, s);
    OneLine(from, s, k);
    OneLine(to, s, k);
    if (SameRank(s, k) && SameRank(from, to)) || (SameFile(s, k) && SameFile(from, to)) {
      if b[to].Empty? || !b[from].kind.Cannon? {
        KeepsOrder(b, me, from, to, k, s);
      }
    }
    if In(to, s, k) && In(from, s, k) && b[to].Man? {
      TwoScreens(Occ(b), s, k, from, to);
    }
  }

  // The only blocker between s and k has an open view of k.
  lemma ViewPast(occ: set<int>, s: int, k: int, x: int)
    requires OnBoard(k) && OnBoard(s) && Aligned(s, k) && x in occ && In(x, s, k) && |Screens(occ, s, k)| == 1
    ensures Screens(occ, x, k) == {} && x !in Line(x, k)
  {
    if y :| y in Screens(occ, x, k) {
      assert y in Line(s, k);
      TwoScreens(occ, s, k, x, y);
    }
  }

  lemma StraightMoves(b: Board, me: Side, from: int, to: int)
    requires Pseudo(b, me, from, to)
    ensures b[from].kind.Rook? ==> SameRank(from, to) || SameFile(from, to)
    ensures SameRank(from, to) || SameFile(from, to) ==>
      b[from].kind.Rook? || b[from].kind.Cannon? || b[from].kind.Pawn? || b[from].kind.King?
  {
  }

  // A cannon that has gained its single screen, or the rook that became that screen.
  lemma CannonFound(b: Board, me: Side, from: int, to: int, k: int, s: int) returns (t: int)
    requires Discovered(b, me, from, to, k, s) && b[s].kind.Cannon? && !b[from].kind.King?
    ensures Finds(Apply(b, from, to), me, b[from].kind, b[to].Man?, from, to, k, t)
  {
    hide Rank, File, Screens, Line, Between, Occ, RookRankAtt, RookFileAtt, CannonRankAtt, CannonFileAtt, In, Reaches;
    var a := Apply(b, from, to);
    SliderCounts(b, me, from, to, k, s);
    LookUps(Occ(a), k, s);
    OneLine(from, s, k);
    OneLine(to, s, k);
    if (SameRank(s, k) && SameRank(from, to)) || (SameFile(s, k) && SameFile(from, to)) {
      if b[to].Empty? || !b[from].kind.Cannon? {
        KeepsOrder(b, me, from, to, k, s);
      }
    }
    StraightMoves(b, me, from, to);
    t := s;
    if In(to, s, k) && b[from].kind.Rook? {
      ScreenIsOnBoard(b, from, to);
      ViewPast(Occ(a), s, k, to);
      t := to;
    }
  }

  lemma ScreenIsOnBoard(b: Board, from: int, to: int)
    requires OnBoard(from) && OnBoard(to) && b[from].Man? && from != to
    ensures to in Occ(Apply(b, from, to))
  {
  }

  lemma KingGeometry(from: int, to: int, k: int, me: Side)
    requires Palace(from, me) && Palace(to, me) && Palace(k, me.Other()) && KingStep(from, to)
    ensures !SameRank(from, k) && !SameRank(to, k)
    ensures SameRank(from, to) <==> !SameFile(from, to)
  {
  }

  // The king uncovers a rook: unless a cannon stands behind, that is overlooked.
  lemma RookUncovered(b: Board, me: Side, from: int, to: int, k: int, s: int) returns (t: int)
    requires Discovered(b, me, from, to, k, s) && IsSlider(b[s].kind) && b[from].kind.King?
    requires In(from, s, k) && |Screens(Occ(b), s, k)| == 1 && !UncoversRook(b, me, from, to, k)
    ensures Finds(Apply(b, from, to), me, King, b[to].Man?, from, to, k, t)
  {
    hide Rank, File, Screens, Line, Between, RookRankAtt, RookFileAtt, CannonRankAtt, CannonFileAtt, In;
    var a := Apply(b, from, to);
    SliderCounts(b, me, from, to, k, s);
    OneLine(from, s, k);
    KingGeometry(from, to, k, me);
    assert IsRook(b, s, me) && SameFile(s, k);
    OnlyScreen(Occ(b), s, k, from);
    assert SameRank(from, to) by {
      if SameFile(from, to) {
        KeepsOrder(b, me, from, to, k, s);
        if b[to].Man? {
          TwoScreens(Occ(b), s, k, from, to);
        }
      }
    }
    t :| IsCannon(b, t, me) && SameFile(t, k) && from in Screens(Occ(b), t, k) && |Screens(Occ(b), t, k)| == 2;
    CannonGains(b, me, from, to, k, t);
  }

  lemma OnlyScreen(occ: set<int>, s: int, k: int, x: int)
    requires x in occ && In(x, s, k) && |Screens(occ, s, k)| == 1 && Aligned(s, k) && OnBoard(s) && OnBoard(k)
    ensures Screens(occ, s, k) == {x}
  {
    assert x in Screens(occ, s, k);
    forall y | y in Screens(occ, s, k)
      ensures y == x
    {
      if y != x {
        TwoScreens(occ, s, k, x, y);
      }
    }
  }

  // A king that steps aside leaves a cannon with two screens only one.
  lemma CannonGains(b: Board, me: Side, from: int, to: int, k: int, t: int)
    requires Attacking(b, me, from, to, k) && b[from].kind.King? && SameRank(from, to)
    requires IsCannon(b, t, me) && SameFile(t, k) && from in Screens(Occ(b), t, k) && |Screens(Occ(b), t, k)| == 2
    ensures Finds(Apply(b, from, to), me, King, b[to].Man?, from, to, k, t)
  {
    hide Rank, File, Line, Between, RookRankAtt, RookFileAtt, CannonRankAtt, CannonFileAtt;
    var a := Apply(b, from, to);
    OneLine(from, t, k);
    OneLine(to, t, k);
    KingGeometry(from, to, k, me);
    ScreensApply(b, from, to, t, k);
    LookUps(Occ(a), k, t);
  }

  // The king discovers cannons sideways and, but for what is overlooked, nothing else.
  lemma KingFound(b: Board, me: Side, from: int, to: int, k: int, s: int) returns (t: int)
    requires Discovered(b, me, from, to, k, s) && IsSlider(b[s].kind) && b[from].kind.King?
    requires !Overlooked(b, me, from, to, k)
    ensures Finds(Apply(b, from, to), me, King, b[to].Man?, from, to, k, t)
  {
    hide Rank, File, Screens, Line, Between, Occ, RookRankAtt, RookFileAtt, CannonRankAtt, CannonFileAtt, In;
    var a := Apply(b, from, to);
    SliderCounts(b, me, from, to, k, s);
    LookUps(Occ(a), k, s);
    OneLine(from, s, k);
    OneLine(to, s, k);
    KingGeometry(from, to, k, me);
    ScreenIsOnBoard(b, from, to);
    t := s;
    if In(from, s, k) && |Screens(Occ(b), s, k)| == 1 {
      t := RookUncovered(b, me, from, to, k, s);
    } else {
      if In(from, s, k) && SameFile(from, to) {
        KeepsOrder(b, me, from, to, k, s);
      }
      if In(to, s, k) {
        OnlyScreen(Occ(a), s, k, to);
      }
    }
  }

  // A new check that is not overlooked is found, on account of some attacker.
  lemma FindsComplete(b: Board, me: Side, from: int, to: int, k: int, s: int) returns (t: int)
    requires Attacking(b, me, from, to, k) && Pseudo(Apply(b, from, to), me, s, k) && !Overlooked(b, me, from, to, k)
    ensures Finds(Apply(b, from, to), me, b[from].kind, b[to].Man?, from, to, k, t)
  {
    hide Rank, File, Screens, Line, Between, Occ, Finds, Reaches;
    t := s;
    if s == to {
      MoverFound(b, me, from, to, k);
    } else if !IsSlider(b[s].kind) {
      KnightFound(b, me, from, to, k, s);
    } else if b[from].kind.King? {
      t := KingFound(b, me, from, to, k, s);
    } else if b[s].kind.Rook? {
      RookFound(b, me, from, to, k, s);
    } else {
      SliderCounts(b, me, from, to, k, s);
      t := CannonFound(b, me, from, to, k, s);
    }
  }

  // ---- looking from scratch ----

  // s is found by the full scan around the king on k.
  predicate Scanned(a: Board, c: Side, k: int, s: int) {
    || RankRook(a, c, k, s) || RankCannon(a, c, k, s) || HorseAttack(a, c, k, s)
    || NearPawn(a, c, k, s) || FileRook(a, c, k, s) || FileCannon(a, c, k, s)
  }

  lemma ScannedExact(a: Board, me: Side, k: int, s: int)
    requires KingPlaced(a, me, k)
    ensures Scanned(a, me.Other(), k, s) <==> Pseudo(a, me.Other(), s, k)
  {
    hide Rank, File, Screens, RookRankAtt, RookFileAtt, CannonRankAtt, CannonFileAtt, Line, Between, Occ;
    if OnBoard(s) && s != k {
      StrikeForms(a, me, s, k);
      LookUps(Occ(a), k, s);
    }
  }

  lemma InCheckIffScanned(a: Board, me: Side, k: int)
    requires KingPlaced(a, me, k)
    ensures InCheck(a, me) <==> exists s :: Scanned(a, me.Other(), k, s)
  {
    hide Pseudo, Scanned;
    forall s ensures Scanned(a, me.Other(), k, s) <==> Pseudo(a, me.Other(), s, k) {
      ScannedExact(a, me, k, s);
    }
  }

  // All that can attack a king in its palace sideways, by knight or by pawn is on its own half.
  lemma HomeAttackers(k: int, c: Side, block: set<int>)
    requires OnBoard(k) && Palace(k, c)
    ensures forall s :: s in RankMask(k) || s in KnightRing(k) || s in PawnAttd(k, c.Other()) ==> HomeHalf(s, c)
    ensures RookRankAtt(k, block) <= RankMask(k) && CannonRankAtt(k, block) <= RankMask(k)
    ensures RookFileAtt(k, block) <= FileMask(k) && CannonFileAtt(k, block) <= FileMask(k)
    ensures KnightAttd(k, block) <= KnightRing(k)
  {
  }

  // ---- each look-up of the engine answers for the whole board ----

  lemma RankCannonsHit(a: Board, me: Side, k: int)
    ensures Hit(RankMask(k), CannonRankAtt(k, Occ(a)), Of(a, me, Cannon)) <==> exists s :: RankCannon(a, me, k, s)
  {
    HitMeans(RankMask(k), CannonRankAtt(k, Occ(a)), Of(a, me, Cannon));
    if s :| s in CannonRankAtt(k, Occ(a)) && s in Of(a, me, Cannon) {
      assert RankCannon(a, me, k, s);
    }
    if s :| RankCannon(a, me, k, s) {
      assert s in CannonRankAtt(k, Occ(a)) && s in Of(a, me, Cannon);
    }
  }

  lemma RankRooksHit(a: Board, me: Side, k: int)
    ensures Hit(RankMask(k), RookRankAtt(k, Occ(a)), Of(a, me, Rook)) <==> exists s :: RankRook(a, me, k, s)
  {
    HitMeans(RankMask(k), RookRankAtt(k, Occ(a)), Of(a, me, Rook));
    if s :| s in RookRankAtt(k, Occ(a)) && s in Of(a, me, Rook) {
      assert RankRook(a, me, k, s);
    }
    if s :| RankRook(a, me, k, s) {
      assert s in RookRankAtt(k, Occ(a)) && s in Of(a, me, Rook);
    }
  }

  lemma FileCannonsHit(a: Board, me: Side, k: int)
    ensures Hit(FileMask(k), CannonFileAtt(k, Occ(a)), Of(a, me, Cannon)) <==> exists s :: FileCannon(a, me, k, s)
  {
    HitMeans(FileMask(k), CannonFileAtt(k, Occ(a)), Of(a, me, Cannon));
    if s :| s in CannonFileAtt(k, Occ(a)) && s in Of(a, me, Cannon) {
      assert FileCannon(a, me, k, s);
    }
    if s :| FileCannon(a, me, k, s) {
      assert s in CannonFileAtt(k, Occ(a)) && s in Of(a, me, Cannon);
    }
  }

  lemma FileRooksHit(a: Board, me: Side, k: int)
    ensures Hit(FileMask(k), RookFileAtt(k, Occ(a)), Of(a, me, Rook)) <==> exists s :: FileRook(a, me, k, s)
  {
    HitMeans(FileMask(k), RookFileAtt(k, Occ(a)), Of(a, me, Rook));
    if s :| s in RookFileAtt(k, Occ(a)) && s in Of(a, me, Rook) {
      assert FileRook(a, me, k, s);
    }
    if s :| FileRook(a, me, k, s) {
      assert s in RookFileAtt(k, Occ(a)) && s in Of(a, me, Rook);
    }
  }

  lemma PawnsHit(a: Board, me: Side, k: int)
    ensures Hit(PawnAttd(k, me), PawnAttd(k, me), Of(a, me, Pawn)) <==> exists s :: NearPawn(a, me, k, s)
  {
    HitMeans(PawnAttd(k, me), PawnAttd(k, me), Of(a, me, Pawn));
    if s :| s in PawnAttd(k, me) && s in Of(a, me, Pawn) {
      assert NearPawn(a, me, k, s);
    }
    if s :| NearPawn(a, me, k, s) {
      assert s in PawnAttd(k, me) && s in Of(a, me, Pawn);
    }
  }

  lemma HorsesHit(a: Board, me: Side, k: int)
    ensures Hit(KnightRing(k), KnightAttd(k, Occ(a)), Of(a, me, Knight)) <==> exists s :: HorseAttack(a, me, k, s)
  {
    RingHoldsAttackers(k, Occ(a));
    HitMeans(KnightRing(k), KnightAttd(k, Occ(a)), Of(a, me, Knight));
    if s :| s in KnightAttd(k, Occ(a)) && s in Of(a, me, Knight) {
      assert HorseAttack(a, me, k, s);
    }
    if s :| HorseAttack(a, me, k, s) {
      assert s in KnightAttd(k, Occ(a)) && s in Of(a, me, Knight);
    }
  }

  // What is overlooked is a check, and no test finds it.
  lemma OverlookedIsCheck(b: Board, me: Side, from: int, to: int, k: int)
    requires Attacking(b, me, from, to, k) && Overlooked(b, me, from, to, k)
    ensures exists s :: Pseudo(Apply(b, from, to), me, s, k)
  {
    hide Rank, File, Screens, Line, Between, Occ;
    var a := Apply(b, from, to);
    StaysPlaced(b, me, from, to, k);
    if UncoversRook(b, me, from, to, k) {
      var s :| IsRook(b, s, me) && SameFile(s, k) && Screens(Occ(b), s, k) == {from};
      OpenPast(Occ(b), s, k, from);
      SideStepCounts(b, me, from, to, k, s);
      assert from in Screens(Occ(b), s, k);
      StrikeForms(a, me.Other(), s, k);
      assert Pseudo(a, me, s, k);
    } else {
      var s :| IsCannon(b, s, me) && SameFile(s, k) && Screens(Occ(a), s, k) == {to};
      StrikeForms(a, me.Other(), s, k);
      assert Pseudo(a, me, s, k);
    }
  }

  lemma StaysPlaced(b: Board, me: Side, from: int, to: int, k: int)
    requires Attacking(b, me, from, to, k)
    ensures KingPlaced(Apply(b, from, to), me.Other(), k)
  {
    MovesKeepKing(b, me, from, to, me.Other(), k);
  }

  // Screens on the file of k when the king steps aside off it.
  lemma SideStepCounts(b: Board, me: Side, from: int, to: int, k: int, s: int)
    requires Attacking(b, me, from, to, k) && b[from].kind.King? && SameRank(from, to) && SameFile(from, k)
    requires OnBoard(s) && s != k && SameFile(s, k)
    ensures var n, m := |Screens(Occ(b), s, k)|, |Screens(Occ(Apply(b, from, to)), s, k)|;
      m == n - (if from in Screens(Occ(b), s, k) then 1 else 0)
  {
    hide Rank, File, Line, Between;
    OneLine(to, s, k);
    KingGeometry(from, to, k, me);
    ScreensApply(b, from, to, s, k);
  }

  lemma OverlookedNotFound(b: Board, me: Side, from: int, to: int, k: int, s: int)
    requires Attacking(b, me, from, to, k) && Overlooked(b, me, from, to, k)
    ensures !Finds(Apply(b, from, to), me, b[from].kind, b[to].Man?, from, to, k, s)
  {
    hide Rank, File, Screens, Line, Between, Occ, RookRankAtt, RookFileAtt, CannonRankAtt, CannonFileAtt;
    var a := Apply(b, from, to);
    KingGeometry(from, to, k, me);
    if SameFile(from, k) && SameRank(from, to) && FileCannon(a, me, k, s) {
      FindsSound(b, me, from, to, k, s);
      LookUps(Occ(a), k, s);
      StaysPlaced(b, me, from, to, k);
      StrikeForms(a, me.Other(), s, k);
      StrikeForms(b, me.Other(), s, k);
      SideStepCounts(b, me, from, to, k, s);
      assert UncoversRook(b, me, from, to, k) by {
        NoScreenAside(b, me, from, to, k);
      }
    }
  }

  lemma NoScreenAside(b: Board, me: Side, from: int, to: int, k: int)
    requires Attacking(b, me, from, to, k) && b[from].kind.King? && SameFile(from, k) && SameRank(from, to)
    ensures !ScreensCannon(b, me, from, to, k)
  {
    KingGeometry(from, to, k, me);
    forall s | SameFile(s, k)
      ensures to !in Screens(Occ(Apply(b, from, to)), s, k)
    {
      OffFile(to, s, k);
    }
  }

  lemma OffFile(x: int, s: int, k: int)
    requires SameFile(s, k) && !SameFile(x, k)
    ensures x !in Line(s, k)
  {
  }

  // The recorded check bit: if the other king was not in check before the move, the tests fire
  // exactly when it is afterwards, but for the checks overlooked.
  lemma CheckBitExact(b: Board, me: Side, from: int, to: int, k: int)
    requires Pseudo(b, me, from, to) && KingPlaced(Apply(b, from, to), me.Other(), k) && Placed(b)
    requires !Has(b, to, me.Other(), King) && !InCheck(b, me.Other())
    ensures Overlooked(b, me, from, to, k) ==> InCheck(Apply(b, from, to), me.Other())
    ensures (exists s :: Finds(Apply(b, from, to), me, b[from].kind, b[to].Man?, from, to, k, s))
      <==> InCheck(Apply(b, from, to), me.Other()) && !Overlooked(b, me, from, to, k)
  {
    hide Finds, Facing, Screens, Occ, Reaches, UncoversRook, ScreensCannon, Overlooked;
    var a := Apply(b, from, to);
    WasPlaced(b, me, from, to, k);
    assert me.Other().Other() == me;
    assert Attacking(b, me, from, to, k);
    if s :| Finds(a, me, b[from].kind, b[to].Man?, from, to, k, s) {
      FindsSound(b, me, from, to, k, s);
      if Overlooked(b, me, from, to, k) {
        OverlookedNotFound(b, me, from, to, k, s);
      }
    }
    if Overlooked(b, me, from, to, k) {
      OverlookedIsCheck(b, me, from, to, k);
    } else if InCheck(a, me.Other()) {
      var s, j :| Has(a, j, me.Other(), King) && Pseudo(a, me, s, j);
      var t := FindsComplete(b, me, from, to, k, s);
    }
  }

  // Nothing is overlooked between kings that face neither before nor after.
  lemma NothingOverlooked(b: Board, me: Side, from: int, to: int, k: int)
    requires Attacking(b, me, from, to, k) && !Facing(b) && !Facing(Apply(b, from, to))
    ensures !Overlooked(b, me, from, to, k)
  {
    hide Rank, File, Line, Between, Occ, Facing;
    var a := Apply(b, from, to);
    StaysPlaced(b, me, from, to, k);
    if Has(b, from, me, King) && UncoversRook(b, me, from, to, k) {
      var s :| IsRook(b, s, me) && SameFile(s, k) && Screens(Occ(b), s, k) == {from};
      OpenPast(Occ(b), s, k, from);
      Face(b, me, from, k);
    } else if Has(b, from, me, King) && ScreensCannon(b, me, from, to, k) {
      var s :| IsCannon(b, s, me) && SameFile(s, k) && Screens(Occ(a), s, k) == {to};
      OpenPast(Occ(a), s, k, to);
      Face(a, me, to, k);
    }
  }

  lemma OpenPast(occ: set<int>, s: int, k: int, x: int)
    requires Screens(occ, s, k) == {x} && SameFile(s, k)
    ensures SameFile(x, k) && Screens(occ, x, k) == {}
  {
    assert x in Screens(occ, s, k);
    LineWithin(s, k, x);
    assert Screens(occ, x, k) <= Screens(occ, s, k) - {x};
  }

  lemma LineWithin(s: int, k: int, x: int)
    requires x in Line(s, k) && SameFile(s, k)
    ensures SameFile(x, k) && Line(x, k) <= Line(s, k) - {x}
  {
  }

  lemma Face(b: Board, me: Side, x: int, k: int)
    requires Has(b, x, me, King) && Has(b, k, me.Other(), King) && SameFile(x, k) && Screens(Occ(b), x, k) == {}
    ensures Facing(b)
  {
    ScreensSymmetric(Occ(b), x, k);
  }

  ghost predicate Overlooks(b: Board, me: Side, from: int, to: int)
    requires OnBoard(from) && OnBoard(to)
  {
    exists k :: KingPlaced(b, me.Other(), k) && Overlooked(b, me, from, to, k)
  }

  lemma OverlooksAt(b: Board, me: Side, from: int, to: int, k: int)
    requires Pseudo(b, me, from, to) && KingPlaced(Apply(b, from, to), me.Other(), k) && Placed(b)
    requires !Has(b, to, me.Other(), King) && !InCheck(b, me.Other())
    ensures Overlooks(b, me, from, to) <==> Overlooked(b, me, from, to, k)
    ensures !Facing(b) && !Facing(Apply(b, from, to)) ==> !Overlooks(b, me, from, to)
  {
    hide Facing, Screens, Occ, Reaches, Overlooked;
    WasPlaced(b, me, from, to, k);
    assert me.Other().Other() == me;
    assert Attacking(b, me, from, to, k);
    if !Facing(b) && !Facing(Apply(b, from, to)) {
      NothingOverlooked(b, me, from, to, k);
    }
  }

  lemma SafeOverlooksNone(b: Board, me: Side, from: int, to: int)
    requires Pseudo(b, me, from, to) && Placed(b) && Safe(b, me.Other()) && !Facing(Apply(b, from, to))
    requires !Has(b, to, me.Other(), King)
    ensures !Overlooks(b, me, from, to)
  {
    hide Facing, Screens, Occ, Reaches, Overlooked, Overlooks, InCheck;
    var k :| KingPlaced(b, me.Other(), k);
    MovesKeepKing(b, me, from, to, me.Other(), k);
    OverlooksAt(b, me, from, to, k);
  }

  // White: king e1, rook e0. Black: king e9. The king steps aside to d1.
  function RookBehindKing(): Board {
    seq(90, s => if s == 13 then Man(White, King) else if s == 4 then Man(White, Rook)
                 else if s == 85 then Man(Black, King) else Empty)
  }

  lemma OverlooksARook()
    ensures var b := RookBehindKing();
      && Placed(b) && Pseudo(b, White, 13, 14) && !InCheck(b, Black) && !Facing(Apply(b, 13, 14))
      && Overlooked(b, White, 13, 14, 85) && InCheck(Apply(b, 13, 14), Black)
      && !exists s :: Finds(Apply(b, 13, 14), White, King, false, 13, 14, 85, s)
  {
    RookBehindKingIs();
    var b := RookBehindKing();
    assert UncoversRook(b, White, 13, 14, 85) by {
      assert IsRook(b, 4, White) && SameFile(4, 85);
    }
    hide RookBehindKing, Apply, Pseudo, Finds, UncoversRook, Screens;
    CheckBitExact(b, White, 13, 14, 85);
  }

  lemma RookBehindKingIs()
    ensures var b := RookBehindKing();
      && KingPlaced(b, White, 13) && KingPlaced(b, Black, 85) && Placed(b) && KingPlaced(Apply(b, 13, 14), Black, 85)
      && Pseudo(b, White, 13, 14) && (forall s :: !Pseudo(b, White, s, 85)) && !Facing(Apply(b, 13, 14))
      && Screens(Occ(b), 4, 85) == {13}
  {
    var b := RookBehindKing();
    assert KingPlaced(b, White, 13) && KingPlaced(b, Black, 85);
    assert Screens(Occ(b), 4, 85) == {13};
    assert !Pseudo(b, White, 4, 85) && !Pseudo(b, White, 13, 85);
  }

  lemma WasPlaced(b: Board, me: Side, from: int, to: int, k: int)
    requires Pseudo(b, me, from, to) && KingPlaced(Apply(b, from, to), me.Other(), k) && Placed(b)
    requires !Has(b, to, me.Other(), King)
    ensures KingPlaced(b, me.Other(), k) && to != k
  {
    var j :| KingPlaced(b, me.Other(), j);
    assert Has(Apply(b, from, to), j, me.Other(), King);
  }
}
