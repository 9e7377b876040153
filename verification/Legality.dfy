// The engine's legality filter, seen attacker by attacker, equals making the
// move and looking.
module Legality {
  import opened Geometry
  import opened Rules
  import opened Attacks

  // Does a move f1-t1 open, or step into, the line from f2 to t2?
  predicate LineTouch(f1: int, t1: int, f2: int, t2: int, f1On: bool, t1On: bool, parallel: bool, isCap: bool) {
    if !parallel then (f1On && Mid(f1, f2, t2)) || (t1On && Mid(t1, f2, t2))
    else f1On && Mid(f1, f2, t2) && (!Mid(t1, f2, t2) || isCap)
  }

  predicate MoveConnect(f1: int, t1: int, f2: int, t2: int, isCap: bool) {
    || (SameFile(f2, t2) && LineTouch(f1, t1, f2, t2, SameFile(f2, f1), SameFile(f2, t1), SameFile(f1, t1), isCap))
    || (SameRank(f2, t2) && LineTouch(f1, t1, f2, t2, SameRank(f2, f1), SameRank(f2, t1), SameRank(f1, t1), isCap))
    || (KnightStep(f2, t2) && Leg(f2, t2) == f1)
    || (AnyBishopPoint(f2) && AnyBishopPoint(t2) && DiagonalStep(f2, t2, 2) && (f2 + t2) / 2 == f1)
  }

  // ---- the tests of the engine on one attacker s, king on k ----

  predicate IsSlider(kind: Kind) { kind.Rook? || kind.Cannon? || kind.King? }

  predicate IsRook(b: Board, s: int, c: Side) { Has(b, s, c, Rook) }

  predicate IsCannon(b: Board, s: int, c: Side) { Has(b, s, c, Cannon) }

  predicate IsRookOrKing(b: Board, s: int, c: Side) { IsRook(b, s, c) || Has(b, s, c, King) }

  // A piece leaves or moves along the king's rank.
  predicate RankRefutes(b: Board, me: Side, from: int, to: int, k: int, s: int)
    requires OnBoard(from) && OnBoard(to)
  {
    var gone := Flip(Occ(b), from);
    if SameRank(from, to) then
      || (IsCannon(b, s, me.Other()) && s != to && s in CannonRankAtt(k, gone) && MoveConnect(from, to, s, k, true))
      || (IsCannon(b, from, me) && IsRook(b, s, me.Other()) && s in RookRankAtt(k, gone) &&
        MoveConnect(from, to, s, k, true))
    else
      || (IsRook(b, s, me.Other()) && s in RookRankAtt(k, gone) && MoveConnect(from, to, s, k, false))
      || (IsCannon(b, s, me.Other()) && s in CannonRankAtt(k, gone) && MoveConnect(from, to, s, k, false))
  }

  // The same for the king's file, where the other king counts as a rook.
  predicate FileRefutes(b: Board, me: Side, from: int, to: int, k: int, s: int)
    requires OnBoard(from) && OnBoard(to)
  {
    var gone := Flip(Occ(b), from);
    if SameFile(from, to) then
      || (IsCannon(b, s, me.Other()) && s != to && s in CannonFileAtt(k, gone) && MoveConnect(from, to, s, k, true))
      || (IsCannon(b, from, me) && IsRookOrKing(b, s, me.Other()) && s in RookFileAtt(k, gone) &&
        MoveConnect(from, to, s, k, true))
    else
      || (IsRookOrKing(b, s, me.Other()) && s in RookFileAtt(k, gone) && MoveConnect(from, to, s, k, false))
      || (IsCannon(b, s, me.Other()) && s in CannonFileAtt(k, gone) && MoveConnect(from, to, s, k, false))
  }

  // A piece leaves a knight's leg.
  predicate LegRefutes(b: Board, me: Side, from: int, to: int, k: int, s: int) {
    Has(b, s, me.Other(), Knight) && KnightStep(s, k) && Leg(s, k) == from && to != s
  }

  // A piece steps in as the screen of a cannon.
  predicate ScreenRefutes(b: Board, me: Side, from: int, to: int, k: int, s: int)
    requires OnBoard(from) && OnBoard(to)
  {
    var joined := Flip(Occ(b), to);
    && IsCannon(b, s, me.Other())
    && MoveConnect(from, to, s, k, false)
    && (if SameRank(to, k) then s in CannonRankAtt(k, joined) else SameFile(to, k) && s in CannonFileAtt(k, joined))
  }

  // A quiet move along the king's own rank or file is always accepted.
  predicate Slides(b: Board, from: int, to: int, k: int)
    requires OnBoard(to)
  {
    && b[to].Empty?
    && if SameRank(from, k) then SameRank(from, to) else SameFile(from, k) && SameFile(from, to)
  }

  predicate Refutes(b: Board, me: Side, from: int, to: int, k: int, s: int)
    requires OnBoard(from) && OnBoard(to)
  {
    && !Slides(b, from, to, k)
    && ( || (if SameRank(from, k) then RankRefutes(b, me, from, to, k, s)
             else if SameFile(from, k) then FileRefutes(b, me, from, to, k, s)
             else LegRefutes(b, me, from, to, k, s))
         || (b[to].Empty? && ScreenRefutes(b, me, from, to, k, s)))
  }

  // An attacker of a king on `to` by rank, by file or from nearby.
  predicate OnRankBy(b: Board, me: Side, to: int, block: set<int>, s: int) {
    || (IsRook(b, s, me.Other()) && s in RookRankAtt(to, Occ(b)))
    || (IsCannon(b, s, me.Other()) && s in CannonRankAtt(to, block))
  }

  predicate OnFileBy(b: Board, me: Side, to: int, block: set<int>, s: int) {
    || (IsRookOrKing(b, s, me.Other()) && s in RookFileAtt(to, Occ(b)))
    || (IsCannon(b, s, me.Other()) && s in CannonFileAtt(to, block))
  }

  predicate NearBy(b: Board, me: Side, to: int, s: int) {
    || (Has(b, s, me.Other(), Knight) && s in KnightAttd(to, Occ(b)))
    || (Has(b, s, me.Other(), Pawn) && s in PawnAttd(to, me.Other()))
  }

  // The same tests for a king that steps from `from` to `to` out of no check.
  predicate KingRefutes(b: Board, me: Side, from: int, to: int, s: int)
    requires OnBoard(from) && OnBoard(to)
  {
    var gone := Flip(Occ(b), from);
    || NearBy(b, me, to, s)
    || (if SameFile(from, to) then
          OnRankBy(b, me, to, Occ(b), s) || (b[to].Man? && OnFileBy(b, me, to, gone, s))
        else
          OnFileBy(b, me, to, Occ(b), s) || (b[to].Man? && OnRankBy(b, me, to, gone, s)))
  }

  // ---- what the rules say of one attacker ----

  // Only rooks, cannons, knights, pawns and the facing king ever hit a king in its palace.
  lemma StrikeForms(b: Board, me: Side, s: int, k: int)
    requires OnBoard(k) && Palace(k, me) && Own(b, k, me)
    ensures Strikes(b, me.Other(), s, k) <==>
      (|| (IsRook(b, s, me.Other()) && Aligned(s, k) && Screens(Occ(b), s, k) == {})
       || (IsCannon(b, s, me.Other()) && Aligned(s, k) && |Screens(Occ(b), s, k)| == 1)
       || (Has(b, s, me.Other(), Knight) && KnightStep(s, k) && Leg(s, k) !in Occ(b))
       || (Has(b, s, me.Other(), Pawn) && PawnStep(s, k, me.Other()))
       || (Has(b, s, me.Other(), King) && SameFile(s, k) && Screens(Occ(b), s, k) == {}))
  {
    hide Screens, Occ;
  }

  lemma SafeIffNoStrike(b: Board, me: Side, k: int)
    requires KingPlaced(b, me, k)
    ensures Safe(b, me) <==> !exists s :: Strikes(b, me.Other(), s, k)
  {
    var c := me.Other();
    if InCheck(b, me) {
      var s, j :| Has(b, j, me, King) && Pseudo(b, c, s, j);
      assert Strikes(b, c, s, k);
    }
    if Facing(b) {
      var w, j :| Has(b, w, White, King) && Has(b, j, Black, King) && SameFile(w, j) && Screens(Occ(b), w, j) == {};
      LineSymmetric(w, j);
      assert Strikes(b, c, if me.White? then j else w, k);
    }
    if s :| Strikes(b, c, s, k) {
      LineSymmetric(s, k);
      assert Pseudo(b, c, s, k) ==> InCheck(b, me);
    }
  }

  // ---- non-king moves ----

  ghost predicate QuietBefore(b: Board, me: Side, from: int, to: int, k: int, s: int) {
    && KingPlaced(b, me, k)
    && Pseudo(b, me, from, to) && !b[from].kind.King?
    && Own(b, s, me.Other()) && s != to
    && !Strikes(b, me.Other(), s, k)
  }

  // Whether from and to lie between the attacker and the king.
  predicate In(x: int, s: int, k: int) { x in Line(s, k) }

  // Moving along a rank or file without jumping keeps the order of the pieces on it.
  lemma KeepsOrder(b: Board, me: Side, from: int, to: int, k: int, s: int)
    requires Pseudo(b, me, from, to) && Aligned(s, k)
    requires s in Occ(b) && k in Occ(b) && s != from && s != to && k != from && k != to
    requires b[to].Empty? || !b[from].kind.Cannon?
    requires (SameRank(s, k) && SameRank(from, to)) || (SameFile(s, k) && SameFile(from, to))
    ensures In(from, s, k) <==> In(to, s, k)
  {
    NoneBetween(b, me, from, to, s);
    NoneBetween(b, me, from, to, k);
    hide Reaches, Line, Occ;
    OrderKept(from, to, k, s);
  }

  // A quiet slider, a rook or a short step passes over no piece.
  lemma NoneBetween(b: Board, me: Side, from: int, to: int, x: int)
    requires Pseudo(b, me, from, to) && x in Occ(b) && (SameRank(from, to) || SameFile(from, to))
    requires b[to].Empty? || !b[from].kind.Cannon?
    ensures !Between(x, from, to)
  {
    if b[from].kind.Rook? || b[from].kind.Cannon? {
      assert x !in Screens(Occ(b), from, to);
    }
  }

  lemma OrderKept(from: int, to: int, k: int, s: int)
    requires OnBoard(from) && OnBoard(to) && OnBoard(s) && OnBoard(k)
    requires Aligned(s, k) && !Between(s, from, to) && !Between(k, from, to)
    requires s != from && s != to && k != from && k != to
    requires (SameRank(s, k) && SameRank(from, to)) || (SameFile(s, k) && SameFile(from, to))
    ensures In(from, s, k) <==> In(to, s, k)
  {
    hide Rank, File;
    assert In(from, s, k) <==> Between(from, s, k);
    assert In(to, s, k) <==> Between(to, s, k);
    if SameRank(s, k) && SameFile(s, k) { Crossing(s, k); }
    if SameRank(from, to) && SameFile(from, to) { Crossing(from, to); }
  }

  // Two lines of k meet in k only.
  lemma Crossing(a: int, b: int)
    requires SameRank(a, b) && SameFile(a, b)
    ensures a == b
  {
  }

  lemma TwoScreens(occ: set<int>, s: int, k: int, x: int, y: int)
    requires x != y && x in occ && y in occ && In(x, s, k) && In(y, s, k)
    ensures |Screens(occ, s, k)| >= 2
  {
    assert {x, y} <= Screens(occ, s, k);
    assert |Screens(occ, s, k) - {x, y}| == |Screens(occ, s, k)| - |{x, y}|;
  }

  // On the attacker's own line, move_connect is membership between attacker and king.
  lemma Connect(from: int, to: int, s: int, k: int, isCap: bool)
    requires OnBoard(from) && OnBoard(to) && OnBoard(s) && OnBoard(k) && Aligned(s, k)
    ensures MoveConnect(from, to, s, k, isCap) <==>
      if (SameRank(s, k) && SameRank(from, to)) || (SameFile(s, k) && SameFile(from, to)) then In(from, s, k) &&
        (!In(to, s, k) || isCap)
      else In(from, s, k) || In(to, s, k)
  {
  }

  // A square between s and k is on their common line and on no other line of k.
  lemma OneLine(x: int, s: int, k: int)
    requires OnBoard(x) && OnBoard(s) && OnBoard(k) && Aligned(s, k)
    ensures SameRank(s, k) <==> !SameFile(s, k)
    ensures SameRank(x, k) && SameFile(x, k) ==> x == k
    ensures In(x, s, k) ==> (SameRank(x, k) <==> SameRank(s, k)) && (SameFile(x, k) <==> SameFile(s, k))
  {
  }

  // The four look-ups of the filter, by counting blockers.
  lemma LookUps(block: set<int>, k: int, s: int)
    requires OnBoard(s) && s != k
    ensures var n := |Screens(block, s, k)|;
      && (s in RookRankAtt(k, block) <==> SameRank(s, k) && n == 0)
      && (s in RookFileAtt(k, block) <==> SameFile(s, k) && n == 0)
      && (s in CannonRankAtt(k, block) <==> SameRank(s, k) && n == 1)
      && (s in CannonFileAtt(k, block) <==> SameFile(s, k) && n == 1)
  {
    LineSymmetric(s, k);
  }

  lemma FlippedLookUps(occ: set<int>, k: int, s: int, x: int)
    requires OnBoard(s) && OnBoard(k) && s != k
    ensures var n := |Screens(occ, s, k)| + (if !In(x, s, k) then 0 else if x in occ then -1 else 1);
      && (s in RookRankAtt(k, Flip(occ, x)) <==> SameRank(s, k) && n == 0)
      && (s in RookFileAtt(k, Flip(occ, x)) <==> SameFile(s, k) && n == 0)
      && (s in CannonRankAtt(k, Flip(occ, x)) <==> SameRank(s, k) && n == 1)
      && (s in CannonFileAtt(k, Flip(occ, x)) <==> SameFile(s, k) && n == 1)
  {
    hide Screens, RookRankAtt, RookFileAtt, CannonRankAtt, CannonFileAtt, SameRank, SameFile;
    ScreensFlip(occ, s, k, x);
    LookUps(Flip(occ, x), k, s);
  }

  // Everything about one slider, in terms of the blocker count and the two memberships.
  lemma SliderFacts(b: Board, me: Side, from: int, to: int, k: int, s: int)
    requires QuietBefore(b, me, from, to, k, s)
    requires IsSlider(b[s].kind)
    ensures OnBoard(s) && OnBoard(k) && s in Occ(b) && k in Occ(b) && from in Occ(b) && (to in Occ(b) <==> b[to].Man?)
    ensures s != k && s != from && k != from && k != to
    ensures var n := |Screens(Occ(b), s, k)|;
      && (Aligned(s, k) && b[s].kind.Rook? ==> n != 0)
      && (Aligned(s, k) && b[s].kind.Cannon? ==> n != 1)
      && (SameFile(s, k) && b[s].kind.King? ==> n != 0)
  {
    hide Rank, File, Screens;
    StrikeForms(b, me, s, k);
  }

  lemma SliderThen(b: Board, me: Side, from: int, to: int, k: int, s: int)
    requires QuietBefore(b, me, from, to, k, s)
    requires IsSlider(b[s].kind)
    ensures var n := |Screens(Occ(b), s, k)|;
      var m := n - (if In(from, s, k) then 1 else 0) + (if In(to, s, k) && b[to].Empty? then 1 else 0);
      Strikes(Apply(b, from, to), me.Other(), s, k) <==>
           if b[s].kind.Rook? then Aligned(s, k) && m == 0
           else if b[s].kind.Cannon? then Aligned(s, k) && m == 1
           else SameFile(s, k) && m == 0
  {
    hide Rank, File, Screens, Line, Between, Occ, Strikes, Reaches;
    StrikeForms(Apply(b, from, to), me, s, k);
    ScreensApply(b, from, to, s, k);
  }

  lemma SliderOnRank(b: Board, me: Side, from: int, to: int, k: int, s: int)
    requires QuietBefore(b, me, from, to, k, s)
    requires IsSlider(b[s].kind) && SameRank(from, k)
    ensures Refutes(b, me, from, to, k, s) <==> Strikes(Apply(b, from, to), me.Other(), s, k)
  {
    hide Rank, File, Screens, Line, Between, Occ, RookRankAtt, RookFileAtt, CannonRankAtt, CannonFileAtt, MoveConnect;
    hide Strikes, Apply, Reaches, Flip, In;
    SliderFacts(b, me, from, to, k, s);
    SliderThen(b, me, from, to, k, s);
    FlippedLookUps(Occ(b), k, s, from);
    FlippedLookUps(Occ(b), k, s, to);
    if Aligned(s, k) {
      OneLine(from, s, k);
      OneLine(to, s, k);
      Connect(from, to, s, k, true);
      Connect(from, to, s, k, false);
      if SameRank(s, k) && SameRank(from, to) && (b[to].Empty? || !b[from].kind.Cannon?) {
        KeepsOrder(b, me, from, to, k, s);
        if In(from, s, k) && b[to].Man? {
          TwoScreens(Occ(b), s, k, from, to);
        }
      }
    }
  }

  lemma SliderOnFile(b: Board, me: Side, from: int, to: int, k: int, s: int)
    requires QuietBefore(b, me, from, to, k, s)
    requires IsSlider(b[s].kind) && !SameRank(from, k) && SameFile(from, k)
    ensures Refutes(b, me, from, to, k, s) <==> Strikes(Apply(b, from, to), me.Other(), s, k)
  {
    hide Rank, File, Screens, Line, Between, Occ, RookRankAtt, RookFileAtt, CannonRankAtt, CannonFileAtt, MoveConnect;
    hide Strikes, Apply, Reaches, Flip, In;
    SliderFacts(b, me, from, to, k, s);
    SliderThen(b, me, from, to, k, s);
    FlippedLookUps(Occ(b), k, s, from);
    FlippedLookUps(Occ(b), k, s, to);
    if Aligned(s, k) {
      OneLine(from, s, k);
      OneLine(to, s, k);
      Connect(from, to, s, k, true);
      Connect(from, to, s, k, false);
      if SameFile(s, k) && SameFile(from, to) && (b[to].Empty? || !b[from].kind.Cannon?) {
        KeepsOrder(b, me, from, to, k, s);
        if In(from, s, k) && b[to].Man? {
          TwoScreens(Occ(b), s, k, from, to);
        }
      }
    }
  }

  lemma SliderElsewhere(b: Board, me: Side, from: int, to: int, k: int, s: int)
    requires QuietBefore(b, me, from, to, k, s)
    requires IsSlider(b[s].kind) && !SameRank(from, k) && !SameFile(from, k)
    ensures Refutes(b, me, from, to, k, s) <==> Strikes(Apply(b, from, to), me.Other(), s, k)
  {
    hide Rank, File, Screens, Line, Between, Occ, RookRankAtt, RookFileAtt, CannonRankAtt, CannonFileAtt, MoveConnect;
    hide Strikes, Apply, Reaches, Flip, In;
    SliderFacts(b, me, from, to, k, s);
    SliderThen(b, me, from, to, k, s);
    FlippedLookUps(Occ(b), k, s, to);
    if Aligned(s, k) {
      OneLine(from, s, k);
      OneLine(to, s, k);
      Connect(from, to, s, k, false);
    }
  }

  // A knight's leg lies diagonally next to the square the knight attacks.
  lemma LegAside(s: int, k: int)
    requires OnBoard(s) && OnBoard(k) && KnightStep(s, k)
    ensures !SameRank(Leg(s, k), k) && !SameFile(Leg(s, k), k)
  {
  }

  // Only the leg test asks about a knight, and none about pawns, advisors and bishops.
  lemma NonSliderTests(b: Board, me: Side, from: int, to: int, k: int, s: int)
    requires OnBoard(from) && OnBoard(to) && OnBoard(k) && Own(b, s, me.Other()) && !IsSlider(b[s].kind)
    ensures Refutes(b, me, from, to, k, s) <==> b[s].kind.Knight? && KnightStep(s, k) && Leg(s, k) == from && to != s
  {
    if b[s].kind.Knight? && KnightStep(s, k) {
      LegAside(s, k);
    }
    hide KnightStep, Leg, SameRank, SameFile, MoveConnect, RookRankAtt, RookFileAtt, CannonRankAtt, CannonFileAtt;
    hide Flip, Occ;
  }

  lemma NonSlider(b: Board, me: Side, from: int, to: int, k: int, s: int)
    requires QuietBefore(b, me, from, to, k, s) && !IsSlider(b[s].kind)
    ensures Refutes(b, me, from, to, k, s) <==> Strikes(Apply(b, from, to), me.Other(), s, k)
  {
    hide Strikes, Screens, KnightStep, PawnStep, Leg, Refutes, Aligned, SameFile, Reaches;
    assert OnBoard(from) && OnBoard(to) && from != to && s != from;
    KingUnmoved(b, me, from, to, k);
    NonSliderTests(b, me, from, to, k, s);
    StrikeForms(b, me, s, k);
    StrikeForms(Apply(b, from, to), me, s, k);
    OccApply(b, from, to);
    hide Occ;
  }

  lemma KingUnmoved(b: Board, me: Side, from: int, to: int, k: int)
    requires KingPlaced(b, me, k) && Pseudo(b, me, from, to) && !b[from].kind.King?
    ensures OnBoard(k) && Palace(k, me) && Own(b, k, me) && Own(Apply(b, from, to), k, me)
  {
    hide Reaches, Palace;
  }

  // A captured piece neither attacks afterwards nor is asked about.
  lemma CapturedIsGone(b: Board, me: Side, from: int, to: int, k: int)
    requires KingPlaced(b, me, k) && Pseudo(b, me, from, to) && !b[from].kind.King? && Own(b, to, me.Other())
    ensures !Refutes(b, me, from, to, k, to)
  {
    hide Rank, File, Screens, Line, Between, RookRankAtt, RookFileAtt, CannonRankAtt, CannonFileAtt, MoveConnect;
    hide Flip, In;
    FlippedLookUps(Occ(b), k, to, from);
    if Aligned(to, k) {
      OneLine(from, to, k);
      Connect(from, to, to, k, true);
      Connect(from, to, to, k, false);
      if In(from, to, k) && IsCannon(b, from, me) {
        CannonLeavesScreen(b, from, to, k);
      }
    }
  }

  // A cannon that captures leaves its screen between the captured piece and a king behind it.
  lemma CannonLeavesScreen(b: Board, from: int, to: int, k: int)
    requires OnBoard(from) && OnBoard(to) && OnBoard(k) && Aligned(from, to) && Aligned(to, k)
    requires b[from].Man? && |Screens(Occ(b), from, to)| == 1 && In(from, to, k)
    ensures |Screens(Occ(b), to, k)| >= 2
  {
    var x :| x in Screens(Occ(b), from, to);
    TwoScreens(Occ(b), to, k, from, x);
  }

  // Not in check: the tests refute the move on account of s iff s attacks after it.
  lemma RefutesExact(b: Board, me: Side, from: int, to: int, k: int, s: int)
    requires KingPlaced(b, me, k) && Pseudo(b, me, from, to) && !b[from].kind.King?
    requires !Strikes(b, me.Other(), s, k)
    ensures Refutes(b, me, from, to, k, s) <==> Strikes(Apply(b, from, to), me.Other(), s, k)
  {
    hide Rank, File, Screens, RookRankAtt, RookFileAtt, CannonRankAtt, CannonFileAtt, MoveConnect, Flip, Reaches;
    if s == to {
      if Own(b, to, me.Other()) {
        CapturedIsGone(b, me, from, to, k);
      }
    } else if Own(b, s, me.Other()) {
      if !IsSlider(b[s].kind) {
        NonSlider(b, me, from, to, k, s);
      } else if SameRank(from, k) {
        SliderOnRank(b, me, from, to, k, s);
      } else if SameFile(from, k) {
        SliderOnFile(b, me, from, to, k, s);
      } else {
        SliderElsewhere(b, me, from, to, k, s);
      }
    }
  }

  // ---- king moves ----

  ghost predicate KingStepsOut(b: Board, me: Side, from: int, to: int, s: int) {
    && KingPlaced(b, me, from) && Pseudo(b, me, from, to) && b[from].kind.King?
    && Own(b, s, me.Other()) && s != to
    && !Strikes(b, me.Other(), s, from)
  }

  predicate SameLine(a: int, b: int, c: int) {
    (SameRank(a, b) && SameRank(a, c)) || (SameFile(a, b) && SameFile(a, c))
  }

  // One step along the attacker's line lengthens or shortens the way by that step.
  lemma StepAlong(from: int, to: int, s: int)
    requires OnBoard(from) && OnBoard(to) && OnBoard(s) && s != from && s != to
    requires KingStep(from, to) && SameLine(from, to, s)
    ensures if In(from, s, to) then Line(s, to) == Line(s, from) + {from} && from !in Line(s, from) &&
      to !in Line(s, from)
            else Line(s, from) == Line(s, to) + {to} && to !in Line(s, to) && from !in Line(s, to)
  {
    forall x | OnBoard(x)
      ensures if Between(from, s, to) then Between(x, s, to) <==> Between(x, s, from) || x == from
              else Between(x, s, from) <==> Between(x, s, to) || x == to
    {
      StepAlongAt(from, to, s, x);
    }
    hide Rank, File, Between;
  }

  lemma StepAlongAt(from: int, to: int, s: int, x: int)
    requires OnBoard(from) && OnBoard(to) && OnBoard(s) && OnBoard(x) && s != from && s != to
    requires KingStep(from, to) && SameLine(from, to, s)
    ensures if Between(from, s, to) then Between(x, s, to) <==> Between(x, s, from) || x == from
            else Between(x, s, from) <==> Between(x, s, to) || x == to
  {
  }

  lemma StepAcross(from: int, to: int, s: int)
    requires OnBoard(from) && OnBoard(to) && OnBoard(s) && s != to
    requires KingStep(from, to) && Aligned(s, to) && !SameLine(from, to, s)
    ensures from !in Line(s, to) && to !in Line(s, to)
  {
  }

  // Blockers seen from the king's new square, by the new board and by the look-ups on the old one.
  lemma KingCounts(b: Board, me: Side, from: int, to: int, s: int)
    requires KingStepsOut(b, me, from, to, s) && Aligned(s, to)
    ensures var occ := Occ(b);
      var after := |Screens(Occ(Apply(b, from, to)), s, to)|;
      && |Screens(Flip(occ, from), s, to)| == after
      && (if !SameLine(from, to, s) then |Screens(occ, s, to)| == after
          else if In(from, s, to) then after == |Screens(occ, s, from)| && |Screens(occ, s, to)| == after + 1
          else after == |Screens(occ, s, from)| - (if b[to].Man? then 1 else 0) && |Screens(occ, s, to)| == after)
  {
    var occ := Occ(b);
    ScreensApply(b, from, to, s, to);
    ScreensFlip(occ, s, to, from);
    assert to !in Line(s, to);
    if !SameLine(from, to, s) {
      StepAcross(from, to, s);
    } else {
      StepAlong(from, to, s);
      if In(from, s, to) {
        assert Screens(occ, s, to) == Screens(occ, s, from) + {from};
      } else if b[to].Man? {
        assert Screens(occ, s, from) == Screens(occ, s, to) + {to};
      } else {
        assert Screens(occ, s, from) == Screens(occ, s, to);
      }
    }
  }

  lemma KingNonSlider(b: Board, me: Side, from: int, to: int, s: int)
    requires KingStepsOut(b, me, from, to, s) && !IsSlider(b[s].kind)
    ensures KingRefutes(b, me, from, to, s) <==> Strikes(Apply(b, from, to), me.Other(), s, to)
  {
    hide Screens, Occ, Line, RookRankAtt, RookFileAtt, CannonRankAtt, CannonFileAtt, MoveConnect, Strikes;
    StrikeForms(Apply(b, from, to), me, s, to);
    OccApply(b, from, to);
  }

  lemma KingSlider(b: Board, me: Side, from: int, to: int, s: int)
    requires KingStepsOut(b, me, from, to, s) && IsSlider(b[s].kind)
    ensures KingRefutes(b, me, from, to, s) <==> Strikes(Apply(b, from, to), me.Other(), s, to)
  {
    hide Screens, Line, Between, RookRankAtt, RookFileAtt, CannonRankAtt, CannonFileAtt, MoveConnect, Flip, Strikes;
    hide Occ;
    StrikeForms(b, me, s, from);
    StrikeForms(Apply(b, from, to), me, s, to);
    LookUps(Occ(b), to, s);
    LookUps(Flip(Occ(b), from), to, s);
    if Aligned(s, to) {
      KingCounts(b, me, from, to, s);
    }
  }

  // Out of no check, the tests on a king move refute it on account of s iff s attacks its new square.
  lemma KingRefutesExact(b: Board, me: Side, from: int, to: int, s: int)
    requires KingPlaced(b, me, from) && Pseudo(b, me, from, to)
    requires !Strikes(b, me.Other(), s, from)
    ensures KingRefutes(b, me, from, to, s) <==> Strikes(Apply(b, from, to), me.Other(), s, to)
  {
    hide Rank, File, Screens, Reaches;
    if s != to && Own(b, s, me.Other()) {
      if IsSlider(b[s].kind) {
        KingSlider(b, me, from, to, s);
      } else {
        KingNonSlider(b, me, from, to, s);
      }
    }
  }

  // ---- the whole move ----

  // Refuted on account of some attacker iff unsafe afterwards; `k` is the king's square before the move.
  lemma RefutedIffUnsafe(b: Board, me: Side, from: int, to: int, k: int)
    requires KingPlaced(b, me, k) && Pseudo(b, me, from, to) && !b[from].kind.King? && Safe(b, me)
    ensures (exists s :: Refutes(b, me, from, to, k, s)) <==> !Safe(Apply(b, from, to), me)
  {
    hide Refutes, Strikes, Safe, Screens, Occ, Reaches;
    var a := Apply(b, from, to);
    SafeIffNoStrike(b, me, k);
    MovesKeepKing(b, me, from, to, me, k);
    SafeIffNoStrike(a, me, k);
    forall s ensures Refutes(b, me, from, to, k, s) <==> Strikes(a, me.Other(), s, k) {
      RefutesExact(b, me, from, to, k, s);
    }
  }

  lemma KingRefutedIffUnsafe(b: Board, me: Side, from: int, to: int)
    requires KingPlaced(b, me, from) && Pseudo(b, me, from, to) && Safe(b, me)
    ensures (exists s :: KingRefutes(b, me, from, to, s)) <==> !Safe(Apply(b, from, to), me)
  {
    hide KingRefutes, Strikes, Safe, Screens, Occ, Reaches;
    var a := Apply(b, from, to);
    SafeIffNoStrike(b, me, from);
    MovesKeepKing(b, me, from, to, me, from);
    SafeIffNoStrike(a, me, to);
    forall s ensures KingRefutes(b, me, from, to, s) <==> Strikes(a, me.Other(), s, to) {
      KingRefutesExact(b, me, from, to, s);
    }
  }

  lemma OnlyKing(b: Board, me: Side, s: int, k: int)
    requires KingPlaced(b, me, k) && Has(b, s, me, King)
    ensures s == k
  {
  }

  // ---- the filter in check: look around the king over the new occupancy ----

  predicate AttackOver(b: Board, c: Side, k: int, block: set<int>, s: int) {
    || (IsRook(b, s, c) && (s in RookRankAtt(k, block) || s in RookFileAtt(k, block)))
    || (IsCannon(b, s, c) && (s in CannonRankAtt(k, block) || s in CannonFileAtt(k, block)))
    || (Has(b, s, c, Knight) && s in KnightAttd(k, block))
    || (Has(b, s, c, Pawn) && s in PawnAttd(k, c))
  }

  predicate FaceOver(k: int, other: int, block: set<int>) { SameFile(k, other) && Screens(block, k, other) == {} }

  // What the look goes by: the mover's king is on k afterwards, `block` is the new
  // occupancy as far as lines through k are concerned, pieces on `skip` are gone.
  ghost predicate LooksAfter(b: Board, me: Side, from: int, to: int, k: int, block: set<int>, skip: set<int>) {
    && Pseudo(b, me, from, to) && KingPlaced(Apply(b, from, to), me, k)
    && (if b[from].kind.King? then k == to && block == Flip(Occ(b), from) && skip == {}
        else block == Occ(Apply(b, from, to)) && skip == if b[to].Man? then {to} else {})
  }

  lemma SameLooks(b: Board, me: Side, from: int, to: int, k: int, block: set<int>, skip: set<int>, s: int)
    requires LooksAfter(b, me, from, to, k, block, skip) && OnBoard(s) && s != k
    ensures Screens(block, s, k) == Screens(Occ(Apply(b, from, to)), s, k)
    ensures KnightStep(s, k) ==> (Leg(s, k) in block <==> Leg(s, k) in Occ(Apply(b, from, to)))
  {
    OccApply(b, from, to);
    if KnightStep(s, k) { LegOnBoard(s, k); }
  }

  lemma LookExact(b: Board, me: Side, from: int, to: int, k: int, block: set<int>, skip: set<int>, s: int)
    requires LooksAfter(b, me, from, to, k, block, skip) && !Has(b, s, me.Other(), King)
    ensures s !in skip && AttackOver(b, me.Other(), k, block, s) <==> Strikes(Apply(b, from, to), me.Other(), s, k)
  {
    hide Rank, File, Screens, RookRankAtt, RookFileAtt, CannonRankAtt, CannonFileAtt, Line, Between, Occ, Leg;
    hide Reaches, Flip;
    var a := Apply(b, from, to);
    if OnBoard(s) && s != k {
      StrikeForms(a, me, s, k);
      LookUps(block, k, s);
      SameLooks(b, me, from, to, k, block, skip, s);
    } else {
      NotBySelf(b, me.Other(), k, block);
    }
  }

  lemma NotBySelf(b: Board, c: Side, k: int, block: set<int>)
    ensures !AttackOver(b, c, k, block, k)
  {
  }

  lemma FaceExact(b: Board, me: Side, from: int, to: int, k: int, block: set<int>, skip: set<int>, s: int)
    requires LooksAfter(b, me, from, to, k, block, skip) && KingPlaced(b, me.Other(), s) && s != to
    ensures FaceOver(k, s, block) <==> Strikes(Apply(b, from, to), me.Other(), s, k)
  {
    hide Rank, File, Screens, Line, Between, Occ, Leg, Reaches, Flip;
    var a := Apply(b, from, to);
    assert s != k;
    StrikeForms(a, me, s, k);
    SameLooks(b, me, from, to, k, block, skip, s);
    LineSymmetric(s, k);
    ScreensSymmetric(block, s, k);
  }

  lemma LookIffUnsafe(b: Board, me: Side, from: int, to: int, k: int, block: set<int>, skip: set<int>, other: int)
    requires LooksAfter(b, me, from, to, k, block, skip) && KingPlaced(b, me.Other(), other)
    ensures !Safe(Apply(b, from, to), me) <==>
      (other != to && FaceOver(k, other, block)) || exists s :: s !in skip && AttackOver(b, me.Other(), k, block, s)
  {
    hide AttackOver, FaceOver, Strikes, Safe, LooksAfter;
    AfterPlaced(b, me, from, to, k, block, skip);
    var a := Apply(b, from, to);
    SafeIffNoStrike(a, me, k);
    if other != to {
      FaceExact(b, me, from, to, k, block, skip, other);
    } else {
      OwnNeverStrikes(b, me, from, to, k);
    }
    forall s | s != other
      ensures s !in skip && AttackOver(b, me.Other(), k, block, s) <==> Strikes(a, me.Other(), s, k)
    {
      LookExact(b, me, from, to, k, block, skip, s);
    }
    assert !AttackOver(b, me.Other(), k, block, other) by { KingIsNoAttacker(b, me.Other(), k, block, other); }
  }

  lemma OwnNeverStrikes(b: Board, me: Side, from: int, to: int, k: int)
    requires Pseudo(b, me, from, to) && OnBoard(k)
    ensures !Strikes(Apply(b, from, to), me.Other(), to, k)
  {
    hide Reaches, Screens;
  }

  lemma AfterPlaced(b: Board, me: Side, from: int, to: int, k: int, block: set<int>, skip: set<int>)
    requires LooksAfter(b, me, from, to, k, block, skip)
    ensures Pseudo(b, me, from, to) && KingPlaced(Apply(b, from, to), me, k)
  {
  }

  lemma KingIsNoAttacker(b: Board, c: Side, k: int, block: set<int>, s: int)
    requires Has(b, s, c, King)
    ensures !AttackOver(b, c, k, block, s)
  {
  }
  // ---- taking the other king ----

  // The move takes the other king on a file that is open between the kings but
  // for the mover: the look in check then takes the square for a facing king.
  ghost predicate TakesDownFile(b: Board, me: Side, from: int, to: int) {
    exists k :: KingPlaced(b, me, k) && KingPlaced(b, me.Other(), to) && FaceOver(k, to, Flip(Occ(b), from))
  }

  lemma TakesDownFileIs(b: Board, me: Side, from: int, to: int, k: int, other: int)
    requires KingPlaced(b, me, k) && KingPlaced(b, me.Other(), other)
    ensures TakesDownFile(b, me, from, to) <==> other == to && FaceOver(k, to, Flip(Occ(b), from))
  {
    hide FaceOver;
    if j :| KingPlaced(b, me, j) && KingPlaced(b, me.Other(), to) && FaceOver(j, to, Flip(Occ(b), from)) {
      OnlyKing(b, me, j, k);
      OnlyKing(b, me.Other(), other, to);
    }
  }

  lemma OpenFileFaces(b: Board, me: Side, k: int, other: int)
    requires KingPlaced(b, me, k) && KingPlaced(b, me.Other(), other)
    requires SameFile(k, other) && Screens(Occ(b), k, other) == {}
    ensures Facing(b)
  {
    LineSymmetric(k, other);
    var w, x := if me.White? then k else other, if me.White? then other else k;
    assert Has(b, w, White, King) && Has(b, x, Black, King) && SameFile(w, x) && Screens(Occ(b), w, x) == {};
  }

  // The mover is the one piece between the kings.
  lemma BetweenKings(b: Board, me: Side, from: int, k: int, other: int)
    requires KingPlaced(b, me, k) && KingPlaced(b, me.Other(), other) && !Facing(b)
    requires FaceOver(k, other, Flip(Occ(b), from))
    ensures SameFile(k, other) && Screens(Occ(b), k, other) == {from}
  {
    hide Line;
    var occ := Occ(b);
    LineSymmetric(k, other);
    if Screens(occ, k, other) == {} {
      OpenFileFaces(b, me, k, other);
    }
    forall x | x in Screens(occ, k, other)
      ensures x == from
    {
      assert x != from ==> x in Screens(Flip(occ, from), k, other);
    }
  }

  // A piece that looks past the mover at the king looks past the other king as well.
  lemma TwoInLine(b: Board, k: int, other: int, from: int, s: int)
    requires SameFile(k, other) && Screens(Occ(b), k, other) == {from} && OnBoard(s) && b[s].Man? && s != from
    requires OnBoard(other) && b[other].Man? && s != other && from in Line(s, k)
    ensures from in Screens(Occ(b), s, k) && other in Screens(Occ(b), s, k)
  {
    assert from in Line(k, other);
    assert s in Line(k, other) ==> s in Screens(Occ(b), k, other);
  }

  // What strikes k past the mover is not there: nothing but the other king is shielded.
  lemma ShieldsKingOnly(b: Board, me: Side, from: int, k: int, other: int, s: int)
    requires KingPlaced(b, me, k) && KingPlaced(b, me.Other(), other) && !Facing(b)
    requires Own(b, from, me) && FaceOver(k, other, Flip(Occ(b), from)) && Strikes(b, me.Other(), s, k)
    ensures OnBoard(s) && s != other && from !in Line(s, k)
    ensures KnightStep(s, k) ==> Leg(s, k) != from
  {
    hide Occ, KnightStep, Reaches, Leg, Flip;
    BetweenKings(b, me, from, k, other);
    StrikeForms(b, me, s, k);
    LineSymmetric(s, k);
    if from in Line(s, k) {
      PastMover(b, me, from, k, other, s);
    }
    if KnightStep(s, k) {
      LegAside(s, k);
      assert SameFile(from, k) by { assert from in Line(k, other); }
    }
  }

  lemma PastMover(b: Board, me: Side, from: int, k: int, other: int, s: int)
    requires KingPlaced(b, me, k) && KingPlaced(b, me.Other(), other) && Own(b, from, me)
    requires SameFile(k, other) && Screens(Occ(b), k, other) == {from} && from in Line(s, k)
    ensures !Strikes(b, me.Other(), s, k)
  {
    StrikeForms(b, me, s, k);
    LineSymmetric(k, other);
    if Own(b, s, me.Other()) && s != other {
      TwoInLine(b, k, other, from, s);
      TwoScreens(Occ(b), s, k, from, other);
      hide Line, Screens, Occ;
      assert !PawnStep(s, k, me.Other()) && !KnightStep(s, k) by { NotNear(s, k, from, me.Other()); }
    }
    hide Occ;
  }

  // Pawns and knights attack from no distance along a line.
  lemma NotNear(s: int, k: int, x: int, c: Side)
    requires OnBoard(s) && OnBoard(k) && x in Line(s, k)
    ensures !PawnStep(s, k, c) && !KnightStep(s, k)
  {
  }

  lemma CheckedIsUnsafe(b: Board, me: Side)
    requires InCheck(b, me)
    ensures !Safe(b, me)
  {
  }

  lemma TakerIsNoKing(b: Board, me: Side, from: int, to: int)
    requires Pseudo(b, me, from, to) && KingPlaced(b, me.Other(), to)
    ensures OnBoard(from) && OnBoard(to) && Own(b, from, me) && !b[from].kind.King?
  {
  }

  // Taking on a square off the line leaves an attacker that was not shielded.
  lemma StrikesOn(b: Board, me: Side, from: int, to: int, k: int, s: int)
    requires KingPlaced(b, me, k) && Pseudo(b, me, from, to) && Own(b, to, me.Other()) && !b[from].kind.King?
    requires Strikes(b, me.Other(), s, k) && OnBoard(s) && s != to && from !in Line(s, k)
    requires KnightStep(s, k) ==> Leg(s, k) != from
    ensures Strikes(Apply(b, from, to), me.Other(), s, k)
  {
    hide Strikes, KnightStep, PawnStep, Leg, Aligned, SameFile, Reaches, Line, Rank, File;
    var a := Apply(b, from, to);
    KingUnmoved(b, me, from, to, k);
    StrikeForms(b, me, s, k);
    StrikeForms(a, me, s, k);
    OccApply(b, from, to);
    ScreensApply(b, from, to, s, k);
  }

  // So if the king was attacked it still is, and the look is right to refuse the move.
  lemma StillStruck(b: Board, me: Side, from: int, to: int)
    requires Pseudo(b, me, from, to) && TakesDownFile(b, me, from, to) && !Facing(b) && InCheck(b, me)
    ensures !Safe(Apply(b, from, to), me)
  {
    hide FaceOver, Strikes, Safe, Reaches, Facing, InCheck, Line, KnightStep, Leg, Occ;
    var k :| KingPlaced(b, me, k) && KingPlaced(b, me.Other(), to) && FaceOver(k, to, Flip(Occ(b), from));
    SafeIffNoStrike(b, me, k);
    CheckedIsUnsafe(b, me);
    var s :| Strikes(b, me.Other(), s, k);
    TakerIsNoKing(b, me, from, to);
    ShieldsKingOnly(b, me, from, k, to, s);
    MovesKeepKing(b, me, from, to, me, k);
    StrikesOn(b, me, from, to, k, s);
    SafeIffNoStrike(Apply(b, from, to), me, k);
  }

  // Palaces are apart.
  lemma KingTakesNoKing(b: Board, me: Side, from: int, to: int, other: int)
    requires Pseudo(b, me, from, to) && b[from].kind.King? && KingPlaced(b, me.Other(), other)
    ensures other != to
  {
  }

  // Kings on e0 and e9 with a white rook between: out of check, the rook takes the
  // king safely, and the look in check would refuse it.
  function RookBetweenKings(): Board {
    seq(90, s => if s == 4 then Man(White, King) else if s == 40 then Man(White, Rook)
                 else if s == 85 then Man(Black, King) else Empty)
  }

  lemma FiltersDifferOutOfCheck()
    ensures var b := RookBetweenKings();
      && Placed(b) && !Facing(b) && !InCheck(b, White) && Pseudo(b, White, 40, 85)
      && TakesDownFile(b, White, 40, 85) && Safe(Apply(b, 40, 85), White)
  {
    RookLooks();
    NoBlackStrikes();
    var b := RookBetweenKings();
    var a := Apply(b, 40, 85);
    SafeIffNoStrike(b, White, 4);
    SafeIffNoStrike(a, White, 4);
    assert Safe(b, White);
    hide RookBetweenKings, Apply, Pseudo, Reaches, Strikes;
    assert FaceOver(4, 85, Flip(Occ(b), 40));
  }

  lemma RookLooks()
    ensures var b := RookBetweenKings();
      && Screens(Occ(b), 4, 85) == {40} && Screens(Occ(b), 40, 85) == {} && Screens(Flip(Occ(b), 40), 4, 85) == {}
      && Pseudo(b, White, 40, 85)
  {
    var b := RookBetweenKings();
    ThreeMen();
    FileLines();
    assert Own(b, 40, White) && b[85] == Man(Black, King) && b[40].kind.Rook?;
    hide RookBetweenKings, Occ, Line;
  }

  lemma ThreeMen()
    ensures Occ(RookBetweenKings()) == {4, 40, 85} && Flip(Occ(RookBetweenKings()), 40) == {4, 85}
  {
    var b := RookBetweenKings();
    forall x
      ensures x in Occ(b) <==> x == 4 || x == 40 || x == 85
    {
    }
  }

  lemma FileLines()
    ensures Line(4, 85) * {4, 40, 85} == {40} && Line(4, 85) * {4, 85} == {} && Line(40, 85) * {4, 40, 85} == {}
    ensures Aligned(40, 85)
  {
    forall x | x in Line(4, 85) || x in Line(40, 85)
      ensures x != 4 && x != 85 && (x in Line(40, 85) ==> x != 40)
    {
    }
    assert 40 in Line(4, 85);
  }

  lemma NoBlackStrikes()
    ensures var b := RookBetweenKings();
      && KingPlaced(b, White, 4) && KingPlaced(b, Black, 85) && KingPlaced(Apply(b, 40, 85), White, 4)
      && (forall s :: !Strikes(b, Black, s, 4)) && (forall s :: !Strikes(Apply(b, 40, 85), Black, s, 4))
  {
    var b := RookBetweenKings();
    RookLooks();
    ScreensSymmetric(Occ(b), 4, 85);
    hide Screens, Occ;
    assert !Strikes(b, Black, 85, 4);
  }
}
