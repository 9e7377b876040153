// The attack sets the engine looks up, as sets of squares, and how they relate
// to the moves of the rules.
module Attacks {
  import opened Geometry
  import opened Rules

  // Squares reached along a rank (file) up to and including the first blocker.
  function RookRankAtt(sq: int, block: set<int>): set<int> {
    set t | 0 <= t < 90 && t != sq && SameRank(t, sq) && Screens(block, sq, t) == {}
  }

  function RookFileAtt(sq: int, block: set<int>): set<int> {
    set t | 0 <= t < 90 && t != sq && SameFile(t, sq) && Screens(block, sq, t) == {}
  }

  // Squares behind exactly one blocker.
  function CannonRankAtt(sq: int, block: set<int>): set<int> {
    set t | 0 <= t < 90 && t != sq && SameRank(t, sq) && |Screens(block, sq, t)| == 1
  }

  function CannonFileAtt(sq: int, block: set<int>): set<int> {
    set t | 0 <= t < 90 && t != sq && SameFile(t, sq) && |Screens(block, sq, t)| == 1
  }

  // Squares from which a knight attacks sq, the leg being next to the knight.
  function KnightAttd(sq: int, block: set<int>): set<int> {
    set t | 0 <= t < 90 && KnightStep(t, sq) && Leg(t, sq) !in block
  }

  function PawnAttd(sq: int, c: Side): set<int> {
    set t | 0 <= t < 90 && PawnStep(t, sq, c)
  }

  function KnightAtt(sq: int, block: set<int>): set<int> {
    set t | 0 <= t < 90 && KnightStep(sq, t) && Leg(sq, t) !in block
  }

  // Kings, advisors and bishops step by fixed increments between their points.
  function KingAtt(sq: int): set<int> {
    set t | 0 <= t < 90 && (Abs(t - sq) == 1 || Abs(t - sq) == 9) && AnyPalace(t)
  }

  function AdvisorAtt(sq: int): set<int> {
    set t | 0 <= t < 90 && (Abs(t - sq) == 8 || Abs(t - sq) == 10) && AnyAdvisorPoint(t)
  }

  function BishopAtt(sq: int, block: set<int>): set<int> {
    set t | 0 <= t < 90 && (Abs(t - sq) == 16 || Abs(t - sq) == 20) && AnyBishopPoint(t) && (sq + t) / 2 !in block
  }

  function PawnAtt(sq: int, c: Side): set<int> { set t | 0 <= t < 90 && PawnStep(sq, t, c) }

  function KnightRing(sq: int): set<int> { set t | 0 <= t < 90 && KnightStep(sq, t) }

  function RankMask(sq: int): set<int> { set t | 0 <= t < 90 && SameRank(t, sq) }

  function FileMask(sq: int): set<int> { set t | 0 <= t < 90 && SameFile(t, sq) }

  function Of(b: Board, c: Side, kind: Kind): set<int> { set s | 0 <= s < 90 && b[s] == Man(c, kind) }

  // x ^ {s} as the engine uses it: flip one bit.
  function Flip(x: set<int>, s: int): set<int> { if s in x then x - {s} else x + {s} }

  // ---- counting blockers ----

  lemma LineSymmetric(a: int, b: int)
    ensures Line(a, b) == Line(b, a)
  {
  }

  lemma ScreensSymmetric(block: set<int>, s: int, k: int)
    ensures Screens(block, s, k) == Screens(block, k, s)
  {
    LineSymmetric(s, k);
  }

  lemma ScreensFlip(occ: set<int>, a: int, b: int, s: int)
    ensures |Screens(Flip(occ, s), a, b)|
         == |Screens(occ, a, b)| + (if s !in Line(a, b) then 0 else if s in occ then -1 else 1)
  {
    var before, after := Screens(occ, a, b), Screens(Flip(occ, s), a, b);
    if s !in Line(a, b) {
      assert after == before;
    } else if s in occ {
      assert after == before - {s};
    } else {
      assert after == before + {s};
    }
  }

  lemma OccApply(b: Board, from: int, to: int)
    requires OnBoard(from) && OnBoard(to) && b[from].Man? && from != to
    ensures Occ(Apply(b, from, to)) == Flip(Occ(b), from) + {to}
    ensures b[to].Empty? ==> Occ(Apply(b, from, to)) == Flip(Flip(Occ(b), from), to)
    ensures b[to].Man? ==> Occ(Apply(b, from, to)) == Flip(Occ(b), from)
  {
  }

  lemma ScreensApply(b: Board, from: int, to: int, s: int, k: int)
    requires OnBoard(from) && OnBoard(to) && b[from].Man? && from != to
    ensures |Screens(Occ(Apply(b, from, to)), s, k)|
         == |Screens(Occ(b), s, k)| - (if from in Line(s, k) then 1 else 0)
           + (if to in Line(s, k) && b[to].Empty? then 1 else 0)
  {
    OccApply(b, from, to);
    ScreensFlip(Occ(b), s, k, from);
    if b[to].Empty? {
      ScreensFlip(Flip(Occ(b), from), s, k, to);
    }
  }

  lemma RingHoldsAttackers(sq: int, block: set<int>)
    ensures KnightAttd(sq, block) <= KnightRing(sq)
  {
  }

  lemma LegOnBoard(a: int, b: int)
    requires OnBoard(a) && OnBoard(b) && KnightStep(a, b)
    ensures OnBoard(Leg(a, b)) && KnightStep(b, a)
  {
  }

  // The increments describe the steps of the rules.
  lemma Increment(sq: int, t: int)
    ensures t - sq == 9 * (Rank(t) - Rank(sq)) + (File(t) - File(sq))
  {
  }

  lemma KingSteps(sq: int, t: int, c: Side)
    requires OnBoard(sq) && OnBoard(t) && Palace(sq, c)
    ensures t in KingAtt(sq) <==> Palace(t, c) && KingStep(sq, t)
  {
    Increment(sq, t);
    hide Rank, File;
    assert t in KingAtt(sq) <==> (Abs(t - sq) == 1 || Abs(t - sq) == 9) && AnyPalace(t);
  }

  lemma AdvisorSteps(sq: int, t: int, c: Side)
    requires OnBoard(sq) && OnBoard(t) && AdvisorPoint(sq, c)
    ensures t in AdvisorAtt(sq) <==> AdvisorPoint(t, c) && DiagonalStep(sq, t, 1)
  {
    Increment(sq, t);
    hide Rank, File;
    assert t in AdvisorAtt(sq) <==> (Abs(t - sq) == 8 || Abs(t - sq) == 10) && AnyAdvisorPoint(t);
  }

  lemma BishopSteps(sq: int, t: int, c: Side, block: set<int>)
    requires OnBoard(sq) && OnBoard(t) && BishopPoint(sq, c)
    ensures t in BishopAtt(sq, block) <==> BishopPoint(t, c) && DiagonalStep(sq, t, 2) && (sq + t) / 2 !in block
  {
    Increment(sq, t);
    assert t in BishopAtt(sq, block) <==>
      (Abs(t - sq) == 16 || Abs(t - sq) == 20) && AnyBishopPoint(t) && (sq + t) / 2 !in block;
  }

  // The masks of the cheap first question hold the attacks.
  lemma AttacksInMasks(k: int, block: set<int>)
    ensures RookRankAtt(k, block) <= RankMask(k) && CannonRankAtt(k, block) <= RankMask(k)
    ensures RookFileAtt(k, block) <= FileMask(k) && CannonFileAtt(k, block) <= FileMask(k)
  {
  }
}
