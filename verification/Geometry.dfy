// Squares, ranks, files and the piece geometry of the 9 x 10 xiangqi board.
// A square is a number in [0, 90): rank = s / 9, file = s % 9.
module Geometry {

  datatype Side = White | Black {
    function Other(): Side { if White? then Black else White }
  }

  predicate OnBoard(s: int) { 0 <= s < 90 }

  function Rank(s: int): int { s / 9 }

  function File(s: int): int { s % 9 }

  predicate SameRank(a: int, b: int) { Rank(a) == Rank(b) }

  predicate SameFile(a: int, b: int) { File(a) == File(b) }

  // m lies strictly between a and b.
  predicate Mid(m: int, a: int, b: int) { a < m < b || b < m < a }

  predicate Aligned(a: int, b: int) { a != b && (SameRank(a, b) || SameFile(a, b)) }

  // x lies strictly between a and b on their common rank or file.
  predicate Between(x: int, a: int, b: int) {
    && Mid(x, a, b)
    && ((SameRank(a, b) && SameRank(x, a)) || (SameFile(a, b) && SameFile(x, a)))
  }

  // The squares strictly between two squares of one rank or file.
  function Line(a: int, b: int): set<int> {
    set x | 0 <= x < 90 && Between(x, a, b)
  }

  function Screens(occ: set<int>, a: int, b: int): set<int> { Line(a, b) * occ }

  function Abs(x: int): nat { if x < 0 then -x else x }

  predicate KnightStep(a: int, b: int) {
    || (Abs(Rank(a) - Rank(b)) == 1 && Abs(File(a) - File(b)) == 2)
    || (Abs(Rank(a) - Rank(b)) == 2 && Abs(File(a) - File(b)) == 1)
  }

  // The square that must be empty for a knight to go from `a` to `b`:
  // the orthogonal neighbour of `a` on the longer arm.
  function Leg(a: int, b: int): int {
    if Rank(b) == Rank(a) + 2 then a + 9
    else if Rank(b) == Rank(a) - 2 then a - 9
    else if File(b) == File(a) + 2 then a + 1
    else a - 1
  }

  // White's half is ranks 0..4, Black's ranks 5..9.
  predicate HomeHalf(s: int, c: Side) { if c.White? then s < 45 else 45 <= s }

  predicate Palace(s: int, c: Side) {
    3 <= File(s) <= 5 && (if c.White? then Rank(s) <= 2 else 7 <= Rank(s))
  }

  predicate AdvisorPoint(s: int, c: Side) {
    Palace(s, c) && (File(s) == 4) == (Rank(s) == 1 || Rank(s) == 8)
  }

  predicate BishopPoint(s: int, c: Side) {
    && HomeHalf(s, c)
    && (if Rank(s) == 2 || Rank(s) == 7 then File(s) % 4 == 0
        else (Rank(s) == 0 || Rank(s) == 4 || Rank(s) == 5 || Rank(s) == 9) && File(s) % 4 == 2)
  }

  predicate AnyPalace(s: int) { Palace(s, White) || Palace(s, Black) }

  predicate AnyAdvisorPoint(s: int) { AdvisorPoint(s, White) || AdvisorPoint(s, Black) }

  predicate AnyBishopPoint(s: int) { BishopPoint(s, White) || BishopPoint(s, Black) }

  // Where a pawn of side c can ever stand.
  predicate PawnPoint(s: int, c: Side) {
    var r := if c.White? then Rank(s) else 9 - Rank(s);
    r >= 5 || (r >= 3 && File(s) % 2 == 0)
  }

  predicate PawnStep(a: int, b: int, c: Side) {
    || (File(a) == File(b) && Rank(b) == Rank(a) + (if c.White? then 1 else -1))
    || (!HomeHalf(a, c) && Rank(a) == Rank(b) && Abs(File(a) - File(b)) == 1)
  }

  predicate KingStep(a: int, b: int) {
    Abs(Rank(a) - Rank(b)) + Abs(File(a) - File(b)) == 1
  }

  predicate DiagonalStep(a: int, b: int, n: int) {
    Abs(Rank(a) - Rank(b)) == n && Abs(File(a) - File(b)) == n
  }

  // ---- the points and steps by their numbers ----

  ghost predicate Listed(s: int, squares: seq<int>) { s in squares }

  lemma PalaceSquares(s: int)
    requires OnBoard(s)
    ensures Palace(s, White) <==> Listed(s, [3, 4, 5, 12, 13, 14, 21, 22, 23])
    ensures Palace(s, Black) <==> Listed(s, [66, 67, 68, 75, 76, 77, 84, 85, 86])
  {
  }

  lemma AdvisorSquares(s: int)
    requires OnBoard(s)
    ensures AdvisorPoint(s, White) <==> Listed(s, [3, 5, 13, 21, 23])
    ensures AdvisorPoint(s, Black) <==> Listed(s, [66, 68, 76, 84, 86])
  {
  }

  lemma BishopSquares(s: int)
    requires OnBoard(s)
    ensures BishopPoint(s, White) <==> Listed(s, [2, 6, 18, 22, 26, 38, 42])
    ensures BishopPoint(s, Black) <==> Listed(s, [47, 51, 63, 67, 71, 83, 87])
  {
  }

  lemma PawnSquares(s: int)
    requires OnBoard(s)
    ensures PawnPoint(s, White) <==> s >= 45 || Listed(s, [27, 29, 31, 33, 35, 36, 38, 40, 42, 44])
    ensures PawnPoint(s, Black) <==> s < 45 || Listed(s, [45, 47, 49, 51, 53, 54, 56, 58, 60, 62])
  {
  }

  // A knight goes one square straight on and one diagonally; the straight square is its leg.
  lemma KnightJumps(a: int, b: int)
    requires OnBoard(a) && OnBoard(b)
    ensures KnightStep(a, b) <==>
      (a % 9 < 8 && Listed(b - a, [19, -17])) || (a % 9 > 0 && Listed(b - a, [17, -19])) ||
      (a % 9 < 7 && Listed(b - a, [11, -7])) || (a % 9 > 1 && Listed(b - a, [7, -11]))
    ensures KnightStep(a, b) ==>
      Leg(a, b) == a + (if b - a >= 17 then 9 else if b - a <= -17 then -9 else if Listed(b - a, [11, -7]) then 1
        else -1)
  {
  }

  // A pawn goes forward, and sideways once across the river.
  lemma PawnSteps(a: int, b: int)
    requires OnBoard(a) && OnBoard(b)
    ensures PawnStep(a, b, White) <==>
      b == a + 9 || (a >= 45 && ((b == a + 1 && a % 9 < 8) || (b == a - 1 && a % 9 > 0)))
    ensures PawnStep(a, b, Black) <==>
      b == a - 9 || (a < 45 && ((b == a + 1 && a % 9 < 8) || (b == a - 1 && a % 9 > 0)))
  {
  }
}
