// Which loops of the search get a verdict: the adjudicator compares positions, the search
// closes loops up to mirrors, so only a loop that comes back to the very position counts.
module LoopVerdicts {
  import opened Geometry
  import opened Rules
  import opened Attacks
  import opened Hashing
  import opened History
  import opened Engine
  import opened Symmetry
  import opened Fen
  import opened FenReader
  import opened Extension
  import opened RuleCheck
  import opened Loops
  import opened Search
  import opened ChaseAttack
  import opened Chase
  import opened Repetition

  // ---- the line of the search as a line of play ----

  function PosAt(path: seq<Pos>, row: Pos, i: nat): Pos { if i < |path| then path[i] else row }

  ghost predicate LegalStep(p: Pos, m: int, q: Pos) {
    Legal(p.board, p.turn, MoveFrom(m), MoveTo(m)) && q == Made(p, MoveFrom(m), MoveTo(m))
  }

  // From the j-th position of the line the moves are legal and lead to the position at hand.
  ghost predicate PlayedOn(path: seq<Pos>, row: Pos, j: nat, moves: seq<int>) {
    && j + |moves| == |path|
    && forall i :: 0 <= i < |moves| ==> LegalStep(path[j + i], moves[i], NextOn(path, row, j + i))
  }

  // The line closes a loop with its j-th position.
  ghost predicate Closes(path: seq<Pos>, row: Pos, j: nat, moves: seq<int>) {
    j < |path| && Unrelated(path) && Related(path[j], row) && PlayedOn(path, row, j, moves)
  }

  lemma {:induction false} LineBoards(path: seq<Pos>, row: Pos, j: nat, moves: seq<int>, i: nat)
    requires PlayedOn(path, row, j, moves) && i <= |moves|
    ensures var p := PosAt(path, row, j); PosAt(path, row, j + i) == Pos(BoardAt(p.board, moves, i), MoverAt(p.turn, i))
  {
    hide Legal, MoveFrom, MoveTo;
    if i > 0 {
      LineBoards(path, row, j, moves, i - 1);
      assert LegalStep(path[j + i - 1], moves[i - 1], NextOn(path, row, j + i - 1));
      LegalOnBoard(path[j + i - 1], moves[i - 1]);
    }
  }

  lemma LineEnds(path: seq<Pos>, row: Pos, j: nat, moves: seq<int>)
    requires PlayedOn(path, row, j, moves) && j < |path|
    ensures row == Pos(BoardAt(path[j].board, moves, |moves|), MoverAt(path[j].turn, |moves|))
  {
    hide LegalStep;
    LineBoards(path, row, j, moves, |moves|);
  }

  lemma LegalOnBoard(p: Pos, m: int)
    requires Legal(p.board, p.turn, MoveFrom(m), MoveTo(m))
    ensures OnBoard(MoveFrom(m)) && OnBoard(MoveTo(m))
  {
  }

  lemma LineLegal(path: seq<Pos>, row: Pos, j: nat, moves: seq<int>)
    requires PlayedOn(path, row, j, moves)
    ensures var p := PosAt(path, row, j); LegalLine(p.board, p.turn, moves)
  {
    hide Legal;
    var p := PosAt(path, row, j);
    forall i | 0 <= i < |moves|
      ensures LegalAt(p.board, p.turn, moves, i)
    {
      LineBoards(path, row, j, moves, i);
      assert LegalStep(path[j + i], moves[i], NextOn(path, row, j + i));
    }
  }

  // ---- no capture in a line that comes back ----

  lemma MenAfter(b: Board, c: Side, from: int, to: int)
    requires Pseudo(b, c, from, to)
    ensures |Occ(Apply(b, from, to))| == |Occ(b)| - if b[to].Man? then 1 else 0
  {
    hide Reaches;
    OccApply(b, from, to);
    var occ := Occ(b);
    assert from in occ && (to in occ <==> b[to].Man?);
    assert Flip(occ, from) == occ - {from};
    if b[to].Empty? {
      assert Occ(Apply(b, from, to)) == occ - {from} + {to};
    }
  }

  lemma {:induction false} MenDrop(b: Board, t: Side, moves: seq<int>, i: nat, n: nat)
    requires LegalLine(b, t, moves) && i <= n <= |moves|
    ensures |Occ(BoardAt(b, moves, n))| <= |Occ(BoardAt(b, moves, i))|
    decreases n - i
  {
    hide Occ, Reaches, MoveFrom, MoveTo, Safe;
    if i < n {
      MenDrop(b, t, moves, i, n - 1);
      assert LegalAt(b, t, moves, n - 1);
      MenAfter(BoardAt(b, moves, n - 1), MoverAt(t, n - 1), MoveFrom(moves[n - 1]), MoveTo(moves[n - 1]));
    }
  }

  lemma NoCapture(b: Board, t: Side, moves: seq<int>, i: nat)
    requires LegalLine(b, t, moves) && BoardAt(b, moves, |moves|) == b && i < |moves|
    ensures QuietAt(b, moves, i)
  {
    hide Occ, Reaches, MoveFrom, MoveTo, Safe;
    assert LegalAt(b, t, moves, i);
    MenAfter(BoardAt(b, moves, i), MoverAt(t, i), MoveFrom(moves[i]), MoveTo(moves[i]));
    MenDrop(b, t, moves, 0, i);
    MenDrop(b, t, moves, i + 1, |moves|);
  }

  // One move of each side does not come back: the first mover's piece is gone from its square.
  lemma NotAfterTwo(b: Board, t: Side, moves: seq<int>)
    requires LegalLine(b, t, moves) && |moves| == 2
    ensures BoardAt(b, moves, 2) != b
  {
    hide Reaches, MoveFrom, MoveTo, Safe;
    assert LegalAt(b, t, moves, 0) && LegalAt(b, t, moves, 1);
    assert BoardAt(b, moves, 2) == Play(BoardAt(b, moves, 1), moves[1]) &&
      BoardAt(b, moves, 1) == Play(BoardAt(b, moves, 0), moves[0]);
    var f := MoveFrom(moves[0]);
    assert Own(b, f, t) && BoardAt(b, moves, 1)[f].Empty?;
    assert !Own(BoardAt(b, moves, 2), f, t);
  }

  // ---- the loop ----

  lemma SameOnce(path: seq<Pos>, row: Pos, j: nat, i: nat)
    requires Unrelated(path) && j <= i < |path| && Related(path[j], row) && path[i] == row
    ensures i == j
  {
    hide Related;
    assert Related(path[j], path[i]);
  }

  // Closing on the position itself, it stands exactly once on the line before.
  lemma {:induction false} StandsOnce(path: seq<Pos>, row: Pos, j: nat, moves: seq<int>, i: nat)
    requires Closes(path, row, j, moves)
    requires i <= |moves| && (|moves| - i) % 2 == 0
    ensures Occurrences(path[j].board, moves, i) == if i == 0 && |moves| > 0 && path[j] == row then 1 else 0
    decreases |moves| - i
  {
    hide Related, BoardAt, LegalStep;
    if i < |moves| {
      StandsOnce(path, row, j, moves, i + 2);
      LineBoards(path, row, j, moves, i);
      LineBoards(path, row, j, moves, |moves|);
      SameMover(path[j].turn, i, |moves|);
      if path[j + i] == row {
        SameOnce(path, row, j, j + i);
      }
      LineBoards(path, row, j, moves, 0);
    }
  }

  lemma ComesBack(path: seq<Pos>, row: Pos, j: nat, moves: seq<int>)
    requires Closes(path, row, j, moves) && row == path[j]
    ensures |moves| >= 4 && NthStand(path[j].board, moves, 1, 0)
  {
    hide Related, Occurrences, LegalLine, QuietAt;
    var b, t, n := path[j].board, path[j].turn, |moves|;
    LineBoards(path, row, j, moves, n);
    LineLegal(path, row, j, moves);
    assert n % 2 == 0;
    if n == 2 {
      NotAfterTwo(b, t, moves);
    }
    StandsOnce(path, row, j, moves, 0);
    forall i | 0 <= i < n
      ensures QuietAt(b, moves, i)
    {
      NoCapture(b, t, moves, i);
    }
  }

  // An earlier standing of the position is the start of the loop itself.
  lemma StoodAtStart(path: seq<Pos>, row: Pos, j: nat, moves: seq<int>, i: nat)
    requires Closes(path, row, j, moves)
    requires NthStand(path[j].board, moves, 1, i)
    ensures row == path[j] && i == 0
  {
    hide Related, Occurrences, BoardAt, QuietAt, LegalStep;
    LineBoards(path, row, j, moves, i);
    LineBoards(path, row, j, moves, |moves|);
    SameMover(path[j].turn, i, |moves|);
    SameOnce(path, row, j, j + i);
  }

  // The stack tells the truth about the line, on which different positions have different keys.
  ghost predicate ToldApart(z: Zobrist, start: Pos, moves: seq<int>, stack: seq<Played>) {
    |stack| == |moves| && Tells(z, stack, start.board, start.turn, moves) &&
      KeysApart(z, start.board, start.turn, moves)
  }

  // The line as it was recorded from the start to the position at hand.
  ghost predicate OnRecord(z: Zobrist, start: Pos, moves: seq<int>, row: Pos, l: Course) {
    && ToldApart(z, start, moves, l.stack)
    && l.board == row.board && l.turn == row.turn && l.key == PosKey(z, row.board, row.turn)
  }

  // A position the search may stand on: two kings, and the side not to move is safe.
  ghost predicate SafeStart(p: Pos) { Placed(p.board) && Safe(p.board, p.turn.Other()) }

  ghost predicate DecidedFromStart(rules: ChaseRules, l: Course, v: Verdict) {
    |l.stack| >= 2 && |l.stack| % 2 == 0 && v == VerdictAt(rules, l, 0)
  }

  // The adjudicator gives the loop a verdict if and only if it closes on the position it
  // started from; the verdict then goes by the whole loop. Mirror images do not count.
  lemma JudgedIffSame(z: Zobrist, rules: ChaseRules, path: seq<Pos>, row: Pos, j: nat, moves: seq<int>, l: Course,
                      v: Verdict)
    requires Closes(path, row, j, moves) && OnRecord(z, path[j], moves, row, l) && SafeStart(path[j])
    requires Adjudicates(rules, l, 1, v)
    ensures v != NoRepetition <==> row == path[j]
    ensures row == path[j] ==> DecidedFromStart(rules, l, v)
  {
    hide Related, Tells, PlayedOn, NthStand, NthRepeat, VerdictAt, KeysApart, PosKey, Unrelated;
    hide BoardAt, MoverAt;
    var b, t := path[j].board, path[j].turn;
    LineEnds(path, row, j, moves);
    LineLegal(path, row, j, moves);
    LegalIsPlayable(b, t, moves);
    forall i: nat
      ensures NthRepeat(l.stack, l.key, 1, i) <==> NthStand(b, moves, 1, i)
    {
      RepetitionIsReal(z, l.stack, b, t, moves, 1, i);
    }
    if row == path[j] {
      ComesBack(path, row, j, moves);
      EvenLoop(t, |moves|);
    } else {
      forall i: nat
        ensures !NthStand(b, moves, 1, i)
      {
        if NthStand(b, moves, 1, i) {
          StoodAtStart(path, row, j, moves, i);
        }
      }
    }
  }

  lemma EvenLoop(t: Side, n: nat)
    requires MoverAt(t, n) == t
    ensures n % 2 == 0
  {
  }

  // ---- the verdict of the search on a loop ----

  function StatusOf(v: Verdict): int {
    match v case NoRepetition => 0 case Draw => 1 case MeBan => 2 case OppBan => 3
  }

  // With this adjudicator a loop that closes on a mirror image changes no verdict, and one that
  // closes on the position itself always hangs one on the move it began with.
  lemma VerdictIffSame(z: Zobrist, rules: ChaseRules, book: Book, at: Node, j: nat, moves: seq<int>, l: Course,
                       v: Verdict, loops: Verdicts)
    requires Closes(at.path, at.row, j, moves) && |at.made| == |at.path| && OnRecord(z, at.path[j], moves, at.row, l)
    requires SafeStart(at.path[j]) && Adjudicates(rules, l, 1, v) && book.rule(at.path[j], at.made[j..]) == StatusOf(v)
    ensures var start := at.path[j];
      Judged(loops, book, start, at.made[j..]) == if at.row != start then loops
        else loops[start := EntriesAt(loops, start)[at.made[j] := StatusOf(v)]]
    ensures at.row == at.path[j] ==> 1 <= StatusOf(v) <= 3
  {
    hide Related, Unrelated, PlayedOn, OnRecord, Adjudicates, DecidedFromStart;
    JudgedIffSame(z, rules, at.path, at.row, j, moves, l, v);
    assert at.made[j..][0] == at.made[j];
  }

  // White: king e0, pawn e3, rook i1. Black: king e9, rook i8. The rooks cross over to file a.
  function RooksAside(white: int, black: int): Board {
    seq(90, s => if s == 4 then Man(White, King) else if s == 31 then Man(White, Pawn)
      else if s == white then Man(White, Rook)
                 else if s == 85 then Man(Black, King) else if s == black then Man(Black, Rook) else Empty)
  }

  // Such a loop: two moves that lead to the mirror image.
  lemma MirrorLoop()
    ensures var p, q, r := Pos(RooksAside(9, 72), White), Pos(RooksAside(17, 72), Black),
      Pos(RooksAside(17, 80), White);
      r != p && Closes([p, q], r, 0, [MoveMake(9, 17), MoveMake(72, 80)])
  {
    var p, q, r := Pos(RooksAside(9, 72), White), Pos(RooksAside(17, 72), Black), Pos(RooksAside(17, 80), White);
    assert r.board[9].Empty? && p.board[9].Man?;
    assert BoardOf(LR, p.board) == r.board;
    assert r == Image(LR, p);
    CrossingLegal();
    forall g: Mirror
      ensures q != Image(g, p)
    {
      SqMoves(g, 31);
      CellAt(g, p.board, 31);
    }
    Unpack(9, 17);
    Unpack(72, 80);
    assert q == Made(p, 9, 17) && r == Made(q, 72, 80);
  }

  // The pawn keeps the kings apart and no rook attacks.
  lemma RooksSafe(white: int, black: int, c: Side)
    requires (white == 9 || white == 17) && (black == 72 || black == 80)
    ensures Safe(RooksAside(white, black), c)
  {
    var b := RooksAside(white, black);
    assert !Facing(b) by {
      assert 31 in Screens(Occ(b), 4, 85);
    }
    forall s, k | Has(b, k, c, King)
      ensures !Pseudo(b, c.Other(), s, k)
    {
    }
  }

  lemma Crossing(from: int, to: int, c: Side, white: int, black: int)
    requires (from == 9 && to == 17 && c.White? && white == 9 && black == 72)
      || (from == 72 && to == 80 && c.Black? && white == 17 && black == 72)
    ensures Pseudo(RooksAside(white, black), c, from, to)
  {
    var b := RooksAside(white, black);
    assert Screens(Occ(b), from, to) == {};
  }

  lemma CrossingLegal()
    ensures Legal(RooksAside(9, 72), White, 9, 17) && Legal(RooksAside(17, 72), Black, 72, 80)
    ensures Apply(RooksAside(9, 72), 9, 17) == RooksAside(17, 72)
    ensures Apply(RooksAside(17, 72), 72, 80) == RooksAside(17, 80)
  {
    assert Apply(RooksAside(9, 72), 9, 17) == RooksAside(17, 72) &&
      Apply(RooksAside(17, 72), 72, 80) == RooksAside(17, 80);
    RooksSafe(17, 72, White);
    RooksSafe(17, 80, Black);
    Crossing(9, 17, White, 9, 72);
    Crossing(72, 80, Black, 17, 72);
    hide RooksAside, Pseudo, Safe, Apply;
  }

  // The position read from its text, with its key computed afresh.
  method Set(z: Zobrist, start: Pos, ghost moves: seq<int>) returns (p: Position)
    requires Acceptable(start.board) && Safe(start.board, start.turn.Other())
    ensures Follows(p, start.board, start.turn, moves, 0) && p.zobrist == z
    ensures fresh(p) && fresh(p.square) && fresh(p.pieces) && fresh(p.number)
  {
    hide Placed, Safe, ReadText, Tells, Bits, Counts, FenOf, PosKey, Occ, Rationed, BoardAt, MoverAt;
    p := new Position(z);
    var fen := ToFen(start.board, start.turn);
    ReadsBack(start);
    var ok := FromFen(p, fen);
    NothingTold(z, start, moves);
    p.key := PosKey(z, p.square[..], p.turn);
  }

  // ccbrulecheck, as the search calls it: read the start, play the loop, adjudicate.
  method LoopStatus(z: Zobrist, rules: ChaseRules, start: Pos, moves: seq<int>,
                    ghost path: seq<Pos>, ghost row: Pos, ghost j: nat) returns (status: int)
    requires Acceptable(start.board) && Safe(start.board, start.turn.Other())
    requires KeysApart(z, start.board, start.turn, moves) && Closes(path, row, j, moves) && path[j] == start
    ensures 0 <= status <= 3 && (status > 0 <==> row == start)
    ensures row == start ==>
      var mine, theirs := ChecksAlong(start.board, start.turn, moves, 0),
        ChecksAlong(start.board, start.turn, moves, 1);
      (mine && !theirs ==> status == 2) && (theirs && !mine ==> status == 3) && (mine && theirs ==> status == 1)
  {
    hide Related, Unrelated, PlayedOn, KeysApart, Rationed, Safe, Tells, Adjudicates, LegalLine, Bits;
    hide Counts;
    hide BoardAt, MoverAt, Chronicle, Locked, Placed, DecidedFromStart, NthStand, ChecksAlong;
    var p := Set(z, start, moves);
    LineLegal(path, row, j, moves);
    LegalIsPlayable(start.board, start.turn, moves);
    LineEnds(path, row, j, moves);
    var r := CheckLine(p, rules, moves, false, 1, start.board, start.turn);
    JudgedIffSame(z, rules, path, row, j, moves, CourseOf(p), r.value);
    if row == start {
      ComesBack(path, row, j, moves);
    }
    status := StatusOf(r.value);
  }

  lemma NothingTold(z: Zobrist, start: Pos, moves: seq<int>)
    ensures Tells(z, [], start.board, start.turn, moves) && BoardAt(start.board, moves, 0) == start.board
    ensures MoverAt(start.turn, 0) == start.turn
  {
  }
}
