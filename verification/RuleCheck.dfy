// Checking a line of moves by the repetition rules, from the first position on.
module RuleCheck {
  import opened Options
  import opened Geometry
  import opened Rules
  import opened Hashing
  import opened History
  import opened CheckDetection
  import opened Engine
  import opened Generator
  import opened ChaseAttack
  import opened Chase
  import opened Repetition

  // ---- the line as the rules see it ----

  function Play(b: Board, m: int): Board {
    if OnBoard(MoveFrom(m)) && OnBoard(MoveTo(m)) then Apply(b, MoveFrom(m), MoveTo(m)) else b
  }

  function BoardAt(b: Board, moves: seq<int>, i: nat): Board
    requires i <= |moves|
  {
    if i == 0 then b else Play(BoardAt(b, moves, i - 1), moves[i - 1])
  }

  function MoverAt(t: Side, i: nat): Side { if i % 2 == 0 then t else t.Other() }

  ghost predicate LegalAt(b: Board, t: Side, moves: seq<int>, i: nat)
    requires i < |moves|
  {
    Legal(BoardAt(b, moves, i), MoverAt(t, i), MoveFrom(moves[i]), MoveTo(moves[i]))
  }

  // Every move is legal where it is made.
  ghost predicate LegalLine(b: Board, t: Side, moves: seq<int>) {
    forall i :: 0 <= i < |moves| ==> LegalAt(b, t, moves, i)
  }

  // The move respects how the pieces move and takes no king.
  ghost predicate PlayableAt(b: Board, t: Side, moves: seq<int>, i: nat)
    requires i < |moves|
  {
    var c, from, to := BoardAt(b, moves, i), MoveFrom(moves[i]), MoveTo(moves[i]);
    Pseudo(c, MoverAt(t, i), from, to) && !Has(c, to, MoverAt(t, i).Other(), King)
  }

  ghost predicate PlayableLine(b: Board, t: Side, moves: seq<int>) {
    forall i :: 0 <= i < |moves| ==> PlayableAt(b, t, moves, i)
  }

  // Ply i leaves the opponent in check.
  ghost predicate ChecksWith(b: Board, t: Side, moves: seq<int>, i: nat)
    requires i < |moves|
  {
    InCheck(BoardAt(b, moves, i + 1), MoverAt(t, i + 1))
  }

  // It does so in a way that the check detection overlooks.
  ghost predicate Misses(b: Board, t: Side, moves: seq<int>, i: nat)
    requires i < |moves|
  {
    var from, to := MoveFrom(moves[i]), MoveTo(moves[i]);
    OnBoard(from) && OnBoard(to) && Overlooks(BoardAt(b, moves, i), MoverAt(t, i), from, to)
  }

  // Before ply i the opponent is not in check.
  ghost predicate Clear(b: Board, t: Side, moves: seq<int>, i: nat)
    requires i < |moves|
  {
    !InCheck(BoardAt(b, moves, i), MoverAt(t, i + 1))
  }

  // What one stack entry should say of ply i of the line.
  ghost predicate TellsPly(z: Zobrist, h: Played, b: Board, t: Side, moves: seq<int>, i: nat)
    requires i < |moves|
  {
    && h.move == moves[i]
    && h.lock == PosKey(z, BoardAt(b, moves, i), MoverAt(t, i))
    && (OnBoard(MoveTo(moves[i])) ==> h.cap == BoardAt(b, moves, i)[MoveTo(moves[i])])
    && (Clear(b, t, moves, i) ==> (h.check <==> ChecksWith(b, t, moves, i) && !Misses(b, t, moves, i)))
  }

  // The stack tells the truth about the line so far.
  ghost predicate Tells(z: Zobrist, stack: seq<Played>, b: Board, t: Side, moves: seq<int>) {
    |stack| <= |moves| && forall i :: 0 <= i < |stack| ==> TellsPly(z, stack[i], b, t, moves, i)
  }

  // The position after n plies of the line, with the record of it.
  ghost predicate Follows(p: Position, b: Board, t: Side, moves: seq<int>, n: nat)
    reads p, p.square, p.pieces, p.number
  {
    && p.Valid() && p.Keyed() && |p.stack| == n <= |moves|
    && p.Board() == BoardAt(b, moves, n) && p.turn == MoverAt(t, n)
    && Tells(p.zobrist, p.stack, b, t, moves)
  }

  // The kings do not face, and if the move to come is legal it takes no king.
  ghost predicate Verifiable(b: Board, t: Side, moves: seq<int>, i: nat) {
    && i <= |moves| && !Facing(BoardAt(b, moves, i))
    && (i < |moves| && LegalAt(b, t, moves, i) ==>
          !Has(BoardAt(b, moves, i), MoveTo(moves[i]), MoverAt(t, i).Other(), King))
  }

  // Play the line, then adjudicate.  With `verify` the line is refused at its
  // first illegal move; without, the caller vouches for the moves.
  method CheckLine(p: Position, rules: ChaseRules, moves: seq<int>, verify: bool, checkTimes: int, ghost b: Board,
                   ghost t: Side) returns (r: Option<Verdict>)
    requires Follows(p, b, t, moves, 0) && if verify then Verifiable(b, t, moves, 0) else PlayableLine(b, t, moves)
    modifies p`blockers, p`turn, p`key, p`stack, p.square, p.pieces, p.number
    ensures r.None? <==> verify && !LegalLine(b, t, moves)
    ensures r.Some? ==> Follows(p, b, t, moves, |moves|) && Adjudicates(rules, CourseOf(p), checkTimes, r.value)
    ensures r.Some? && Safe(b, t.Other()) && LegalLine(b, t, moves) && KeysApart(p.zobrist, b, t, moves) ==>
      ChecksDecide(b, t, moves, checkTimes, r.value)
  {
    hide Tells, BoardAt, MoverAt, Legal, Adjudicates, PosKey, Rules.InCheck, Chronicle, Locked, Bits, Counts, Occ;
    hide Placed, Facing, Verifiable, PlayableAt, Safe, KeysApart, ChecksDecide;
    StartPlaced(p, b, t, moves);
    for n := 0 to |moves|
      invariant Follows(p, b, t, moves, n) && (verify ==> Verifiable(b, t, moves, n))
      invariant verify ==> forall i :: 0 <= i < n ==> LegalAt(b, t, moves, i)
    {
      var ok := PlayIfLegal(p, moves, n, verify, b, t);
      if !ok { return None; }
    }
    var v := RepCheck(p, rules, checkTimes);
    if Safe(b, t.Other()) && LegalLine(b, t, moves) && KeysApart(p.zobrist, b, t, moves) {
      VerdictOnBoards(p.zobrist, rules, CourseOf(p), b, t, moves, checkTimes, v);
    }
    r := Some(v);
  }

  lemma StartPlaced(p: Position, b: Board, t: Side, moves: seq<int>)
    requires Follows(p, b, t, moves, 0)
    ensures Placed(b)
  {
    hide Placed, Chronicle, Locked, PosKey, Tells;
  }

  method PlayIfLegal(p: Position, moves: seq<int>, n: nat, verify: bool, ghost b: Board, ghost t: Side)
    returns (ok: bool)
    requires n < |moves| && Follows(p, b, t, moves, n)
    requires if verify then Verifiable(b, t, moves, n) else PlayableAt(b, t, moves, n)
    modifies p`blockers, p`turn, p`key, p`stack, p.square, p.pieces, p.number
    ensures !ok <==> verify && !LegalAt(b, t, moves, n)
    ensures ok ==> Follows(p, b, t, moves, n + 1) && (verify ==> Verifiable(b, t, moves, n + 1))
  {
    hide MoveFrom, MoveTo, Bits, Counts, Occ, Placed, Chronicle, Reaches, Facing, Rules.InCheck, PosKey, Locked;
    hide Tells, BoardAt, Overlooks;
    var move := moves[n];
    ok := true;
    if verify {
      ok := MoveIsPseudo(p, move);
      if !ok { return; }
      var inCheck := p.InCheck(p.turn);
      ok := PassesFilter(p, inCheck, move);
      if !ok { return; }
      StaysVerifiable(b, t, moves, n);
    }
    ghost var stack, key := p.stack, p.key;
    p.MoveDo(move);
    LinePlays(b, t, moves, n);
    TellsMore(p.zobrist, stack, p.stack[n], b, t, moves);
  }

  lemma StaysVerifiable(b: Board, t: Side, moves: seq<int>, n: nat)
    requires n < |moves| && LegalAt(b, t, moves, n)
    ensures Verifiable(b, t, moves, n + 1)
  {
    hide MoveFrom, MoveTo, Reaches, Facing, Rules.InCheck, BoardAt;
    LinePlays(b, t, moves, n);
    if n + 1 < |moves| && LegalAt(b, t, moves, n + 1) {
      NoKingToTake(BoardAt(b, moves, n + 1), MoverAt(t, n + 1), MoveFrom(moves[n + 1]), MoveTo(moves[n + 1]));
    }
  }

  lemma LinePlays(b: Board, t: Side, moves: seq<int>, n: nat)
    requires n < |moves| && Pseudo(BoardAt(b, moves, n), MoverAt(t, n), MoveFrom(moves[n]), MoveTo(moves[n]))
    ensures BoardAt(b, moves, n + 1) == Apply(BoardAt(b, moves, n), MoveFrom(moves[n]), MoveTo(moves[n]))
    ensures MoverAt(t, n + 1) == MoverAt(t, n).Other()
  {
  }

  // Legal play from a position whose side not to move is safe takes no king.
  lemma LegalIsPlayable(b: Board, t: Side, moves: seq<int>)
    requires Placed(b) && Safe(b, t.Other()) && LegalLine(b, t, moves)
    ensures PlayableLine(b, t, moves)
  {
    hide MoveFrom, MoveTo, Reaches, Placed, Facing, Rules.InCheck, BoardAt;
    forall i | 0 <= i < |moves|
      ensures PlayableAt(b, t, moves, i)
    {
      PlacedAlong(b, t, moves, i);
      assert LegalAt(b, t, moves, i);
      NoKingToTake(BoardAt(b, moves, i), MoverAt(t, i), MoveFrom(moves[i]), MoveTo(moves[i]));
    }
  }

  lemma TellsMore(z: Zobrist, stack: seq<Played>, h: Played, b: Board, t: Side, moves: seq<int>)
    requires Tells(z, stack, b, t, moves) && |stack| < |moves| && TellsPly(z, h, b, t, moves, |stack|)
    ensures Tells(z, stack + [h], b, t, moves)
  {
    hide TellsPly;
  }

  // ---- what the verdict means on the boards of the line ----

  // Moves i, i + 2, ... of the line all left the opponent in check.
  ghost predicate ChecksAlong(b: Board, t: Side, moves: seq<int>, i: nat) {
    forall j :: i <= j < |moves| && (j - i) % 2 == 0 ==> ChecksWith(b, t, moves, j)
  }

  lemma {:induction false} PlacedAlong(b: Board, t: Side, moves: seq<int>, i: nat)
    requires Placed(b) && Safe(b, t.Other()) && LegalLine(b, t, moves) && i <= |moves|
    ensures Placed(BoardAt(b, moves, i)) && Safe(BoardAt(b, moves, i), MoverAt(t, i).Other())
  {
    hide MoveFrom, MoveTo, Reaches, Placed, Facing, Rules.InCheck;
    if i > 0 {
      PlacedAlong(b, t, moves, i - 1);
      assert LegalAt(b, t, moves, i - 1);
      LinePlays(b, t, moves, i - 1);
      var c, mover, from, to := BoardAt(b, moves, i - 1), MoverAt(t, i - 1), MoveFrom(moves[i - 1]),
        MoveTo(moves[i - 1]);
      NoKingToTake(c, mover, from, to);
      MovesKeepPlaced(c, mover, from, to);
    }
  }

  // In legal play from a position whose side not to move is safe, nothing is missed.
  lemma NothingMissed(b: Board, t: Side, moves: seq<int>, i: nat)
    requires Placed(b) && Safe(b, t.Other()) && LegalLine(b, t, moves) && i < |moves|
    ensures Clear(b, t, moves, i) && !Misses(b, t, moves, i)
  {
    hide MoveFrom, MoveTo, Reaches, Placed, Facing, Rules.InCheck, BoardAt, Overlooks;
    PlacedAlong(b, t, moves, i);
    assert LegalAt(b, t, moves, i);
    var c, mover, from, to := BoardAt(b, moves, i), MoverAt(t, i), MoveFrom(moves[i]), MoveTo(moves[i]);
    NoKingToTake(c, mover, from, to);
    SafeOverlooksNone(c, mover, from, to);
  }

  // All recorded checks of a side are checks by the rules.
  lemma {:induction false} ChecksAreReal(z: Zobrist, stack: seq<Played>, b: Board, t: Side, moves: seq<int>, i: nat)
    requires Tells(z, stack, b, t, moves) && |stack| == |moves| && i <= |moves| && (|moves| - i) % 2 == 0
    requires Placed(b) && Safe(b, t.Other()) && LegalLine(b, t, moves)
    ensures AllMyChecks(stack, i) <==> ChecksAlong(b, t, moves, i)
    ensures AllOppChecks(stack, i) <==> ChecksAlong(b, t, moves, i + 1)
    decreases |moves| - i
  {
    hide BoardAt, MoverAt, Rules.InCheck, PosKey, MoveTo, Safe, Placed, LegalLine, Clear, Misses, ChecksWith;
    if i < |moves| {
      ChecksAreReal(z, stack, b, t, moves, i + 2);
      NothingMissed(b, t, moves, i);
      NothingMissed(b, t, moves, i + 1);
      assert TellsPly(z, stack[i], b, t, moves, i) && TellsPly(z, stack[i + 1], b, t, moves, i + 1);
      ChecksPeel(b, t, moves, i);
      ChecksPeel(b, t, moves, i + 1);
    }
  }

  lemma ChecksPeel(b: Board, t: Side, moves: seq<int>, i: nat)
    requires i < |moves|
    ensures ChecksAlong(b, t, moves, i) <==> ChecksWith(b, t, moves, i) && ChecksAlong(b, t, moves, i + 2)
  {
    hide ChecksWith;
  }

  // No two different positions of the line share a key.
  ghost predicate KeysApart(z: Zobrist, b: Board, t: Side, moves: seq<int>) {
    forall i, j :: 0 <= i <= |moves| && 0 <= j <= |moves| &&
      PosKey(z, BoardAt(b, moves, i), MoverAt(t, i)) == PosKey(z, BoardAt(b, moves, j), MoverAt(t, j))
      ==> BoardAt(b, moves, i) == BoardAt(b, moves, j) && MoverAt(t, i) == MoverAt(t, j)
  }

  // How often, from ply i on in steps of two, the final board stood.
  ghost function Occurrences(b: Board, moves: seq<int>, i: nat): nat
    requires i <= |moves| && (|moves| - i) % 2 == 0
    decreases |moves| - i
  {
    if i == |moves| then 0
    else (if BoardAt(b, moves, i) == BoardAt(b, moves, |moves|) then 1 else 0) + Occurrences(b, moves, i + 2)
  }

  lemma SameMover(t: Side, i: nat, n: nat)
    requires i <= n && (n - i) % 2 == 0
    ensures MoverAt(t, i) == MoverAt(t, n)
  {
  }

  // Counting equal keys is counting occurrences of the position.
  lemma {:induction false} RepeatsAreReal(z: Zobrist, stack: seq<Played>, b: Board, t: Side, moves: seq<int>, i: nat)
    requires Tells(z, stack, b, t, moves) && |stack| == |moves| && KeysApart(z, b, t, moves)
    requires i <= |moves| && (|moves| - i) % 2 == 0
    ensures Repeats(stack, PosKey(z, BoardAt(b, moves, |moves|), MoverAt(t, |moves|)), i) == Occurrences(b, moves, i)
    decreases |moves| - i
  {
    hide BoardAt, MoverAt, Rules.InCheck, PosKey, MoveTo;
    if i < |moves| {
      RepeatsAreReal(z, stack, b, t, moves, i + 2);
      assert TellsPly(z, stack[i], b, t, moves, i);
      SameMover(t, i, |moves|);
    }
  }

  // The position stood for the n-th time at ply i, looking back over play without captures.
  ghost predicate NthStand(b: Board, moves: seq<int>, n: int, i: nat) {
    && i + 2 <= |moves| && (|moves| - i) % 2 == 0
    && (forall j :: i <= j < |moves| ==> QuietAt(b, moves, j))
    && BoardAt(b, moves, i) == BoardAt(b, moves, |moves|) && Occurrences(b, moves, i) == n
  }

  ghost predicate QuietAt(b: Board, moves: seq<int>, j: nat)
    requires j < |moves|
  {
    OnBoard(MoveTo(moves[j])) && BoardAt(b, moves, j)[MoveTo(moves[j])].Empty?
  }

  // Repetition as the engine finds it, by keys and recorded captures, is
  // repetition of the position on the boards of the line.
  lemma RepetitionIsReal(z: Zobrist, stack: seq<Played>, b: Board, t: Side, moves: seq<int>, n: int, i: nat)
    requires Tells(z, stack, b, t, moves) && |stack| == |moves| && PlayableLine(b, t, moves)
    requires KeysApart(z, b, t, moves)
    ensures NthRepeat(stack, PosKey(z, BoardAt(b, moves, |moves|), MoverAt(t, |moves|)), n, i) <==>
      NthStand(b, moves, n, i)
  {
    hide BoardAt, MoverAt, Rules.InCheck, PosKey, MoveTo, MoveFrom;
    if i + 2 <= |moves| && (|moves| - i) % 2 == 0 {
      RepeatsAreReal(z, stack, b, t, moves, i);
      assert TellsPly(z, stack[i], b, t, moves, i);
      SameMover(t, i, |moves|);
      forall j | 0 <= j < |moves|
        ensures stack[j].move != 0 && (stack[j].cap.Empty? <==> QuietAt(b, moves, j))
      {
        assert TellsPly(z, stack[j], b, t, moves, j) && PlayableAt(b, t, moves, j);
        RealMove(moves[j]);
      }
    }
  }

  // The packed null move goes nowhere.
  lemma RealMove(m: int)
    ensures m == 0 ==> MoveFrom(m) == MoveTo(m)
  {
  }

  // ---- the verdict on the boards of the line ----

  // Who is to blame if checks decide, at the position's n-th standing: the side to move gave check
  // with plies i, i + 2, ..., the other with plies i + 1, i + 3, ...
  ghost predicate ChecksDecide(b: Board, t: Side, moves: seq<int>, n: int, v: Verdict) {
    && (v == NoRepetition <==> 4 * n > |moves| || forall i: nat :: !NthStand(b, moves, n, i))
    && forall i: nat :: NthStand(b, moves, n, i) && 4 * n <= |moves| ==> BlamesChecks(b, t, moves, i, v)
  }

  ghost predicate BlamesChecks(b: Board, t: Side, moves: seq<int>, i: nat, v: Verdict) {
    var mine, theirs := ChecksAlong(b, t, moves, i), ChecksAlong(b, t, moves, i + 1);
    && (mine && !theirs ==> v == MeBan)
    && (theirs && !mine ==> v == OppBan)
    && (mine && theirs ==> v == Draw)
  }

  lemma VerdictOnBoards(z: Zobrist, rules: ChaseRules, l: Course, b: Board, t: Side, moves: seq<int>, n: int,
                        v: Verdict)
    requires Placed(b) && Safe(b, t.Other()) && LegalLine(b, t, moves) && KeysApart(z, b, t, moves)
    requires Tells(z, l.stack, b, t, moves) && |l.stack| == |moves|
    requires l.key == PosKey(z, BoardAt(b, moves, |moves|), MoverAt(t, |moves|)) && Adjudicates(rules, l, n, v)
    ensures ChecksDecide(b, t, moves, n, v)
  {
    hide *;
    LegalIsPlayable(b, t, moves);
    forall i: nat
      ensures NthRepeat(l.stack, l.key, n, i) <==> NthStand(b, moves, n, i)
    {
      RepetitionIsReal(z, l.stack, b, t, moves, n, i);
    }
    AnyVerdict(rules, l, b, moves, n, v);
    forall i: nat | NthStand(b, moves, n, i) && 4 * n <= |moves|
      ensures BlamesChecks(b, t, moves, i, v)
    {
      StandsEvenly(b, moves, n, i);
      ChecksAreReal(z, l.stack, b, t, moves, i);
      BlamesAt(rules, l, b, t, moves, n, i, v);
    }
    Decided(b, t, moves, n, v);
  }

  lemma AnyVerdict(rules: ChaseRules, l: Course, b: Board, moves: seq<int>, n: int, v: Verdict)
    requires Adjudicates(rules, l, n, v) && |l.stack| == |moves|
    requires forall i: nat :: NthRepeat(l.stack, l.key, n, i) <==> NthStand(b, moves, n, i)
    ensures v == NoRepetition <==> 4 * n > |moves| || forall i: nat :: !NthStand(b, moves, n, i)
  {
    hide NthRepeat, NthStand, VerdictAt;
  }

  lemma Decided(b: Board, t: Side, moves: seq<int>, n: int, v: Verdict)
    requires v == NoRepetition <==> 4 * n > |moves| || forall i: nat :: !NthStand(b, moves, n, i)
    requires forall i: nat :: NthStand(b, moves, n, i) && 4 * n <= |moves| ==> BlamesChecks(b, t, moves, i, v)
    ensures ChecksDecide(b, t, moves, n, v)
  {
    hide NthStand, BlamesChecks;
  }

  lemma BlamesAt(rules: ChaseRules, l: Course, b: Board, t: Side, moves: seq<int>, n: int, i: nat, v: Verdict)
    requires NthRepeat(l.stack, l.key, n, i) && |l.stack| == |moves|
    requires AllMyChecks(l.stack, i) <==> ChecksAlong(b, t, moves, i)
    requires AllOppChecks(l.stack, i) <==> ChecksAlong(b, t, moves, i + 1)
    requires 4 * n <= |moves| && Adjudicates(rules, l, n, v)
    ensures BlamesChecks(b, t, moves, i, v)
  {
    hide AllMyChecks, AllOppChecks, ChecksAlong, ChaseFlags;
    assert v == VerdictAt(rules, l, i);
    hide Adjudicates, NthRepeat;
  }

  lemma StandsEvenly(b: Board, moves: seq<int>, n: int, i: nat)
    requires NthStand(b, moves, n, i)
    ensures i + 2 <= |moves| && (|moves| - i) % 2 == 0
  {
  }
}
