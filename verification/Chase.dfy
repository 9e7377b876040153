// Chasing: does a side attack an unguarded piece of the other with every move of a
// repetition?  The routines rewind and replay the board in place; each returns what
// the boards of the line say and hands the board back as it found it.
module Chase {
  import opened Geometry
  import opened Rules
  import opened Attacks
  import opened Bitboards
  import opened History
  import opened Engine
  import opened Rewinding
  import opened ChaseAttack

  // ---- the line of a repetition ----

  // Who is banned.
  datatype Flags = Flags(me: bool, opp: bool)

  // The position, the play that led to it and its key: the side to move is `me`.
  datatype Course = Course(board: Board, turn: Side, stack: seq<Played>, key: bv64)

  // The stack records quiet play from ply lo on, where the same key stood with the same side to move.
  ghost predicate Cycle(l: Course, lo: int) {
    && Chronicle(l.board, l.turn, l.stack) && 0 <= lo <= |l.stack| - 2 && (|l.stack| - lo) % 2 == 0
    && Quiet(l.stack, lo) && l.stack[lo].lock == l.key
  }

  // The position is somewhere on the line, at ply ix.
  ghost predicate On(p: Position, l: Course, ix: int)
    reads p, p.square, p.pieces, p.number
  {
    At(p, l.board, ix) && p.stack == l.stack && p.key == l.key && p.turn == l.turn
  }

  ghost function CourseOf(p: Position): Course
    requires p.Agrees()
    reads p, p.square, p.pieces, p.number
  {
    Course(p.Board(), p.turn, p.stack, p.key)
  }

  // Where the scan back from ply ix in steps of two finds the key again.
  function Since(stack: seq<Played>, key: bv64, ix: int): (c: int)
    requires ix < |stack|
    ensures c <= ix && (ix - c) % 2 == 0 && (c >= 0 ==> stack[c].lock == key) && (ix >= -2 ==> c >= -2)
    decreases ix + 2
  {
    if ix < 0 || stack[ix].lock == key then ix else Since(stack, key, ix - 2)
  }

  // Ply ix was played by the side that is to move.
  predicate Mine(stack: seq<Played>, ix: int) { (|stack| - ix) % 2 == 0 }

  lemma MineStep(stack: seq<Played>, ix: int)
    ensures Mine(stack, ix) <==> Mine(stack, ix - 2)
    ensures Mine(stack, |stack|)
  {
  }

  // Ply ix is my move and ply ix + 1 the answer, at or after ply c.
  predicate Round(stack: seq<Played>, c: int, ix: int) { 0 <= ix && c <= ix <= |stack| - 2 && Mine(stack, ix) }

  // Inside the cycle the last ply can be questioned and taken back.
  lemma InCycle(p: Position, l: Course, lo: int, ix: int)
    requires Cycle(l, lo) && lo < ix <= |l.stack| && At(p, l.board, ix) && p.stack == l.stack
    ensures var h := l.stack[ix - 1];
      LastQuiet(p.Board(), MoveFrom(h.move), MoveTo(h.move)) && h.cap.Empty? && OnBoard(MoveFrom(h.move)) &&
        OnBoard(MoveTo(h.move))
  {
    hide MoveFrom, MoveTo, Chronicle, Rewind, Bits, Counts, Occ, Apply;
    QuietStep(l.board, l.turn, l.stack, ix);
  }

  lemma CycleMoves(l: Course, lo: int, ix: int)
    requires Cycle(l, lo) && lo <= ix < |l.stack|
    ensures OnBoard(MoveFrom(l.stack[ix].move)) && OnBoard(MoveTo(l.stack[ix].move))
  {
    hide MoveFrom, MoveTo, Chronicle, Rewind, Apply;
    QuietStep(l.board, l.turn, l.stack, ix + 1);
  }

  // ---- chasing a piece that keeps moving ----

  function Asking(h: Played, sq: int, passive: bool): Query { Query(MoveFrom(h.move), MoveTo(h.move), sq, passive) }

  // Ply i of the line attacks the square.
  ghost predicate HitsAt(rules: ChaseRules, l: Course, i: nat, sq: int, passive: bool)
    requires i < |l.stack|
  {
    var b, q := Rewind(l.board, l.stack, i + 1), Asking(l.stack[i], sq, passive);
    Asked(b, q) && Hits(rules, b, q)
  }

  // Some legal capture of `target` would leave it unguarded.
  ghost predicate TakesFree(rules: ChaseRules, b: Board, turn: Side, target: int) {
    exists m :: m in rules.chaseLegals(b, turn) && MoveTo(m) == target && !rules.guarded(b, target, MoveFrom(m))
  }

  // My ply attacks the piece that then moves away, which could not be taken before.
  ghost predicate MeChasesAt(rules: ChaseRules, l: Course, ix: nat)
    requires ix + 2 <= |l.stack|
  {
    var target := MoveFrom(l.stack[ix + 1].move);
    HitsAt(rules, l, ix, target, false) && !TakesFree(rules, Rewind(l.board, l.stack, ix), l.turn, target)
  }

  // The answer attacks the piece that I moved, which the opponent could not take before.
  ghost predicate OppChasesAt(rules: ChaseRules, l: Course, ix: nat)
    requires ix + 2 <= |l.stack|
  {
    var target := MoveTo(l.stack[ix].move);
    HitsAt(rules, l, ix + 1, target, false) &&
      !TakesFree(rules, Rewind(l.board, l.stack, ix + 1), l.turn.Other(), target)
  }

  // One piece of the opponent moves all the time, and I never check; and the other way round.
  ghost predicate MeSteadyAt(stack: seq<Played>, ix: nat)
    requires ix + 2 <= |stack|
  {
    !stack[ix].check && (ix + 4 <= |stack| ==> MoveFrom(stack[ix + 3].move) == MoveTo(stack[ix + 1].move))
  }

  ghost predicate OppSteadyAt(stack: seq<Played>, ix: nat)
    requires ix + 2 <= |stack|
  {
    !stack[ix + 1].check && (ix + 4 <= |stack| ==> MoveFrom(stack[ix + 2].move) == MoveTo(stack[ix].move))
  }

  // Both, at every round from ply c on.
  ghost predicate MeSteady(stack: seq<Played>, c: int) { forall ix :: Round(stack, c, ix) ==> MeSteadyAt(stack, ix) }

  ghost predicate OppSteady(stack: seq<Played>, c: int) { forall ix :: Round(stack, c, ix) ==> OppSteadyAt(stack, ix) }

  ghost predicate MeChases(rules: ChaseRules, l: Course, c: int) {
    forall ix :: Round(l.stack, c, ix) ==> MeChasesAt(rules, l, ix)
  }

  ghost predicate OppChases(rules: ChaseRules, l: Course, c: int) {
    forall ix :: Round(l.stack, c, ix) ==> OppChasesAt(rules, l, ix)
  }

  // Who chases a moving piece with every move since the position last stood.
  ghost function MoveCatch(rules: ChaseRules, l: Course): Flags
    requires |l.stack| >= 2
  {
    var n := |l.stack|;
    var from, c := Since(l.stack, l.key, n - 4), Since(l.stack, l.key, n - 2);
    Flags(MeSteady(l.stack, from) && MeChases(rules, l, c), OppSteady(l.stack, from) && OppChases(rules, l, c))
  }

  // One round more, counting back.
  lemma SteadyRound(stack: seq<Played>, c: nat)
    requires c <= |stack| - 2 && Mine(stack, c)
    ensures MeSteady(stack, c) <==> MeSteadyAt(stack, c) && MeSteady(stack, c + 2)
    ensures OppSteady(stack, c) <==> OppSteadyAt(stack, c) && OppSteady(stack, c + 2)
  {
    hide MeSteadyAt, OppSteadyAt;
    RoundsMore(stack, c);
    assert Round(stack, c, c);
  }

  lemma RoundsMore(stack: seq<Played>, c: int)
    requires 0 <= c <= |stack| - 2 && Mine(stack, c)
    ensures forall ix {:trigger Round(stack, c, ix)} {:trigger Round(stack, c + 2, ix)} :: Round(stack, c, ix) <==>
      ix == c || Round(stack, c + 2, ix)
  {
  }

  lemma NoRound(stack: seq<Played>)
    ensures MeSteady(stack, |stack|) && OppSteady(stack, |stack|)
  {
  }

  lemma SteadyFurther(stack: seq<Played>, c: int, ix: int)
    requires c <= ix
    ensures MeSteady(stack, c) ==> MeSteady(stack, ix)
    ensures OppSteady(stack, c) ==> OppSteady(stack, ix)
  {
  }

  lemma SinceStart(stack: seq<Played>, key: bv64, ix: int)
    requires -2 <= ix < 0
    ensures Since(stack, key, ix) == ix
  {
  }

  lemma SteadyFromStart(stack: seq<Played>, c: int)
    requires -2 <= c < 0 && Mine(stack, c)
    ensures MeSteady(stack, c) <==> MeSteady(stack, c + 2)
    ensures OppSteady(stack, c) <==> OppSteady(stack, c + 2)
  {
    forall ix
      ensures Round(stack, c, ix) <==> Round(stack, c + 2, ix)
    {
    }
  }

  lemma SteadyLast(stack: seq<Played>)
    requires |stack| >= 2
    ensures var n := |stack|;
      MeSteady(stack, n - 2) == !stack[n - 2].check && OppSteady(stack, n - 2) == !stack[n - 1].check
  {
    NoRound(stack);
    SteadyRound(stack, |stack| - 2);
    hide MeSteady, OppSteady;
  }

  lemma SteadyAtIs(stack: seq<Played>, ix: nat)
    requires ix + 4 <= |stack|
    ensures MeSteadyAt(stack, ix) <==> !stack[ix].check && MoveFrom(stack[ix + 3].move) == MoveTo(stack[ix + 1].move)
    ensures OppSteadyAt(stack, ix) <==> !stack[ix + 1].check && MoveFrom(stack[ix + 2].move) == MoveTo(stack[ix].move)
  {
    hide MoveFrom, MoveTo;
  }

  // What the scan back over one round settles.
  lemma SteadyBack(stack: seq<Played>, key: bv64, from: int, ix: nat, f: Flags, g: Flags)
    requires ix + 4 <= |stack| && Mine(stack, ix) && from == Since(stack, key, ix)
    requires f == Flags(MeSteady(stack, ix + 2), OppSteady(stack, ix + 2))
    requires g == Flags(f.me && MeSteadyAt(stack, ix), f.opp && OppSteadyAt(stack, ix))
    ensures g == Flags(MeSteady(stack, ix), OppSteady(stack, ix))
    ensures (!g.me && !g.opp) || stack[ix].lock == key ==> g == Flags(MeSteady(stack, from), OppSteady(stack, from))
    ensures stack[ix].lock != key ==> from == Since(stack, key, ix - 2)
  {
    SteadyRound(stack, ix);
    SteadyFurther(stack, from, ix);
    hide MeSteady, OppSteady, MeSteadyAt, OppSteadyAt;
  }

  method FreeCapture(rules: ChaseRules, b: Board, turn: Side, target: int) returns (r: bool)
    ensures r == TakesFree(rules, b, turn, target)
  {
    hide MoveFrom, MoveTo;
    var list := rules.chaseLegals(b, turn);
    for i := 0 to |list|
      invariant forall m :: m in list[..i] ==> !(MoveTo(m) == target && !rules.guarded(b, target, MoveFrom(m)))
    {
      if MoveTo(list[i]) == target && !rules.guarded(b, target, MoveFrom(list[i])) {
        return true;
      }
      assert list[..i + 1] == list[..i] + [list[i]];
    }
    assert list[..|list|] == list;
    return false;
  }

  // Can either side be chasing at all: no checks, always the same piece moving on.
  method OnePieceEach(stack: seq<Played>, key: bv64) returns (f: Flags)
    requires |stack| >= 2
    ensures var from := Since(stack, key, |stack| - 4); f == Flags(MeSteady(stack, from), OppSteady(stack, from))
  {
    hide MoveFrom, MoveTo;
    var ply := |stack|;
    var meLast, oppLast := stack[ply - 2].move, stack[ply - 1].move;
    f := Flags(!stack[ply - 2].check, !stack[ply - 1].check);
    var ix := ply - 4;
    ghost var from := Since(stack, key, ply - 4);
    MineStep(stack, ply);
    MineStep(stack, ply - 2);
    SteadyLast(stack);
    hide *;
    while ix >= 0
      invariant -2 <= ix <= ply - 4 && Mine(stack, ix) && from == Since(stack, key, ix)
      invariant meLast == stack[ix + 2].move && oppLast == stack[ix + 3].move
      invariant f == Flags(MeSteady(stack, ix + 2), OppSteady(stack, ix + 2))
    {
      var meMove, oppMove := stack[ix], stack[ix + 1];
      ghost var before := f;
      f := Flags(f.me && !meMove.check && MoveFrom(oppLast) == MoveTo(oppMove.move),
                 f.opp && !oppMove.check && MoveFrom(meLast) == MoveTo(meMove.move));
      SteadyAtIs(stack, ix);
      SteadyBack(stack, key, from, ix, before, f);
      if !f.me && !f.opp { return; }
      if key == meMove.lock { return; }
      meLast, oppLast := meMove.move, oppMove.move;
      MineStep(stack, ix);
      ix := ix - 2;
    }
    SinceStart(stack, key, ix);
    SteadyFromStart(stack, from);
  }

  // ---- one round of a chase ----

  // Question the last ply made on the line.
  method LastHits(p: Position, rules: ChaseRules, ghost l: Course, ghost lo: int, i: nat, sq: int, passive: bool)
    returns (r: bool)
    requires Cycle(l, lo) && lo <= i < |l.stack| && On(p, l, i + 1) && OnBoard(sq)
    modifies p`blockers, p.square, p.pieces
    ensures On(p, l, i + 1) && r == HitsAt(rules, l, i, sq, passive)
  {
    hide MoveFrom, MoveTo, Chronicle, Rewind, Bits, Counts, Occ, Apply, Movable, LastQuiet, Hits;
    InCycle(p, l, lo, i + 1);
    r := MoveAttackSq(p, rules, Asking(p.stack[i], sq, passive));
  }

  method TakeBack(p: Position, ghost l: Course, ghost lo: int, ix: int)
    requires Cycle(l, lo) && lo < ix <= |l.stack| && On(p, l, ix)
    modifies p`blockers, p.square, p.pieces
    ensures On(p, l, ix - 1)
  {
    hide MoveFrom, MoveTo, Chronicle, Rewind, Bits, Counts, Occ, Apply, Movable, LastQuiet;
    InCycle(p, l, lo, ix);
    StepBack(p, l.board, l.turn, ix);
  }

  // Question and take back the answer ix + 1.
  method OppRound(p: Position, rules: ChaseRules, ghost l: Course, ghost lo: int, ix: int, f: Flags) returns (g: Flags)
    requires Cycle(l, lo) && lo <= ix <= |l.stack| - 2 && On(p, l, ix + 2)
    modifies p`blockers, p`turn, p.square, p.pieces
    ensures On(p, l, ix + 1) && g == f.(opp := f.opp && OppChasesAt(rules, l, ix))
  {
    hide MoveFrom, MoveTo, Cycle, At, HitsAt, TakesFree, Bits, Counts;
    CycleBounds(l, lo);
    var me, opp := p.stack[ix].move, p.stack[ix + 1].move;
    CycleMoves(l, lo, ix);
    g := f;
    if g.opp {
      var attacks := LastHits(p, rules, l, lo, ix + 1, MoveTo(me), false);
      g := g.(opp := attacks);
    }
    TakeBack(p, l, lo, ix + 2);
    if g.opp {
      BoardHere(p, l, ix + 1);
      p.turn := p.turn.Other();
      var escapes := FreeCapture(rules, p.square[..], p.turn, MoveTo(me));
      g := g.(opp := !escapes);
      p.turn := p.turn.Other();
    }
  }

  lemma BoardHere(p: Position, l: Course, ix: int)
    requires On(p, l, ix)
    ensures 0 <= ix <= |l.stack| && p.square[..] == Rewind(l.board, l.stack, ix) && p.Agrees()
  {
    hide Rewind, Bits, Counts, Occ;
  }

  // Question my own ply ix and, if anyone is still chasing, take it back too.
  method MeRound(p: Position, rules: ChaseRules, ghost l: Course, ghost lo: int, ix: int, f: Flags)
    returns (g: Flags, undoIx: int)
    requires Cycle(l, lo) && lo <= ix <= |l.stack| - 2 && On(p, l, ix + 1)
    modifies p`blockers, p.square, p.pieces
    ensures On(p, l, undoIx) && ix <= undoIx <= ix + 1 && (g.me || g.opp ==> undoIx == ix)
    ensures g == f.(me := f.me && MeChasesAt(rules, l, ix))
  {
    hide MoveFrom, MoveTo, Cycle, At, HitsAt, TakesFree, Bits, Counts;
    CycleBounds(l, lo);
    var me, opp := p.stack[ix].move, p.stack[ix + 1].move;
    g, undoIx := f, ix + 1;
    if g.me {
      CycleMoves(l, lo, ix + 1);
      var attacks := LastHits(p, rules, l, lo, ix, MoveFrom(opp), false);
      g := g.(me := attacks);
    }
    if !g.me && !g.opp { return; }
    TakeBack(p, l, lo, ix + 1);
    undoIx := ix;
    if g.me {
      BoardHere(p, l, ix);
      var escapes := FreeCapture(rules, p.square[..], p.turn, MoveFrom(opp));
      g := g.(me := !escapes);
    }
  }

  // Everything undone is made again.
  method Return(p: Position, ghost l: Course, ghost lo: int, undoIx: int)
    requires Cycle(l, lo) && lo <= undoIx && On(p, l, undoIx)
    modifies p`blockers, p.square, p.pieces
    ensures On(p, l, |l.stack|) && Stands(p, l.board)
  {
    hide Rewind, Bits, Counts, Occ, Chronicle;
    Replay(p, l.board, l.turn, undoIx);
    RewindNone(l.board, l.stack);
  }

  lemma CycleBounds(l: Course, lo: int)
    requires Cycle(l, lo)
    ensures 0 <= lo <= |l.stack| - 2 && Mine(l.stack, lo)
  {
    hide Chronicle, Quiet;
  }

  lemma StillInCycle(l: Course, lo: int, ix: int)
    requires Cycle(l, lo) && lo <= ix < |l.stack| && Mine(l.stack, ix) && l.stack[ix].lock != l.key
    ensures lo <= ix - 2
  {
    hide Chronicle, Quiet;
  }

  ghost predicate ChasesFrom(rules: ChaseRules, l: Course, from: int, c: int, f: Flags) {
    f == Flags(MeSteady(l.stack, from) && MeChases(rules, l, c), OppSteady(l.stack, from) && OppChases(rules, l, c))
  }

  // The flags after one round more.
  lemma ChasesBack(rules: ChaseRules, l: Course, from: int, c: int, ix: nat, f: Flags, g: Flags)
    requires ix + 2 <= |l.stack| && Mine(l.stack, ix) && c == Since(l.stack, l.key, ix)
    requires ChasesFrom(rules, l, from, ix + 2, f)
    requires g == Flags(f.me && MeChasesAt(rules, l, ix), f.opp && OppChasesAt(rules, l, ix))
    ensures ChasesFrom(rules, l, from, ix, g)
    ensures (!g.me && !g.opp) || l.stack[ix].lock == l.key ==> ChasesFrom(rules, l, from, c, g)
    ensures l.stack[ix].lock != l.key ==> c == Since(l.stack, l.key, ix - 2)
  {
    hide MeChasesAt, OppChasesAt, MeSteady, OppSteady;
    RoundsMore(l.stack, ix);
    assert Round(l.stack, ix, ix);
  }

  lemma ChasesNone(rules: ChaseRules, l: Course, from: int)
    ensures ChasesFrom(rules, l, from, |l.stack|, Flags(MeSteady(l.stack, from), OppSteady(l.stack, from)))
  {
    hide MeChasesAt, OppChasesAt, MeSteady, OppSteady;
  }

  lemma ChasesAll(rules: ChaseRules, l: Course, from: int, c: int, f: Flags)
    requires |l.stack| >= 2 && from == Since(l.stack, l.key, |l.stack| - 4) && c == Since(l.stack, l.key, |l.stack| - 2)
    requires ChasesFrom(rules, l, from, c, f)
    ensures f == MoveCatch(rules, l)
  {
    hide MeChases, OppChases, MeSteady, OppSteady;
  }

  method CheckMoveCatch(p: Position, rules: ChaseRules, ghost l: Course, ghost lo: int) returns (f: Flags)
    requires Cycle(l, lo) && On(p, l, |l.stack|)
    modifies p`blockers, p`turn, p.square, p.pieces
    ensures On(p, l, |l.stack|) && f == MoveCatch(rules, l)
  {
    hide Cycle, At, MeChasesAt, OppChasesAt, MeSteady, OppSteady, ChasesFrom, Mine, Since;
    CycleBounds(l, lo);
    f := OnePieceEach(p.stack, p.key);
    ghost var n := |l.stack|;
    ghost var from, c := Since(l.stack, l.key, n - 4), Since(l.stack, l.key, n - 2);
    if !f.me && !f.opp { return; }
    hide MoveCatch;
    var undoIx := |p.stack|;
    var ix := |p.stack| - 2;
    MineStep(l.stack, n);
    ChasesNone(rules, l, from);
    while ix >= 0
      invariant lo <= ix && undoIx == ix + 2 <= n && Mine(l.stack, ix) && c == Since(l.stack, l.key, ix)
      invariant On(p, l, undoIx) && ChasesFrom(rules, l, from, ix + 2, f)
      decreases ix
    {
      ghost var before := f;
      f := OppRound(p, rules, l, lo, ix, f);
      f, undoIx := MeRound(p, rules, l, lo, ix, f);
      ChasesBack(rules, l, from, c, ix, before, f);
      if !f.me && !f.opp { break; }
      if p.key == p.stack[ix].lock { break; }
      MineStep(l.stack, ix);
      StillInCycle(l, lo, ix);
      ix := ix - 2;
    }
    ChasesAll(rules, l, from, c, f);
    Return(p, l, lo, undoIx);
  }

  // ---- chasing a piece that does not move ----

  // A rook taken by a lesser piece.
  predicate Cheap(b: Board, sq: int, from: int)
    requires OnBoard(sq)
  {
    var taker := if OnBoard(from) then b[from] else Empty;
    KindAt(b[sq], Rook) && !KindAt(taker, Rook) && !KindAt(taker, Bishop) && !KindAt(taker, Advisor)
  }

  // Some legal capture of sq breaks the chase.
  ghost predicate Escapes(rules: ChaseRules, b: Board, turn: Side, sq: int)
    requires OnBoard(sq)
  {
    exists m :: m in rules.chaseLegals(b, turn) && MoveTo(m) == sq
      && (rules.inCheck(b, turn) || Cheap(b, sq, MoveFrom(m)) || !rules.guarded(b, sq, MoveFrom(m)))
  }

  method StaticEscape(rules: ChaseRules, b: Board, turn: Side, sq: int) returns (r: bool)
    requires OnBoard(sq)
    ensures r == Escapes(rules, b, turn, sq)
  {
    hide MoveFrom, MoveTo, Cheap;
    var inCheck, list := rules.inCheck(b, turn), rules.chaseLegals(b, turn);
    for i := 0 to |list|
      invariant forall m :: m in list[..i] ==>
        !(MoveTo(m) == sq && (inCheck || Cheap(b, sq, MoveFrom(m)) || !rules.guarded(b, sq, MoveFrom(m))))
    {
      var from := MoveFrom(list[i]);
      if MoveTo(list[i]) == sq {
        if inCheck || Cheap(b, sq, from) || !rules.guarded(b, sq, from) { return true; }
      }
      assert list[..i + 1] == list[..i] + [list[i]];
    }
    assert list[..|list|] == list;
    return false;
  }

  predicate PinnedRook(rules: ChaseRules, b: Board, sq: int)
    requires OnBoard(sq)
  {
    KindAt(b[sq], Rook) && rules.knightPinned(b, sq)
  }

  // My ply ix attacks the opponent's piece on sq, and before it no capture of it was of use.
  ghost predicate MeHoldsAt(rules: ChaseRules, l: Course, sq: int, ix: nat)
    requires ix + 2 <= |l.stack| && OnBoard(sq)
  {
    && Own(Rewind(l.board, l.stack, ix + 1), sq, l.turn.Other()) && HitsAt(rules, l, ix, sq, true)
    && !Escapes(rules, Rewind(l.board, l.stack, ix), l.turn, sq)
  }

  // The answer ix + 1 attacks my piece on sq, and before it no capture of it was of use.
  ghost predicate OppHoldsAt(rules: ChaseRules, l: Course, sq: int, ix: nat)
    requires ix + 2 <= |l.stack| && OnBoard(sq)
  {
    && Own(Rewind(l.board, l.stack, ix + 2), sq, l.turn) && HitsAt(rules, l, ix + 1, sq, true)
    && !Escapes(rules, Rewind(l.board, l.stack, ix + 1), l.turn.Other(), sq)
  }

  ghost predicate HoldsAt(rules: ChaseRules, l: Course, mine: bool, sq: int, ix: nat)
    requires ix + 2 <= |l.stack| && OnBoard(sq)
  {
    if mine then MeHoldsAt(rules, l, sq, ix) else OppHoldsAt(rules, l, sq, ix)
  }

  // The chased piece is then a rook that cannot leave.
  ghost predicate PinsAt(rules: ChaseRules, l: Course, mine: bool, sq: int, ix: nat)
    requires ix + 2 <= |l.stack| && OnBoard(sq)
  {
    PinnedRook(rules, Rewind(l.board, l.stack, if mine then ix else ix + 1), sq)
  }

  ghost predicate HoldsOn(rules: ChaseRules, l: Course, mine: bool, sq: int, c: int)
    requires OnBoard(sq)
  {
    forall ix :: Round(l.stack, c, ix) ==> HoldsAt(rules, l, mine, sq, ix)
  }

  ghost predicate PinsOn(rules: ChaseRules, l: Course, mine: bool, sq: int, c: int)
    requires OnBoard(sq)
  {
    exists ix :: Round(l.stack, c, ix) && PinsAt(rules, l, mine, sq, ix)
  }

  // The line one ply earlier, seen by the other side.
  ghost function Earlier(l: Course, key: bv64): Course
    requires l.stack != []
  {
    var n := |l.stack| - 1;
    Course(Undo(l.board, l.stack[n]), l.turn.Other(), l.stack[..n], key)
  }

  // The two sides are treated alike: what is asked of the opponent is what is asked of the side to
  // move one ply earlier, for a piece that stands still ...
  lemma StaticSidesAgree(rules: ChaseRules, l: Course, key: bv64, sq: int, ix: nat)
    requires ix + 4 <= |l.stack| && OnBoard(sq)
    ensures OppHoldsAt(rules, l, sq, ix) <==> MeHoldsAt(rules, Earlier(l, key), sq, ix + 1)
    ensures PinsAt(rules, l, false, sq, ix) <==> PinsAt(rules, Earlier(l, key), true, sq, ix + 1)
  {
    hide Hits, Escapes, Undo, MoveFrom, MoveTo;
  }

  // ... and for one that keeps moving.
  lemma MovingSidesAgree(rules: ChaseRules, l: Course, key: bv64, ix: nat)
    requires ix + 4 <= |l.stack| && OppSteadyAt(l.stack, ix)
    ensures OppChasesAt(rules, l, ix) <==> MeChasesAt(rules, Earlier(l, key), ix + 1)
  {
    hide Hits, TakesFree, Undo, MoveFrom, MoveTo;
  }

  // Chased at every round since the position last stood: 0 no, 1 yes, 2 a rook that could not leave.
  ghost function StaticBan(rules: ChaseRules, l: Course, mine: bool, sq: int, c: int): nat
    requires OnBoard(sq)
  {
    if !HoldsOn(rules, l, mine, sq, c) then 0 else if PinsOn(rules, l, mine, sq, c) then 2 else 1
  }

  // What one round more tells.
  lemma StaticBack(rules: ChaseRules, l: Course, mine: bool, sq: int, c: int, ix: nat)
    requires OnBoard(sq) && ix + 2 <= |l.stack| && Mine(l.stack, ix) && c == Since(l.stack, l.key, ix)
    requires HoldsOn(rules, l, mine, sq, ix + 2)
    ensures if HoldsAt(rules, l, mine, sq, ix) then
        && HoldsOn(rules, l, mine, sq, ix)
        && StaticBan(rules, l, mine, sq, ix)
          == if PinsAt(rules, l, mine, sq, ix) then 2 else StaticBan(rules, l, mine, sq, ix + 2)
      else StaticBan(rules, l, mine, sq, c) == 0
    ensures if l.stack[ix].lock == l.key then c == ix else c == Since(l.stack, l.key, ix - 2)
  {
    hide HoldsAt, PinsAt;
    RoundsMore(l.stack, ix);
    assert Round(l.stack, ix, ix) && Round(l.stack, c, ix);
  }

  lemma StaticNone(rules: ChaseRules, l: Course, mine: bool, sq: int)
    requires OnBoard(sq)
    ensures HoldsOn(rules, l, mine, sq, |l.stack|) && StaticBan(rules, l, mine, sq, |l.stack|) == 1
  {
  }

  // One round of my chase.
  method MeStaticRound(p: Position, rules: ChaseRules, ghost l: Course, ghost lo: int, sq: int, ix: int)
    returns (holds: bool, pins: bool, undoIx: int)
    requires Cycle(l, lo) && lo <= ix <= |l.stack| - 2 && On(p, l, ix + 2) && OnBoard(sq)
    modifies p`blockers, p.square, p.pieces
    ensures On(p, l, undoIx) && ix <= undoIx <= ix + 1 && (holds ==> undoIx == ix)
    ensures holds == HoldsAt(rules, l, true, sq, ix) && (holds ==> pins == PinsAt(rules, l, true, sq, ix))
  {
    hide MoveFrom, MoveTo, Cycle, At, HitsAt, Escapes, PinnedRook, Bits, Counts;
    CycleBounds(l, lo);
    holds, pins, undoIx := false, false, ix + 1;
    TakeBack(p, l, lo, ix + 2);
    BoardHere(p, l, ix + 1);
    if p.square[sq].Empty? || p.square[sq].side == p.turn { return; }
    var chased := LastHits(p, rules, l, lo, ix, sq, true);
    if !chased { return; }
    TakeBack(p, l, lo, ix + 1);
    undoIx := ix;
    BoardHere(p, l, ix);
    pins := PinnedRook(rules, p.square[..], sq);
    var escapes := StaticEscape(rules, p.square[..], p.turn, sq);
    holds := !escapes;
  }

  // One round of the opponent's, who made the last ply.
  method OppStaticRound(p: Position, rules: ChaseRules, ghost l: Course, ghost lo: int, sq: int, ix: int)
    returns (holds: bool, pins: bool, undoIx: int)
    requires Cycle(l, lo) && lo <= ix <= |l.stack| - 2 && On(p, l, ix + 2) && OnBoard(sq)
    modifies p`blockers, p`turn, p.square, p.pieces
    ensures On(p, l, undoIx) && ix + 1 <= undoIx <= ix + 2 && (holds ==> undoIx == ix + 1)
    ensures holds == HoldsAt(rules, l, false, sq, ix) && (holds ==> pins == PinsAt(rules, l, false, sq, ix))
  {
    hide MoveFrom, MoveTo, Cycle, At, HitsAt, Escapes, PinnedRook, Bits, Counts;
    CycleBounds(l, lo);
    holds, pins, undoIx := false, false, ix + 2;
    BoardHere(p, l, ix + 2);
    if p.square[sq].Empty? || p.square[sq].side != p.turn { return; }
    var chased := LastHits(p, rules, l, lo, ix + 1, sq, true);
    if !chased { return; }
    TakeBack(p, l, lo, ix + 2);
    undoIx := ix + 1;
    BoardHere(p, l, ix + 1);
    p.turn := p.turn.Other();
    pins := PinnedRook(rules, p.square[..], sq);
    var escapes := StaticEscape(rules, p.square[..], p.turn, sq);
    p.turn := p.turn.Other();
    holds := !escapes;
  }

  method MeStaticCatch(p: Position, rules: ChaseRules, ghost l: Course, ghost lo: int, sq: int) returns (ban: nat)
    requires Cycle(l, lo) && On(p, l, |l.stack|) && OnBoard(sq)
    modifies p`blockers, p.square, p.pieces
    ensures On(p, l, |l.stack|) && ban == StaticBan(rules, l, true, sq, Since(l.stack, l.key, |l.stack| - 2))
  {
    hide Cycle, At, HoldsAt, PinsAt, HoldsOn, StaticBan, Mine, Since;
    CycleBounds(l, lo);
    ghost var n := |l.stack|;
    ghost var c := Since(l.stack, l.key, n - 2);
    StaticNone(rules, l, true, sq);
    MineStep(l.stack, n);
    ban := 1;
    var undoIx := |p.stack|;
    var ix := |p.stack| - 2;
    while ix >= 0
      invariant lo <= ix && undoIx == ix + 2 <= n && Mine(l.stack, ix) && c == Since(l.stack, l.key, ix)
      invariant On(p, l, undoIx) && HoldsOn(rules, l, true, sq, ix + 2) && ban == StaticBan(rules, l, true, sq, ix + 2)
      decreases ix
    {
      var holds, pins;
      holds, pins, undoIx := MeStaticRound(p, rules, l, lo, sq, ix);
      StaticBack(rules, l, true, sq, c, ix);
      if !holds {
        ban := 0;
        break;
      }
      if pins { ban := 2; }
      if p.key == p.stack[ix].lock { break; }
      MineStep(l.stack, ix);
      StillInCycle(l, lo, ix);
      ix := ix - 2;
    }
    Return(p, l, lo, undoIx);
  }

  method OppStaticCatch(p: Position, rules: ChaseRules, ghost l: Course, ghost lo: int, sq: int) returns (ban: nat)
    requires Cycle(l, lo) && On(p, l, |l.stack|) && OnBoard(sq)
    modifies p`blockers, p`turn, p.square, p.pieces
    ensures On(p, l, |l.stack|) && ban == StaticBan(rules, l, false, sq, Since(l.stack, l.key, |l.stack| - 2))
  {
    hide Cycle, At, HoldsAt, PinsAt, HoldsOn, StaticBan, Mine, Since;
    CycleBounds(l, lo);
    ghost var n := |l.stack|;
    ghost var c := Since(l.stack, l.key, n - 2);
    StaticNone(rules, l, false, sq);
    MineStep(l.stack, n);
    ban := 1;
    var undoIx := |p.stack|;
    var ix := |p.stack| - 2;
    while ix >= 0
      invariant lo <= ix && undoIx == ix + 2 <= n && Mine(l.stack, ix) && c == Since(l.stack, l.key, ix)
      invariant On(p, l, undoIx) && HoldsOn(rules, l, false, sq, ix + 2)
      invariant ban == StaticBan(rules, l, false, sq, ix + 2)
      decreases ix
    {
      var holds, pins;
      holds, pins, undoIx := OppStaticRound(p, rules, l, lo, sq, ix);
      StaticBack(rules, l, false, sq, c, ix);
      if !holds {
        ban := 0;
        break;
      }
      if pins { ban := 2; }
      if p.key == p.stack[ix].lock { break; }
      MineStep(l.stack, ix);
      StillInCycle(l, lo, ix);
      TakeBack(p, l, lo, undoIx);
      undoIx := undoIx - 1;
      ix := ix - 2;
    }
    Return(p, l, lo, undoIx);
  }

  // ---- which pieces are chased ----

  // What the officers of one side can take.
  function Reach(kind: Kind, sq: int, block: set<int>): set<int> {
    match kind
    case Advisor => AdvisorAtt(sq)
    case Bishop => BishopAtt(sq, block)
    case Knight => KnightAtt(sq, block)
    case Cannon => CannonRankAtt(sq, block) + CannonFileAtt(sq, block)
    case Rook => RookRankAtt(sq, block) + RookFileAtt(sq, block)
    case King => KingAtt(sq)
    case Pawn => {}
  }

  ghost function Takes(b: Board, color: Side, kind: Kind): set<int> {
    set t | t in Men(b, color.Other()) && exists s :: s in Of(b, color, kind) && t in Reach(kind, s, Occ(b))
  }

  // They are the pseudo-legal captures.
  lemma TakesArePseudo(b: Board, color: Side, kind: Kind, t: int)
    requires Placed(b) && !kind.Pawn?
    ensures t in Takes(b, color, kind) <==>
      Own(b, t, color.Other()) && exists s :: Has(b, s, color, kind) && Pseudo(b, color, s, t)
  {
    hide Reach, Pseudo, Occ, PointOk;
    forall s | Has(b, s, color, kind) && Own(b, t, color.Other())
      ensures t in Reach(kind, s, Occ(b)) <==> Pseudo(b, color, s, t)
    {
      ReachIsPseudo(b, color, kind, s, t);
    }
    forall s
      ensures Has(b, s, color, kind) <==> s in Of(b, color, kind)
    {
    }
    assert t in Men(b, color.Other()) <==> Own(b, t, color.Other());
    hide Of, Men, Has, Own;
  }

  lemma ReachIsPseudo(b: Board, color: Side, kind: Kind, s: int, t: int)
    requires Has(b, s, color, kind) && Own(b, t, color.Other()) && PointOk(color, kind, s) && !kind.Pawn?
    ensures t in Reach(kind, s, Occ(b)) <==> Pseudo(b, color, s, t)
  {
    hide Occ, Screens, KnightStep, Leg, DiagonalStep, KingStep, AdvisorPoint, BishopPoint, Palace;
    match kind
    case Advisor => AdvisorSteps(s, t, color);
    case Bishop => BishopSteps(s, t, color, Occ(b));
    case King => KingSteps(s, t, color);
    case Knight =>
    case Rook =>
    case Cannon =>
  }

  ghost function StaticCaps(b: Board, color: Side): set<int> {
    Takes(b, color, Advisor) + Takes(b, color, Bishop) + Takes(b, color, Knight) + Takes(b, color, Cannon)
      + Takes(b, color, Rook)
  }

  method CapturesOf(p: Position, color: Side, kind: Kind) returns (bb: set<int>)
    requires p.Agrees()
    ensures bb == Takes(p.Board(), color, kind)
  {
    hide Reach, Counts, Bits, Occ;
    FormsHold(p, color, kind);
    FormsHold(p, color.Other(), kind);
    bb := {};
    var bits, target := p.pieces[Slot(color, kind)], p.pieces[SideSlot(color.Other())];
    while bits != {}
      invariant bits <= Of(p.Board(), color, kind)
      invariant forall t :: t in bb <==>
        t in target && exists s :: s in Of(p.Board(), color, kind) - bits && t in Reach(kind, s, p.blockers)
      decreases |bits|
    {
      var from := PopFirst(bits);
      bits := bits - {from};
      bb := bb + Reach(kind, from, p.blockers) * target;
    }
  }

  method GenStaticCap(p: Position, color: Side) returns (bb: set<int>)
    requires p.Agrees()
    ensures bb == StaticCaps(p.Board(), color)
  {
    hide Takes;
    bb := CapturesOf(p, color, Advisor);
    var more := CapturesOf(p, color, Bishop);
    bb := bb + more;
    more := CapturesOf(p, color, Knight);
    bb := bb + more;
    more := CapturesOf(p, color, Cannon);
    bb := bb + more;
    more := CapturesOf(p, color, Rook);
    bb := bb + more;
  }

  // The squares touched by the plies ix + d of the rounds from ply c on.
  ghost function Touches(stack: seq<Played>, c: int, d: nat): set<int>
    requires d < 2
  {
    (set ix | 0 <= ix < |stack| && Round(stack, c, ix) :: MoveFrom(stack[ix + d].move))
      + (set ix | 0 <= ix < |stack| && Round(stack, c, ix) :: MoveTo(stack[ix + d].move))
  }

  // No check by the plies ix + d of those rounds.
  ghost predicate Calm(stack: seq<Played>, c: int, d: nat)
    requires d < 2
  {
    forall ix :: Round(stack, c, ix) ==> !stack[ix + d].check
  }

  lemma TouchesMore(stack: seq<Played>, c: nat, d: nat)
    requires d < 2 && c + 2 <= |stack| && Mine(stack, c)
    ensures Touches(stack, c, d) == Touches(stack, c + 2, d) + {MoveFrom(stack[c + d].move), MoveTo(stack[c + d].move)}
    ensures Calm(stack, c, d) <==> !stack[c + d].check && Calm(stack, c + 2, d)
  {
    hide MoveFrom, MoveTo;
    RoundsMore(stack, c);
    assert Round(stack, c, c);
  }

  lemma TouchesNone(stack: seq<Played>, d: nat)
    requires d < 2
    ensures Touches(stack, |stack|, d) == {} && Calm(stack, |stack|, d)
  {
  }

  lemma CalmFurther(stack: seq<Played>, c: int, ix: int, d: nat)
    requires d < 2 && c <= ix
    ensures Calm(stack, c, d) ==> Calm(stack, ix, d)
  {
    forall x | Round(stack, ix, x)
      ensures Round(stack, c, x)
    {
    }
  }

  // What the scan for touched squares finds from ply c on.
  ghost predicate ScanFound(stack: seq<Played>, c: int, mine: set<int>, theirs: set<int>, f: Flags) {
    f == Flags(Calm(stack, c, 0), Calm(stack, c, 1))
    && (f.me || f.opp ==> mine == Touches(stack, c, 0) && theirs == Touches(stack, c, 1))
  }

  lemma ScanNone(stack: seq<Played>)
    ensures ScanFound(stack, |stack|, {}, {}, Flags(true, true))
  {
    TouchesNone(stack, 0);
    TouchesNone(stack, 1);
    hide Touches, Calm;
  }

  lemma ScanBack(stack: seq<Played>, key: bv64, c: int, ix: nat, mine: set<int>, theirs: set<int>, f: Flags)
    requires ix + 2 <= |stack| && Mine(stack, ix) && c == Since(stack, key, ix)
    requires ScanFound(stack, ix + 2, mine, theirs, f) && (f.me || f.opp)
    ensures var g := Flags(f.me && !stack[ix].check, f.opp && !stack[ix + 1].check);
      && (!g.me && !g.opp ==> ScanFound(stack, c, mine, theirs, g))
      && ScanFound(stack, ix, mine + {MoveFrom(stack[ix].move), MoveTo(stack[ix].move)},
                 theirs + {MoveFrom(stack[ix + 1].move), MoveTo(stack[ix + 1].move)}, g)
    ensures if stack[ix].lock == key then c == ix else c == Since(stack, key, ix - 2)
  {
    TouchesMore(stack, ix, 0);
    TouchesMore(stack, ix, 1);
    CalmFurther(stack, c, ix, 0);
    CalmFurther(stack, c, ix, 1);
    hide Touches, Calm, MoveFrom, MoveTo, Round, Mine;
  }

  // The squares each side touched since the key last stood, and whether either gave check.
  method Touched(stack: seq<Played>, key: bv64) returns (mine: set<int>, theirs: set<int>, f: Flags)
    requires |stack| >= 2
    ensures ScanFound(stack, Since(stack, key, |stack| - 2), mine, theirs, f)
  {
    hide ScanFound, MoveFrom, MoveTo, Mine, Since;
    mine, theirs, f := {}, {}, Flags(true, true);
    var ix := |stack| - 2;
    ghost var c := Since(stack, key, ix);
    ScanNone(stack);
    MineStep(stack, |stack|);
    while ix >= 0
      invariant -2 <= ix <= |stack| - 2 && Mine(stack, ix) && c == Since(stack, key, ix)
      invariant ScanFound(stack, ix + 2, mine, theirs, f) && (f.me || f.opp)
    {
      ScanBack(stack, key, c, ix, mine, theirs, f);
      f := Flags(f.me && !stack[ix].check, f.opp && !stack[ix + 1].check);
      if !f.me && !f.opp { return; }
      mine := mine + {MoveFrom(stack[ix].move), MoveTo(stack[ix].move)};
      theirs := theirs + {MoveFrom(stack[ix + 1].move), MoveTo(stack[ix + 1].move)};
      if key == stack[ix].lock { return; }
      MineStep(stack, ix);
      ix := ix - 2;
    }
    SinceStart(stack, key, ix);
    ScanFromStart(stack, c, mine, theirs, f);
  }

  lemma ScanFromStart(stack: seq<Played>, c: int, mine: set<int>, theirs: set<int>, f: Flags)
    requires -2 <= c < 0 && Mine(stack, c) && ScanFound(stack, c + 2, mine, theirs, f)
    ensures ScanFound(stack, c, mine, theirs, f)
  {
    SameFromStart(stack, c, 0);
    SameFromStart(stack, c, 1);
    hide Touches, Calm;
  }

  lemma SameFromStart(stack: seq<Played>, c: int, d: nat)
    requires d < 2 && -2 <= c < 0 && Mine(stack, c)
    ensures Touches(stack, c, d) == Touches(stack, c + 2, d) && (Calm(stack, c, d) <==> Calm(stack, c + 2, d))
  {
    hide MoveFrom, MoveTo;
    var e := c + 2;
    forall ix | Round(stack, c, ix)
      ensures Round(stack, e, ix)
    {
    }
    forall ix | Round(stack, e, ix)
      ensures Round(stack, c, ix)
    {
    }
    assert Touches(stack, c, d) == Touches(stack, e, d);
  }

  // The captures worth chasing: unmoved pieces, pawns only across the river.
  function Chased(caps: set<int>, moved: set<int>, pawns: set<int>, opp: Side): set<int> {
    caps - moved - HalfOf(pawns, opp)
  }

  // The ban of the first chased square that stays chased, counting up from k.
  ghost function FirstBan(rules: ChaseRules, l: Course, mine: bool, c: int, squares: set<int>, k: nat): nat
    requires k <= 90
    decreases 90 - k
  {
    if k == 90 then 0
    else if k in squares && StaticBan(rules, l, mine, k, c) > 0 then StaticBan(rules, l, mine, k, c)
    else FirstBan(rules, l, mine, c, squares, k + 1)
  }

  // Of the squares left, the least decides or goes.
  lemma {:induction false} LeastDecides(rules: ChaseRules, l: Course, mine: bool, c: int, squares: set<int>, sq: int,
                                        k: nat)
    requires k <= 90 && sq in squares && OnBoard(sq) && forall x :: x in squares ==> sq <= x
    ensures FirstBan(rules, l, mine, c, squares, k)
      == if k <= sq && StaticBan(rules, l, mine, sq, c) > 0 then StaticBan(rules, l, mine, sq, c)
         else FirstBan(rules, l, mine, c, squares - {sq}, k)
    decreases 90 - k
  {
    hide StaticBan;
    if k < 90 {
      LeastDecides(rules, l, mine, c, squares, sq, k + 1);
    }
  }

  lemma {:induction false} NoSquares(rules: ChaseRules, l: Course, mine: bool, c: int, k: nat)
    requires k <= 90
    ensures FirstBan(rules, l, mine, c, {}, k) == 0
    decreases 90 - k
  {
    hide StaticBan;
    if k < 90 {
      NoSquares(rules, l, mine, c, k + 1);
    }
  }

  // It is the ban of the least square that stays chased, if one does.
  lemma {:induction false} FirstBanIs(rules: ChaseRules, l: Course, mine: bool, c: int, squares: set<int>, k: nat,
                                      sq: int)
    requires k <= sq < 90 && sq in squares && StaticBan(rules, l, mine, sq, c) > 0
    requires forall x :: k <= x < sq && x in squares ==> StaticBan(rules, l, mine, x, c) == 0
    ensures FirstBan(rules, l, mine, c, squares, k) == StaticBan(rules, l, mine, sq, c)
    decreases 90 - k
  {
    hide StaticBan;
    if k < sq {
      FirstBanIs(rules, l, mine, c, squares, k + 1, sq);
    }
  }

  lemma {:induction false} NoBan(rules: ChaseRules, l: Course, mine: bool, c: int, squares: set<int>, k: nat)
    requires k <= 90 && forall x :: k <= x < 90 && x in squares ==> StaticBan(rules, l, mine, x, c) == 0
    ensures FirstBan(rules, l, mine, c, squares, k) == 0
    decreases 90 - k
  {
    hide StaticBan;
    if k < 90 {
      NoBan(rules, l, mine, c, squares, k + 1);
    }
  }

  // The squares on which I chase, and on which the opponent does.
  ghost function MyTargets(l: Course, c: int): set<int>
    requires |l.stack| >= 1
  {
    Chased(StaticCaps(Rewind(l.board, l.stack, |l.stack| - 1), l.turn), Touches(l.stack, c, 1),
           Of(l.board, l.turn.Other(), Pawn), l.turn.Other())
  }

  ghost function TheirTargets(l: Course, c: int): set<int> {
    Chased(StaticCaps(l.board, l.turn.Other()), Touches(l.stack, c, 0), Of(l.board, l.turn, Pawn), l.turn)
  }

  // The first chased square that stays chased through the cycle, if any: 0 none, 2 a rook.
  method MyStaticChase(p: Position, rules: ChaseRules, ghost l: Course, ghost lo: int, theirs: set<int>)
    returns (ret: nat)
    requires Cycle(l, lo) && On(p, l, |l.stack|)
    requires theirs == Touches(l.stack, Since(l.stack, l.key, |l.stack| - 2), 1)
    modifies p`blockers, p.square, p.pieces
    ensures On(p, l, |l.stack|)
    ensures var c := Since(l.stack, l.key, |l.stack| - 2); ret == FirstBan(rules, l, true, c, MyTargets(l, c), 0)
  {
    hide Cycle, StaticCaps, Touches, Of, Bits, Counts, Occ, StaticBan, FirstBan, HalfOf, Since, Rewind;
    CycleBounds(l, lo);
    var n := |p.stack|;
    ghost var c := Since(l.stack, l.key, n - 2);
    var opp := p.turn.Other();
    RewindNone(l.board, l.stack);
    FormsHold(p, opp, Pawn);
    var pawns := p.pieces[Slot(opp, Pawn)];
    TakeBack(p, l, lo, n);
    BoardHere(p, l, n - 1);
    var caps := GenStaticCap(p, p.turn);
    Return(p, l, lo, n - 1);
    var bits := Chased(caps, theirs, pawns, opp);
    assert bits == MyTargets(l, c);
    TargetsOnBoard(l, c);
    hide MyTargets, At;
    ret := 0;
    while bits != {}
      invariant On(p, l, n) && (forall x :: x in bits ==> OnBoard(x)) && ret == 0
      invariant FirstBan(rules, l, true, c, MyTargets(l, c), 0) == FirstBan(rules, l, true, c, bits, 0)
      decreases |bits|
    {
      var sq := PopFirst(bits);
      LeastDecides(rules, l, true, c, bits, sq, 0);
      bits := bits - {sq};
      ret := MeStaticCatch(p, rules, l, lo, sq);
      if ret > 0 { return; }
    }
    NoSquares(rules, l, true, c, 0);
  }

  lemma TargetsOnBoard(l: Course, c: int)
    requires |l.stack| >= 1
    ensures forall x :: x in MyTargets(l, c) || x in TheirTargets(l, c) ==> OnBoard(x)
  {
    hide Touches, Of, Occ, HalfOf, Rewind, Reach;
  }

  method TheirStaticChase(p: Position, rules: ChaseRules, ghost l: Course, ghost lo: int, mine: set<int>)
    returns (ret: nat)
    requires Cycle(l, lo) && On(p, l, |l.stack|)
    requires mine == Touches(l.stack, Since(l.stack, l.key, |l.stack| - 2), 0)
    modifies p`blockers, p`turn, p.square, p.pieces
    ensures On(p, l, |l.stack|)
    ensures var c := Since(l.stack, l.key, |l.stack| - 2); ret == FirstBan(rules, l, false, c, TheirTargets(l, c), 0)
  {
    hide Cycle, StaticCaps, Touches, Of, Bits, Counts, Occ, StaticBan, FirstBan, HalfOf, Since, Rewind;
    CycleBounds(l, lo);
    ghost var n := |l.stack|;
    ghost var c := Since(l.stack, l.key, n - 2);
    RewindNone(l.board, l.stack);
    FormsHold(p, p.turn, Pawn);
    var caps := GenStaticCap(p, p.turn.Other());
    var bits := Chased(caps, mine, p.pieces[Slot(p.turn, Pawn)], p.turn);
    assert bits == TheirTargets(l, c);
    TargetsOnBoard(l, c);
    hide TheirTargets, At;
    ret := 0;
    while bits != {}
      invariant On(p, l, n) && (forall x :: x in bits ==> OnBoard(x)) && ret == 0
      invariant FirstBan(rules, l, false, c, TheirTargets(l, c), 0) == FirstBan(rules, l, false, c, bits, 0)
      decreases |bits|
    {
      var sq := PopFirst(bits);
      LeastDecides(rules, l, false, c, bits, sq, 0);
      bits := bits - {sq};
      ret := OppStaticCatch(p, rules, l, lo, sq);
      if ret > 0 { return; }
    }
    NoSquares(rules, l, false, c, 0);
  }

  // How a chase of unmoved pieces combines with the verdict so far.
  function Combine(f: Flags, mine: nat, theirs: nat): Flags {
    var both := (mine > 0 && (theirs > 0 || f.opp)) || (theirs > 0 && f.me);
    if both then
      if mine > 1 then Flags(true, false) else if theirs > 1 then Flags(false, true) else Flags(true, true)
    else if mine > 0 then Flags(true, false)
    else if theirs > 0 then Flags(false, true)
    else f
  }

  // When only one side chases, it alone is banned. When both do, one of them an unmoved piece, the
  // first chase of a rook that cannot leave decides, mine before theirs; without one both are banned.
  lemma CombineMeans(f: Flags, mine: nat, theirs: nat)
    requires !(f.me && f.opp) && mine <= 2 && theirs <= 2
    ensures var me, opp, g := mine > 0 || f.me, theirs > 0 || f.opp, Combine(f, mine, theirs);
      && (me && !opp ==> g == Flags(true, false)) && (opp && !me ==> g == Flags(false, true))
      && (!me && !opp ==> g == Flags(false, false))
      && (me && opp && mine == 2 ==> g == Flags(true, false))
      && (me && opp && mine < 2 && theirs == 2 ==> g == Flags(false, true))
      && (me && opp && mine < 2 && theirs < 2 ==> g == Flags(true, true))
  {
  }

  // Who chases an unmoved piece, given who chases a moving one.
  ghost function StaticCatch(rules: ChaseRules, l: Course, f: Flags): Flags
    requires |l.stack| >= 2
  {
    var c := Since(l.stack, l.key, |l.stack| - 2);
    Combine(f, if Calm(l.stack, c, 0) then FirstBan(rules, l, true, c, MyTargets(l, c), 0) else 0,
            if Calm(l.stack, c, 1) then FirstBan(rules, l, false, c, TheirTargets(l, c), 0) else 0)
  }

  method CheckStaticCatch(p: Position, rules: ChaseRules, ghost l: Course, ghost lo: int, f: Flags) returns (g: Flags)
    requires Cycle(l, lo) && On(p, l, |l.stack|)
    modifies p`blockers, p`turn, p.square, p.pieces
    ensures On(p, l, |l.stack|) && g == StaticCatch(rules, l, f)
  {
    hide Cycle, At, Touches, Calm, FirstBan, MyTargets, TheirTargets, Since;
    CycleBounds(l, lo);
    var mine, theirs, quiet := Touched(p.stack, p.key);
    if !quiet.me && !quiet.opp { return f; }
    var me, opp := 0, 0;
    if quiet.me {
      me := MyStaticChase(p, rules, l, lo, theirs);
    }
    if quiet.opp {
      opp := TheirStaticChase(p, rules, l, lo, mine);
    }
    g := Combine(f, me, opp);
  }

  // Who is banned at a repetition that checks do not decide.
  ghost function ChaseFlags(rules: ChaseRules, l: Course): Flags
    requires |l.stack| >= 2
  {
    var f := MoveCatch(rules, l);
    if f.me && f.opp then f else StaticCatch(rules, l, f)
  }
}
