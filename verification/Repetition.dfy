// Adjudicating repetitions: the position is looked for in the recorded play, then checks
// and chases decide who, if anyone, is to blame.
module Repetition {
  import opened Rules
  import opened History
  import opened Engine
  import opened Rewinding
  import opened ChaseAttack
  import opened Chase

  datatype Verdict = NoRepetition | Draw | MeBan | OppBan

  // Plies i, i + 1 were real moves without capture.
  predicate CleanPair(stack: seq<Played>, i: nat)
    requires i + 1 < |stack|
  {
    stack[i].move != 0 && stack[i].cap.Empty? && stack[i + 1].move != 0 && stack[i + 1].cap.Empty?
  }

  // All plies from i on were, i being at even distance from the end.
  ghost predicate CleanFrom(stack: seq<Played>, i: nat) {
    && i <= |stack| && (|stack| - i) % 2 == 0
    && forall j :: i <= j < |stack| ==> stack[j].move != 0 && stack[j].cap.Empty?
  }

  // How often the key stood at even distance from the end, from ply i on.
  ghost function Repeats(stack: seq<Played>, key: bv64, i: nat): nat
    requires i <= |stack| && (|stack| - i) % 2 == 0
    decreases |stack| - i
  {
    if i == |stack| then 0 else (if stack[i].lock == key then 1 else 0) + Repeats(stack, key, i + 2)
  }

  // Ply i is where the key stood for the n-th time, looking back, inside the capture-free suffix.
  ghost predicate NthRepeat(stack: seq<Played>, key: bv64, n: int, i: nat) {
    i + 2 <= |stack| && CleanFrom(stack, i) && stack[i].lock == key && Repeats(stack, key, i) == n
  }

  // The side to move (the opponent) gave check with every one of its moves from ply i on.
  ghost predicate AllMyChecks(stack: seq<Played>, i: nat)
    requires i <= |stack| && (|stack| - i) % 2 == 0
    decreases |stack| - i
  {
    i == |stack| || (stack[i].check && AllMyChecks(stack, i + 2))
  }

  ghost predicate AllOppChecks(stack: seq<Played>, i: nat)
    requires i <= |stack| && (|stack| - i) % 2 == 0
    decreases |stack| - i
  {
    i == |stack| || (stack[i + 1].check && AllOppChecks(stack, i + 2))
  }

  // The verdict at the repetition at ply i: checks decide, else chases, else it is a draw.
  ghost function VerdictAt(rules: ChaseRules, l: Course, i: nat): Verdict
    requires 2 <= |l.stack| && i <= |l.stack| && (|l.stack| - i) % 2 == 0
  {
    if AllMyChecks(l.stack, i) || AllOppChecks(l.stack, i) then
      if !AllOppChecks(l.stack, i) then MeBan else if !AllMyChecks(l.stack, i) then OppBan else Draw
    else VerdictOf(ChaseFlags(rules, l))
  }

  function VerdictOf(f: Flags): Verdict { if f.me == f.opp then Draw else if f.me then MeBan else OppBan }

  // There is a verdict at the n-th repetition, in a line long enough.
  ghost predicate Adjudicates(rules: ChaseRules, l: Course, n: int, v: Verdict) {
    && (v == NoRepetition <==> !(4 * n <= |l.stack| && exists i :: NthRepeat(l.stack, l.key, n, i)))
    && forall i :: NthRepeat(l.stack, l.key, n, i) && 4 * n <= |l.stack| ==> v == VerdictAt(rules, l, i)
  }

  // What the static chases of a side come to: no chased square, or the ban of the least one.
  ghost predicate StaticIs(rules: ChaseRules, l: Course, mine: bool, c: int, squares: set<int>, ban: nat) {
    if exists x :: 0 <= x < 90 && x in squares && StaticBan(rules, l, mine, x, c) > 0 then
      exists sq :: 0 <= sq < 90 && sq in squares && ban == StaticBan(rules, l, mine, sq, c) > 0
        && forall x :: 0 <= x < sq && x in squares ==> StaticBan(rules, l, mine, x, c) == 0
    else ban == 0
  }

  // The number of a side's static chases, none if it gave check.
  ghost predicate StaticCount(rules: ChaseRules, l: Course, mine: bool, ban: nat)
    requires |l.stack| >= 2
  {
    var c := Since(l.stack, l.key, |l.stack| - 2);
    if Calm(l.stack, c, if mine then 0 else 1) then
      StaticIs(rules, l, mine, c, if mine then MyTargets(l, c) else TheirTargets(l, c), ban)
    else ban == 0
  }

  // The side to move chases a moving piece with every move since the key last stood; the opponent does.
  ghost predicate MeHunts(rules: ChaseRules, l: Course)
    requires |l.stack| >= 2
  {
    && MeSteady(l.stack, Since(l.stack, l.key, |l.stack| - 4))
    && MeChases(rules, l, Since(l.stack, l.key, |l.stack| - 2))
  }

  ghost predicate OppHunts(rules: ChaseRules, l: Course)
    requires |l.stack| >= 2
  {
    && OppSteady(l.stack, Since(l.stack, l.key, |l.stack| - 4))
    && OppChases(rules, l, Since(l.stack, l.key, |l.stack| - 2))
  }

  // Both hunting is a draw. Else a side that chases alone is banned; if both do, a chase of a rook
  // that cannot leave decides, that of the side to move before the other's.
  predicate ChaseRule(me: bool, opp: bool, mine: nat, theirs: nat, v: Verdict) {
    if me && opp then v == Draw
    else if (mine > 0 || me) && (theirs > 0 || opp) then
      v == if mine == 2 then MeBan else if theirs == 2 then OppBan else Draw
    else v == if mine > 0 || me then MeBan else if theirs > 0 || opp then OppBan else Draw
  }

  // Where checks do not decide, chases do.
  lemma ChasesDecide(rules: ChaseRules, l: Course, n: int, i: nat, v: Verdict, mine: nat, theirs: nat)
    requires NthRepeat(l.stack, l.key, n, i) && !AllMyChecks(l.stack, i) && !AllOppChecks(l.stack, i)
    requires StaticCount(rules, l, true, mine) && StaticCount(rules, l, false, theirs)
    requires 4 * n <= |l.stack| && Adjudicates(rules, l, n, v)
    ensures ChaseRule(MeHunts(rules, l), OppHunts(rules, l), mine, theirs, v)
  {
    hide MeSteady, OppSteady, MeChases, OppChases, MyTargets, TheirTargets, Calm, AllMyChecks, AllOppChecks, StaticBan;
    hide StaticIs, FirstBan, Repeats, Since;
    assert v == VerdictAt(rules, l, i);
    hide Adjudicates, NthRepeat;
    var c := Since(l.stack, l.key, |l.stack| - 2);
    if Calm(l.stack, c, 0) {
      StaticIsFirst(rules, l, true, c, MyTargets(l, c), mine);
    }
    if Calm(l.stack, c, 1) {
      StaticIsFirst(rules, l, false, c, TheirTargets(l, c), theirs);
    }
    var f := MoveCatch(rules, l);
    if !(f.me && f.opp) {
      CombineMeans(f, mine, theirs);
    }
  }

  lemma StaticIsFirst(rules: ChaseRules, l: Course, mine: bool, c: int, squares: set<int>, ban: nat)
    requires StaticIs(rules, l, mine, c, squares, ban)
    ensures ban == FirstBan(rules, l, mine, c, squares, 0) && ban <= 2
  {
    hide FirstBan;
    if exists x :: 0 <= x < 90 && x in squares && StaticBan(rules, l, mine, x, c) > 0 {
      var sq :| 0 <= sq < 90 && sq in squares && ban == StaticBan(rules, l, mine, sq, c) > 0
        && forall x :: 0 <= x < sq && x in squares ==> StaticBan(rules, l, mine, x, c) == 0;
      FirstBanIs(rules, l, mine, c, squares, 0, sq);
    } else {
      NoBan(rules, l, mine, c, squares, 0);
    }
  }

  lemma {:induction false} RepeatsGrow(stack: seq<Played>, key: bv64, i: nat, j: nat)
    requires i < j <= |stack| && (|stack| - i) % 2 == 0 && (|stack| - j) % 2 == 0
    ensures Repeats(stack, key, i) >= Repeats(stack, key, j) + (if stack[i].lock == key then 1 else 0)
    decreases |stack| - i
  {
    if i + 2 < j {
      RepeatsGrow(stack, key, i + 2, j);
    }
  }

  lemma NthRepeatUnique(stack: seq<Played>, key: bv64, n: int, i: nat, j: nat)
    requires NthRepeat(stack, key, n, i) && NthRepeat(stack, key, n, j)
    ensures i == j
  {
    if i < j {
      RepeatsGrow(stack, key, i, j);
    } else if j < i {
      RepeatsGrow(stack, key, j, i);
    }
  }

  // Look back for the n-th repetition; index is -1 when the window ends first.
  method FindRepeat(p: Position, checkTimes: int) returns (index: int, meCheck: bool, oppCheck: bool)
    ensures index < 0 ==> forall i :: !NthRepeat(p.stack, p.key, checkTimes, i)
    ensures index >= 0 ==> NthRepeat(p.stack, p.key, checkTimes, index)
    ensures index >= 0 ==> meCheck == AllMyChecks(p.stack, index) && oppCheck == AllOppChecks(p.stack, index)
  {
    var times := 0;
    meCheck, oppCheck, index := true, true, |p.stack| - 2;
    while index >= 0
      invariant -2 <= index <= |p.stack| - 2 && (|p.stack| - index) % 2 == 0
      invariant CleanFrom(p.stack, index + 2) && times == Repeats(p.stack, p.key, index + 2)
      invariant meCheck == AllMyChecks(p.stack, index + 2) && oppCheck == AllOppChecks(p.stack, index + 2)
      invariant forall i :: index + 2 <= i ==> !NthRepeat(p.stack, p.key, checkTimes, i)
    {
      if !CleanPair(p.stack, index) { break; }
      meCheck := meCheck && p.stack[index].check;
      oppCheck := oppCheck && p.stack[index + 1].check;
      if p.stack[index].lock == p.key {
        times := times + 1;
        if times == checkTimes { return; }
      }
      index := index - 2;
    }
    index := -1;
  }

  method ChaseVerdict(p: Position, rules: ChaseRules, ghost l: Course, ghost lo: int) returns (v: Verdict)
    requires Cycle(l, lo) && On(p, l, |l.stack|)
    modifies p`blockers, p`turn, p.square, p.pieces
    ensures On(p, l, |l.stack|) && v == VerdictOf(ChaseFlags(rules, l))
  {
    hide Cycle, At, MoveCatch, StaticCatch;
    CycleBounds(l, lo);
    var f := CheckMoveCatch(p, rules, l, lo);
    if f.me && f.opp { return Draw; }
    f := CheckStaticCatch(p, rules, l, lo, f);
    v := if f.me == f.opp then Draw else if f.me then MeBan else OppBan;
  }

  method RepCheck(p: Position, rules: ChaseRules, checkTimes: int) returns (v: Verdict)
    requires p.Valid()
    modifies p`blockers, p`turn, p.square, p.pieces
    ensures Stands(p, old(p.Board())) && p.turn == old(p.turn) && p.Valid()
    ensures p.pieces[..] == old(p.pieces[..]) && p.blockers == old(p.blockers)
    ensures Adjudicates(rules, old(CourseOf(p)), checkTimes, v)
  {
    hide Chronicle, Bits, Counts, Occ, Placed, Repeats, AllMyChecks, AllOppChecks, ChaseFlags, Rewind, CleanFrom;
    ghost var b, bits, l := p.Board(), p.pieces[..], CourseOf(p);
    if |p.stack| < checkTimes * 4 { return NoRepetition; }
    var index, meCheck, oppCheck := FindRepeat(p, checkTimes);
    if index < 0 { return NoRepetition; }
    forall i: nat | NthRepeat(p.stack, p.key, checkTimes, i) ensures i == index {
      NthRepeatUnique(p.stack, p.key, checkTimes, i, index);
    }
    if meCheck || oppCheck {
      v := if meCheck && oppCheck then Draw else if meCheck then MeBan else OppBan;
    } else {
      RewindNone(b, p.stack);
      CleanIsCycle(l, checkTimes, index);
      v := ChaseVerdict(p, rules, l, index);
      BitsUnique(p.pieces[..], bits, p.number[..], p.number[..], b);
    }
    assert NthRepeat(p.stack, p.key, checkTimes, index);
  }

  lemma CleanIsCycle(l: Course, n: int, i: nat)
    requires NthRepeat(l.stack, l.key, n, i) && Chronicle(l.board, l.turn, l.stack)
    ensures Cycle(l, i)
  {
    hide Chronicle;
  }
}
