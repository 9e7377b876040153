// Does the last move attack a square in a way that counts as a chase?  The routines take the
// move back and make it again in place; they return what the two boards say.
module ChaseAttack {
  import opened Geometry
  import opened Rules
  import opened Attacks
  import opened Bitboards
  import opened Engine
  import opened Rewinding

  // The pure questions of the chase rules: functions of the board of which
  // nothing is assumed.
  datatype ChaseRules = ChaseRules(
    pinned: (Board, int) -> bool,
    rankPinned: (Board, int) -> bool,
    filePinned: (Board, int) -> bool,
    knightPinned: (Board, int) -> bool,
    otherKnightPinned: (Board, int, int) -> bool,
    guarded: (Board, int, int) -> bool,
    inCheck: (Board, Side) -> bool,
    chaseLegals: (Board, Side) -> seq<int>)

  // ---- what counts as an attack ----

  // The move that was made, the square asked about, and whether any attack will do.
  datatype Query = Query(from: int, to: int, sq: int, passive: bool)

  // The last move took nothing, so it can be taken back and made again.
  ghost predicate Asked(b: Board, q: Query) { LastQuiet(b, q.from, q.to) && OnBoard(q.sq) }

  function Before(b: Board, q: Query): Board
    requires OnBoard(q.from) && OnBoard(q.to)
  {
    Apply(b, q.to, q.from)
  }

  predicate KindAt(c: Cell, kind: Kind) { c.Man? && c.kind == kind }

  // a is the piece that moved, and the question is about the move itself.
  predicate ByMove(rules: ChaseRules, b: Board, q: Query, a: int)
    requires OnBoard(q.sq)
  {
    a == q.to && (!q.passive || (KindAt(b[q.sq], Rook) && rules.knightPinned(b, q.sq)))
  }

  // Is the attacker on its new line by the move itself, and free to be there?
  predicate FreshLine(rules: ChaseRules, b: Board, q: Query, a: int) {
    || (SameRank(q.from, q.to) && SameFile(q.to, q.sq) && !rules.rankPinned(b, a))
    || (SameFile(q.from, q.to) && SameRank(q.to, q.sq) && !rules.filePinned(b, a))
  }

  function RooksOn(b: Board, sq: int, c: Side): set<int> {
    (RookRankAtt(sq, Occ(b)) + RookFileAtt(sq, Occ(b))) * Of(b, c, Rook)
  }

  predicate RookHits(rules: ChaseRules, b: Board, q: Query, a: int)
    requires OnBoard(q.sq)
  {
    var target := b[q.sq];
    && (KindAt(target, Rook) ==> rules.pinned(b, q.sq)) && !rules.guarded(b, q.sq, a)
    && if ByMove(rules, b, q, a) then FreshLine(rules, b, q, a)
       else
         && ((KindAt(target, Knight) && !rules.otherKnightPinned(b, a, q.sq)) || !rules.knightPinned(b, a))
         && !rules.rankPinned(b, a) && !rules.filePinned(b, a)
  }

  ghost predicate RooksHit(rules: ChaseRules, b: Board, q: Query)
    requires Asked(b, q)
  {
    exists a :: a in RooksOn(b, q.sq, b[q.to].side) && RookHits(rules, b, q, a)
  }

  function CannonsOn(b: Board, sq: int, c: Side): set<int> {
    (CannonRankAtt(sq, Occ(b)) + CannonFileAtt(sq, Occ(b))) * Of(b, c, Cannon)
  }

  predicate CannonFree(rules: ChaseRules, b: Board, sq: int, a: int)
    requires OnBoard(sq)
  {
    if KindAt(b[sq], Cannon) then
      !rules.knightPinned(b, a) && !(if SameRank(a, sq) then rules.filePinned(b, a) else rules.rankPinned(b, a))
    else !rules.pinned(b, a)
  }

  // Before the move the cannon did not attack the square, or could not move.
  predicate NewCannon(rules: ChaseRules, u: Board, sq: int, a: int) {
    sq !in CannonRankAtt(a, Occ(u)) + CannonFileAtt(a, Occ(u)) || rules.pinned(u, a)
  }

  predicate CannonHits(rules: ChaseRules, b: Board, q: Query, a: int)
    requires OnBoard(q.sq) && OnBoard(q.from) && OnBoard(q.to)
  {
    var target := b[q.sq];
    && (KindAt(target, Cannon) ==> rules.pinned(b, q.sq))
    && (KindAt(target, Rook) || !rules.guarded(b, q.sq, a))
    && if ByMove(rules, b, q, a) then FreshLine(rules, b, q, a)
       else
         && CannonFree(rules, b, q.sq, a)
         && (KindAt(target, Rook) && !q.passive ==> NewCannon(rules, Before(b, q), q.sq, a))
  }

  ghost predicate CannonsHit(rules: ChaseRules, b: Board, q: Query)
    requires Asked(b, q)
  {
    exists a :: a in CannonsOn(b, q.sq, b[q.to].side) && CannonHits(rules, b, q, a)
  }

  function KnightsOn(b: Board, sq: int, c: Side): set<int> { KnightAttd(sq, Occ(b)) * Of(b, c, Knight) }

  predicate LegTaken(b: Board, a: int, sq: int) { OnBoard(Leg(a, sq)) && b[Leg(a, sq)].Man? }

  predicate NewKnight(rules: ChaseRules, u: Board, sq: int, a: int) { LegTaken(u, a, sq) || rules.pinned(u, a) }

  predicate KnightHits(rules: ChaseRules, b: Board, q: Query, a: int)
    requires OnBoard(q.sq) && OnBoard(q.from) && OnBoard(q.to)
  {
    var target := b[q.sq];
    && (KindAt(target, Knight) ==> LegTaken(b, q.sq, a) || rules.pinned(b, q.sq)) && !rules.pinned(b, a)
    && (KindAt(target, Rook) || !rules.guarded(b, q.sq, a))
    && (!ByMove(rules, b, q, a) && KindAt(target, Rook) && !q.passive ==> NewKnight(rules, Before(b, q), q.sq, a))
  }

  ghost predicate KnightsHit(rules: ChaseRules, b: Board, q: Query)
    requires Asked(b, q)
  {
    exists a :: a in KnightsOn(b, q.sq, b[q.to].side) && KnightHits(rules, b, q, a)
  }

  function BishopsOn(b: Board, sq: int, c: Side): set<int> {
    if BishopPoint(sq, c) then BishopAtt(sq, Occ(b)) * Of(b, c, Bishop) else {}
  }

  predicate NewBishop(rules: ChaseRules, u: Board, sq: int, a: int) {
    (OnBoard((a + sq) / 2) && u[(a + sq) / 2].Man?) || rules.pinned(u, a)
  }

  predicate BishopHits(rules: ChaseRules, b: Board, q: Query, a: int)
    requires OnBoard(q.sq) && OnBoard(q.from) && OnBoard(q.to)
  {
    && !rules.pinned(b, a) && !rules.guarded(b, q.sq, a)
    && (q.passive || a == q.to || NewBishop(rules, Before(b, q), q.sq, a))
  }

  ghost predicate BishopsHit(rules: ChaseRules, b: Board, q: Query)
    requires Asked(b, q)
  {
    exists a :: a in BishopsOn(b, q.sq, b[q.to].side) && BishopHits(rules, b, q, a)
  }

  function AdvisorsOn(b: Board, sq: int, c: Side): set<int> {
    if AdvisorPoint(sq, c) then AdvisorAtt(sq) * Of(b, c, Advisor) else {}
  }

  predicate AdvisorHits(rules: ChaseRules, b: Board, q: Query, a: int)
    requires OnBoard(q.sq) && OnBoard(q.from) && OnBoard(q.to)
  {
    && !rules.pinned(b, a) && !rules.guarded(b, q.sq, a)
    && (q.passive || a == q.to || rules.pinned(Before(b, q), a))
  }

  ghost predicate AdvisorsHit(rules: ChaseRules, b: Board, q: Query)
    requires Asked(b, q)
  {
    exists a :: a in AdvisorsOn(b, q.sq, b[q.to].side) && AdvisorHits(rules, b, q, a)
  }

  // Some piece of the side that moved attacks the square in a way that counts as a chase.
  ghost predicate Hits(rules: ChaseRules, b: Board, q: Query)
    requires Asked(b, q)
  {
    && (KindAt(b[q.sq], Pawn) ==> HomeHalf(q.sq, b[q.to].side))
    && (RooksHit(rules, b, q) || CannonsHit(rules, b, q) || KnightsHit(rules, b, q)
        || BishopsHit(rules, b, q) || AdvisorsHit(rules, b, q))
  }

  lemma AttackersOnBoard(b: Board, sq: int, c: Side)
    ensures forall a :: a in RooksOn(b, sq, c) || a in CannonsOn(b, sq, c) || a in AdvisorsOn(b, sq, c) ==> OnBoard(a)
    ensures forall a :: a in KnightsOn(b, sq, c) ==> OnBoard(a) && KnightStep(a, sq)
    ensures forall a :: a in BishopsOn(b, sq, c) ==> OnBoard(a)
  {
  }

  lemma MidOnBoard(a: int, sq: int)
    requires OnBoard(a) && OnBoard(sq)
    ensures OnBoard((a + sq) / 2)
  {
  }

  // ---- finding out in place ----

  method RooksAttack(p: Position, rules: ChaseRules, q: Query) returns (r: bool)
    requires p.Agrees() && Asked(p.Board(), q)
    ensures r == RooksHit(rules, p.Board(), q)
  {
    hide Bits, Counts, Occ, FreshLine, ByMove;
    var b: Board := p.square[..];
    var color, sq, target := b[q.to].side, q.sq, b[q.sq];
    FormsHold(p, color, Rook);
    AttackersOnBoard(b, sq, color);
    if KindAt(target, Rook) && !rules.pinned(b, sq) { return false; }
    var bits := (RookRankAtt(sq, p.blockers) + RookFileAtt(sq, p.blockers)) * p.pieces[Slot(color, Rook)];
    ghost var all := bits;
    assert all == RooksOn(b, sq, color);
    hide RooksOn, RookRankAtt, RookFileAtt, Of;
    while bits != {}
      invariant bits <= all && forall a :: a in all - bits ==> !RookHits(rules, b, q, a)
      decreases |bits|
    {
      var a := PopFirst(bits);
      bits := bits - {a};
      if ByMove(rules, b, q, a) {
        if FreshLine(rules, b, q, a) && !rules.guarded(b, sq, a) { return true; }
      } else if ((KindAt(target, Knight) && !rules.otherKnightPinned(b, a, sq)) || !rules.knightPinned(b, a))
          && !rules.rankPinned(b, a) && !rules.filePinned(b, a) && !rules.guarded(b, sq, a) {
        return true;
      }
    }
    return false;
  }

  // Take the last move back, ask whether the attacker at `a` attacked sq before it too, and make it again.
  method CannonIsNew(p: Position, rules: ChaseRules, q: Query, a: int) returns (r: bool)
    requires p.Agrees() && Asked(p.Board(), q)
    modifies p`blockers, p.square, p.pieces
    ensures Stands(p, old(p.Board())) && r == NewCannon(rules, Before(old(p.Board()), q), q.sq, a)
  {
    hide Bits, Counts, Occ, Apply;
    ThereAndBack(p.Board(), q.from, q.to);
    p.RepMoveUndo(q.from, q.to);
    if q.sq !in CannonRankAtt(a, p.blockers) + CannonFileAtt(a, p.blockers) {
      p.RepMoveDo(q.from, q.to);
      return true;
    }
    if rules.pinned(p.square[..], a) {
      p.RepMoveDo(q.from, q.to);
      return true;
    }
    p.RepMoveDo(q.from, q.to);
    return false;
  }

  method CannonHit(p: Position, rules: ChaseRules, q: Query, a: int) returns (r: bool)
    requires p.Agrees() && Asked(p.Board(), q)
    modifies p`blockers, p.square, p.pieces
    ensures Stands(p, old(p.Board())) && r == CannonHits(rules, old(p.Board()), q, a)
  {
    hide Bits, Counts, Occ, FreshLine, NewCannon, Before, ByMove;
    var b: Board := p.square[..];
    var sq, target := q.sq, b[q.sq];
    if KindAt(target, Cannon) && !rules.pinned(b, sq) { return false; }
    var counts := KindAt(target, Rook) || !rules.guarded(b, sq, a);
    if ByMove(rules, b, q, a) {
      return FreshLine(rules, b, q, a) && counts;
    }
    var free := if KindAt(target, Cannon) then
                  !rules.knightPinned(b, a) &&
                    !(if SameRank(a, sq) then rules.filePinned(b, a) else rules.rankPinned(b, a))
                else !rules.pinned(b, a);
    if !free || !counts { return false; }
    if !KindAt(target, Rook) || q.passive { return true; }
    r := CannonIsNew(p, rules, q, a);
  }

  method CannonsAttack(p: Position, rules: ChaseRules, q: Query) returns (r: bool)
    requires p.Agrees() && Asked(p.Board(), q)
    modifies p`blockers, p.square, p.pieces
    ensures Stands(p, old(p.Board())) && r == CannonsHit(rules, old(p.Board()), q)
  {
    hide Bits, Counts, Occ, FreshLine, NewCannon, Before, ByMove;
    var b: Board := p.square[..];
    var color, sq, target := b[q.to].side, q.sq, b[q.sq];
    FormsHold(p, color, Cannon);
    AttackersOnBoard(b, sq, color);
    if KindAt(target, Cannon) && !rules.pinned(b, sq) { return false; }
    var bits := (CannonRankAtt(sq, p.blockers) + CannonFileAtt(sq, p.blockers)) * p.pieces[Slot(color, Cannon)];
    ghost var all := bits;
    assert all == CannonsOn(b, sq, color);
    hide CannonsOn, CannonRankAtt, CannonFileAtt, Of, CannonHits;
    while bits != {}
      invariant bits <= all && forall a :: a in all - bits ==> !CannonHits(rules, b, q, a)
      invariant Stands(p, b)
      decreases |bits|
    {
      var a := PopFirst(bits);
      bits := bits - {a};
      var hit := CannonHit(p, rules, q, a);
      if hit { return true; }
    }
    return false;
  }

  method KnightIsNew(p: Position, rules: ChaseRules, q: Query, a: int) returns (r: bool)
    requires p.Agrees() && Asked(p.Board(), q) && OnBoard(a) && KnightStep(a, q.sq)
    modifies p`blockers, p.square, p.pieces
    ensures Stands(p, old(p.Board())) && r == NewKnight(rules, Before(old(p.Board()), q), q.sq, a)
  {
    hide Bits, Counts, Occ, Apply;
    ThereAndBack(p.Board(), q.from, q.to);
    LegOnBoard(a, q.sq);
    p.RepMoveUndo(q.from, q.to);
    if p.square[Leg(a, q.sq)].Man? {
      p.RepMoveDo(q.from, q.to);
      return true;
    }
    if rules.pinned(p.square[..], a) {
      p.RepMoveDo(q.from, q.to);
      return true;
    }
    p.RepMoveDo(q.from, q.to);
    return false;
  }

  method KnightsAttack(p: Position, rules: ChaseRules, q: Query) returns (r: bool)
    requires p.Agrees() && Asked(p.Board(), q)
    modifies p`blockers, p.square, p.pieces
    ensures Stands(p, old(p.Board())) && r == KnightsHit(rules, old(p.Board()), q)
  {
    hide Bits, Counts, Occ, Leg, KnightStep, NewKnight, Before;
    var b: Board := p.square[..];
    var color, sq, target := b[q.to].side, q.sq, b[q.sq];
    FormsHold(p, color, Knight);
    AttackersOnBoard(b, sq, color);
    var bits := KnightAttd(sq, p.blockers) * p.pieces[Slot(color, Knight)];
    ghost var all := bits;
    assert all == KnightsOn(b, sq, color);
    hide KnightsOn, KnightAttd, Of;
    while bits != {}
      invariant bits <= all && forall a :: a in all - bits ==> !KnightHits(rules, b, q, a)
      invariant Stands(p, b)
      decreases |bits|
    {
      var a := PopFirst(bits);
      bits := bits - {a};
      LegOnBoard(a, sq);
      LegOnBoard(sq, a);
      var free := (!KindAt(target, Knight) || b[Leg(sq, a)].Man? || rules.pinned(b, sq)) && !rules.pinned(b, a)
                  && (KindAt(target, Rook) || !rules.guarded(b, sq, a));
      if free {
        if ByMove(rules, b, q, a) { return true; }
        if !KindAt(target, Rook) || q.passive { return true; }
        var isNew := KnightIsNew(p, rules, q, a);
        if isNew { return true; }
      }
    }
    return false;
  }

  method BishopIsNew(p: Position, rules: ChaseRules, q: Query, a: int) returns (r: bool)
    requires p.Agrees() && Asked(p.Board(), q) && OnBoard(a)
    modifies p`blockers, p.square, p.pieces
    ensures Stands(p, old(p.Board())) && r == NewBishop(rules, Before(old(p.Board()), q), q.sq, a)
  {
    hide Bits, Counts, Occ, Apply;
    ThereAndBack(p.Board(), q.from, q.to);
    MidOnBoard(a, q.sq);
    p.RepMoveUndo(q.from, q.to);
    if p.square[(a + q.sq) / 2].Man? {
      p.RepMoveDo(q.from, q.to);
      return true;
    }
    if rules.pinned(p.square[..], a) {
      p.RepMoveDo(q.from, q.to);
      return true;
    }
    p.RepMoveDo(q.from, q.to);
    return false;
  }

  method BishopsAttack(p: Position, rules: ChaseRules, q: Query) returns (r: bool)
    requires p.Agrees() && Asked(p.Board(), q)
    modifies p`blockers, p.square, p.pieces
    ensures Stands(p, old(p.Board())) && r == BishopsHit(rules, old(p.Board()), q)
  {
    hide Bits, Counts, Occ, NewBishop, Before;
    var b: Board := p.square[..];
    var color := b[q.to].side;
    FormsHold(p, color, Bishop);
    AttackersOnBoard(b, q.sq, color);
    if !BishopPoint(q.sq, color) { return false; }
    var bits := BishopAtt(q.sq, p.blockers) * p.pieces[Slot(color, Bishop)];
    ghost var all := bits;
    assert all == BishopsOn(b, q.sq, color);
    hide BishopsOn, BishopAtt, Of;
    while bits != {}
      invariant bits <= all && forall a :: a in all - bits ==> !BishopHits(rules, b, q, a)
      invariant Stands(p, b)
      decreases |bits|
    {
      var a := PopFirst(bits);
      bits := bits - {a};
      if !rules.pinned(b, a) && !rules.guarded(b, q.sq, a) {
        if q.passive || a == q.to { return true; }
        var isNew := BishopIsNew(p, rules, q, a);
        if isNew { return true; }
      }
    }
    return false;
  }

  method AdvisorsAttack(p: Position, rules: ChaseRules, q: Query) returns (r: bool)
    requires p.Agrees() && Asked(p.Board(), q)
    modifies p`blockers, p.square, p.pieces
    ensures Stands(p, old(p.Board())) && r == AdvisorsHit(rules, old(p.Board()), q)
  {
    hide Bits, Counts, Occ, Apply;
    var b: Board := p.square[..];
    var color := b[q.to].side;
    FormsHold(p, color, Advisor);
    AttackersOnBoard(b, q.sq, color);
    if !AdvisorPoint(q.sq, color) { return false; }
    var bits := AdvisorAtt(q.sq) * p.pieces[Slot(color, Advisor)];
    ghost var all := bits;
    assert all == AdvisorsOn(b, q.sq, color);
    hide AdvisorsOn, AdvisorAtt, Of;
    ThereAndBack(b, q.from, q.to);
    while bits != {}
      invariant bits <= all && forall a :: a in all - bits ==> !AdvisorHits(rules, b, q, a)
      invariant Stands(p, b)
      decreases |bits|
    {
      var a := PopFirst(bits);
      bits := bits - {a};
      if !rules.pinned(b, a) && !rules.guarded(b, q.sq, a) {
        if q.passive || a == q.to { return true; }
        p.RepMoveUndo(q.from, q.to);
        if rules.pinned(p.square[..], a) {
          p.RepMoveDo(q.from, q.to);
          return true;
        }
        p.RepMoveDo(q.from, q.to);
      }
    }
    return false;
  }

  // The whole question, asked kind by kind; the board is handed back unchanged.
  method MoveAttackSq(p: Position, rules: ChaseRules, q: Query) returns (r: bool)
    requires p.Agrees() && Asked(p.Board(), q)
    modifies p`blockers, p.square, p.pieces
    ensures Stands(p, old(p.Board())) && r == Hits(rules, old(p.Board()), q)
  {
    hide Bits, Counts, Occ, RooksHit, CannonsHit, KnightsHit, BishopsHit, AdvisorsHit, HomeHalf;
    var b: Board := p.square[..];
    if KindAt(b[q.sq], Pawn) && !HomeHalf(q.sq, b[q.to].side) { return false; }
    r := RooksAttack(p, rules, q);
    if r { return; }
    r := CannonsAttack(p, rules, q);
    if r { return; }
    r := KnightsAttack(p, rules, q);
    if r { return; }
    r := BishopsAttack(p, rules, q);
    if r { return; }
    r := AdvisorsAttack(p, rules, q);
  }
}
