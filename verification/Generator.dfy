// Generating and recognising moves on a position.
module Generator {
  import opened Geometry
  import opened Rules
  import opened Attacks
  import opened Bitboards
  import opened History
  import opened Engine

  // Where the piece on `from` can go.
  function Dests(b: Board, c: Side, from: int): set<int> { set t | 0 <= t < 90 && Pseudo(b, c, from, t) }

  function Target(b: Board, c: Side): set<int> { set s | 0 <= s < 90 && s !in Men(b, c) }

  // ---- each look-up gives the moves of the rules ----

  lemma KingDests(b: Board, c: Side, from: int)
    requires Placed(b) && Has(b, from, c, King)
    ensures HalfOf(KingAtt(from), c) * HalfOf(Target(b, c), c) == Dests(b, c, from)
  {
    assert PointOk(c, King, from);
    forall t | OnBoard(t) ensures t in KingAtt(from) <==> Palace(t, c) && KingStep(from, t) {
      KingSteps(from, t, c);
    }
  }

  lemma AdvisorDests(b: Board, c: Side, from: int)
    requires Placed(b) && Has(b, from, c, Advisor)
    ensures HalfOf(AdvisorAtt(from), c) * HalfOf(Target(b, c), c) == Dests(b, c, from)
  {
    assert PointOk(c, Advisor, from);
    forall t | OnBoard(t) ensures t in AdvisorAtt(from) <==> AdvisorPoint(t, c) && DiagonalStep(from, t, 1) {
      AdvisorSteps(from, t, c);
    }
  }

  lemma BishopDests(b: Board, c: Side, from: int)
    requires Placed(b) && Has(b, from, c, Bishop)
    ensures HalfOf(BishopAtt(from, Occ(b)), c) * HalfOf(Target(b, c), c) == Dests(b, c, from)
  {
    assert PointOk(c, Bishop, from);
    forall t | OnBoard(t) ensures t in BishopAtt(from, Occ(b)) <==>
      BishopPoint(t, c) && DiagonalStep(from, t, 2) && (from + t) / 2 !in Occ(b) {
      BishopSteps(from, t, c, Occ(b));
    }
  }

  lemma KnightDests(b: Board, c: Side, from: int)
    requires Has(b, from, c, Knight)
    ensures KnightAtt(from, Occ(b)) * Target(b, c) == Dests(b, c, from)
  {
  }

  lemma RookDests(b: Board, c: Side, from: int)
    requires Has(b, from, c, Rook)
    ensures (RookRankAtt(from, Occ(b)) + RookFileAtt(from, Occ(b))) * Target(b, c) == Dests(b, c, from)
  {
  }

  lemma CannonDests(b: Board, c: Side, from: int)
    requires Has(b, from, c, Cannon)
    ensures ((RookRankAtt(from, Occ(b)) + RookFileAtt(from, Occ(b))) - Occ(b))
          + (CannonRankAtt(from, Occ(b)) + CannonFileAtt(from, Occ(b))) * Men(b, c.Other()) == Dests(b, c, from)
  {
  }

  // ---- move lists ----

  type Moves = set<(int, int)>

  ghost predicate Distinct(list: seq<int>) { forall i, j :: 0 <= i < j < |list| ==> list[i] != list[j] }

  // The list holds exactly these moves, each once.
  ghost predicate Holds(list: seq<int>, ms: Moves) {
    && Distinct(list)
    && (forall m :: m in list ==> m == MoveMake(MoveFrom(m), MoveTo(m)) && (MoveFrom(m), MoveTo(m)) in ms)
    && (forall f, t :: (f, t) in ms ==> MoveMake(f, t) in list)
  }

  function From(from: int, dests: set<int>): Moves { set t | t in dests :: (from, t) }

  lemma HoldsMore(list: seq<int>, ms: Moves, f: int, t: int)
    requires Holds(list, ms) && OnBoard(f) && OnBoard(t) && (f, t) !in ms
    ensures Holds(list + [MoveMake(f, t)], ms + {(f, t)})
  {
    Unpack(f, t);
    hide MoveMake, MoveFrom, MoveTo;
    var m, more := MoveMake(f, t), list + [MoveMake(f, t)];
    assert m !in list;
    forall i, j | 0 <= i < j < |more|
      ensures more[i] != more[j]
    {
      assert more[i] == list[i];
      assert j == |list| || more[j] == list[j];
    }
    forall x | x in more
      ensures x == MoveMake(MoveFrom(x), MoveTo(x)) && (MoveFrom(x), MoveTo(x)) in ms + {(f, t)}
    {
      assert x in list || x == m;
    }
    forall g, u | (g, u) in ms + {(f, t)}
      ensures MoveMake(g, u) in more
    {
      assert (g, u) in ms ==> MoveMake(g, u) in list;
      assert more[|list|] == m;
    }
  }

  // Append the moves from one square, lowest destination first; a pawn's
  // origin is found from its destination.
  method AddMoves(list: seq<int>, ghost ms: Moves, from: int, dests: set<int>) returns (more: seq<int>)
    requires Holds(list, ms) && OnBoard(from)
    requires forall t :: t in dests ==> OnBoard(t) && (from, t) !in ms
    ensures Holds(more, ms + From(from, dests))
  {
    hide Holds, MoveMake;
    more := list;
    var bits := dests;
    assert ms + From(from, dests - bits) == ms;
    while bits != {}
      invariant bits <= dests
      invariant Holds(more, ms + From(from, dests - bits))
      decreases |bits|
    {
      var to := PopFirst(bits);
      HoldsMore(more, ms + From(from, dests - bits), from, to);
      more := more + [MoveMake(from, to)];
      assert dests - (bits - {to}) == (dests - bits) + {to};
      assert ms + From(from, dests - bits) + {(from, to)} == ms + From(from, dests - (bits - {to}));
      bits := bits - {to};
    }
    assert dests - {} == dests;
  }

  method AddShifted(list: seq<int>, ghost ms: Moves, step: int, dests: set<int>) returns (more: seq<int>)
    requires Holds(list, ms)
    requires forall t :: t in dests ==> OnBoard(t) && OnBoard(t - step) && (t - step, t) !in ms
    ensures Holds(more, ms + Shifted(step, dests))
  {
    hide Holds, MoveMake;
    more := list;
    var bits := dests;
    assert ms + Shifted(step, dests - bits) == ms;
    while bits != {}
      invariant bits <= dests
      invariant Holds(more, ms + Shifted(step, dests - bits))
      decreases |bits|
    {
      var to := PopFirst(bits);
      HoldsMore(more, ms + Shifted(step, dests - bits), to - step, to);
      more := more + [MoveMake(to - step, to)];
      assert dests - (bits - {to}) == (dests - bits) + {to};
      assert ms + Shifted(step, dests - bits) + {(to - step, to)} == ms + Shifted(step, dests - (bits - {to}));
      bits := bits - {to};
    }
    assert dests - {} == dests;
  }

  function Shifted(step: int, dests: set<int>): Moves { set t | t in dests :: (t - step, t) }

  // ---- the generator ----

  ghost predicate Ready(p: Position)
    reads p, p.square, p.pieces, p.number
  {
    p.Agrees() && Placed(p.Board())
  }

  method Destinations(p: Position, kind: Kind, from: int) returns (dests: set<int>)
    requires Ready(p) && Has(p.Board(), from, p.turn, kind) && !kind.Pawn?
    ensures dests == Dests(p.Board(), p.turn, from)
  {
    hide Dests, Occ, Men, Target, HalfOf, Placed, KingAtt, AdvisorAtt, BishopAtt, KnightAtt, RookRankAtt, RookFileAtt;
    hide CannonRankAtt, CannonFileAtt;
    ghost var b := p.Board();
    var me := p.turn;
    var own, opp := p.pieces[SideSlot(me)], p.pieces[SideSlot(me.Other())];
    var target := set s | 0 <= s < 90 && s !in own;
    TargetIs(b, me, target);
    match kind {
      case King =>
        dests := HalfOf(KingAtt(from), me) * HalfOf(target, me);
        KingDests(b, me, from);
      case Advisor =>
        dests := HalfOf(AdvisorAtt(from), me) * HalfOf(target, me);
        AdvisorDests(b, me, from);
      case Bishop =>
        dests := HalfOf(BishopAtt(from, p.blockers), me) * HalfOf(target, me);
        BishopDests(b, me, from);
      case Knight =>
        dests := KnightAtt(from, p.blockers) * target;
        KnightDests(b, me, from);
      case Rook =>
        dests := (RookRankAtt(from, p.blockers) + RookFileAtt(from, p.blockers)) * target;
        RookDests(b, me, from);
      case Cannon =>
        dests := ((RookRankAtt(from, p.blockers) + RookFileAtt(from, p.blockers)) - p.blockers)
               + (CannonRankAtt(from, p.blockers) + CannonFileAtt(from, p.blockers)) * opp;
        CannonDests(b, me, from);
    }
  }

  lemma TargetIs(b: Board, me: Side, target: set<int>)
    requires target == set s | 0 <= s < 90 && s !in Men(b, me)
    ensures target == Target(b, me)
  {
  }

  // The moves of the pieces on a set of squares.
  ghost function MovesOf(b: Board, c: Side, froms: set<int>): Moves {
    set f, t | f in froms && 0 <= t < 90 && Pseudo(b, c, f, t) :: (f, t)
  }

  lemma MovesOfMore(b: Board, c: Side, froms: set<int>, f: int)
    ensures MovesOf(b, c, froms + {f}) == MovesOf(b, c, froms) + From(f, Dests(b, c, f))
  {
    hide Reaches;
    forall g, t
      ensures (g, t) in MovesOf(b, c, froms + {f}) <==> (g, t) in MovesOf(b, c, froms) + From(f, Dests(b, c, f))
    {
    }
  }

  // All moves of one kind of piece, its squares popped in order.
  method GenKind(p: Position, kind: Kind, list: seq<int>, ghost froms: set<int>) returns (more: seq<int>)
    requires Ready(p) && !kind.Pawn? && Holds(list, MovesOf(p.Board(), p.turn, froms))
    requires froms !! Of(p.Board(), p.turn, kind)
    ensures Holds(more, MovesOf(p.Board(), p.turn, froms + Of(p.Board(), p.turn, kind)))
  {
    ghost var b, all := p.Board(), Of(p.Board(), p.turn, kind);
    var bits := p.pieces[Slot(p.turn, kind)];
    assert bits == all;
    hide Holds, Dests, Pseudo, Placed, Men, Bits, Counts, MovesOf;
    more := list;
    Remaining(froms, all, bits);
    while bits != {}
      invariant bits <= all
      invariant Holds(more, MovesOf(b, p.turn, froms + (all - bits)))
      decreases |bits|
    {
      var from := PopFirst(bits);
      var dests := Destinations(p, kind, from);
      ghost var before := froms + (all - bits);
      DestsOnBoard(b, p.turn, from);
      NewOrigin(b, p.turn, before, from);
      more := AddMoves(more, MovesOf(b, p.turn, before), from, dests);
      MovesOfMore(b, p.turn, before, from);
      OneLess(froms, all, bits, from);
      bits := bits - {from};
    }
    Remaining(froms, all, all - bits);
  }

  lemma Remaining(froms: set<int>, all: set<int>, bits: set<int>)
    requires bits == all
    ensures froms + (all - bits) == froms && froms + (all - {}) == froms + all
  {
  }

  lemma OneLess(froms: set<int>, all: set<int>, bits: set<int>, from: int)
    requires bits <= all && from in bits
    ensures froms + (all - bits) + {from} == froms + (all - (bits - {from}))
  {
  }

  lemma NewOrigin(b: Board, c: Side, froms: set<int>, from: int)
    requires from !in froms
    ensures forall t :: (from, t) !in MovesOf(b, c, froms)
  {
  }

  lemma DestsOnBoard(b: Board, c: Side, from: int)
    ensures forall t :: t in Dests(b, c, from) ==> OnBoard(t)
  {
  }

  // ---- pawns, all at once ----

  function Step(c: Side): int { if c.White? then 9 else -9 }

  // A shifted bitboard; what leaves the board is masked off by the targets.
  function Shift(bb: set<int>, n: int): set<int> { set s | s in bb :: s + n }

  // The three destination boards: ahead, to the right, to the left.
  function Ahead(pawns: set<int>, target: set<int>, me: Side): set<int> { Shift(pawns, Step(me)) * target }

  function Right(pawns: set<int>, target: set<int>, me: Side): set<int> {
    HalfOf(Shift(HalfOf(pawns, me.Other()), 1) - FileMask(0), me.Other()) * HalfOf(target, me.Other())
  }

  function Left(pawns: set<int>, target: set<int>, me: Side): set<int> {
    HalfOf(Shift(HalfOf(pawns, me.Other()), -1) - FileMask(8), me.Other()) * HalfOf(target, me.Other())
  }

  // Across the river a pawn steps sideways without leaving its rank.
  predicate SideStep(me: Side, f: int, t: int) {
    HomeHalf(f, me.Other()) && ((t == f + 1 && File(t) != 0) || (t == f - 1 && File(t) != 8))
  }

  lemma PawnMove(b: Board, me: Side, f: int, t: int)
    requires Has(b, f, me, Pawn) && OnBoard(t)
    ensures Pseudo(b, me, f, t) <==> (!Own(b, t, me) && (t == f + Step(me) || SideStep(me, f, t)))
  {
    Increment(f, t);
  }

  lemma AheadIs(b: Board, me: Side, f: int, t: int)
    ensures (f, t) in Shifted(Step(me), Ahead(Of(b, me, Pawn), Target(b, me), me)) <==>
      Has(b, f, me, Pawn) && OnBoard(t) && t == f + Step(me) && !Own(b, t, me)
  {
    var bb := Ahead(Of(b, me, Pawn), Target(b, me), me);
    assert (f, t) in Shifted(Step(me), bb) <==> t in bb && f == t - Step(me);
    assert t in Shift(Of(b, me, Pawn), Step(me)) <==> t - Step(me) in Of(b, me, Pawn)
      by { ShiftIs(Of(b, me, Pawn), Step(me), t); }
  }

  lemma ShiftIs(bb: set<int>, n: int, t: int)
    ensures t in Shift(bb, n) <==> t - n in bb
  {
    if t - n in bb {
      assert (t - n) + n in Shift(bb, n);
    }
  }

  lemma SideIs(b: Board, me: Side, f: int, t: int)
    ensures (f, t) in Shifted(1, Right(Of(b, me, Pawn), Target(b, me), me)) <==>
      Has(b, f, me, Pawn) && OnBoard(t) && HomeHalf(f, me.Other()) && t == f + 1 && File(t) != 0 && !Own(b, t, me)
    ensures (f, t) in Shifted(-1, Left(Of(b, me, Pawn), Target(b, me), me)) <==>
      Has(b, f, me, Pawn) && OnBoard(t) && HomeHalf(f, me.Other()) && t == f - 1 && File(t) != 8 && !Own(b, t, me)
  {
    var pawns := HalfOf(Of(b, me, Pawn), me.Other());
    var r, l := Right(Of(b, me, Pawn), Target(b, me), me), Left(Of(b, me, Pawn), Target(b, me), me);
    assert (f, t) in Shifted(1, r) <==> t in r && f == t - 1;
    assert (f, t) in Shifted(-1, l) <==> t in l && f == t + 1;
    ShiftIs(pawns, 1, t);
    ShiftIs(pawns, -1, t);
  }

  ghost function PawnPairs(b: Board, me: Side): Moves {
    var pawns, target := Of(b, me, Pawn), Target(b, me);
    Shifted(Step(me), Ahead(pawns, target, me)) + Shifted(1, Right(pawns, target, me))
      + Shifted(-1, Left(pawns, target, me))
  }

  lemma PawnPairsAre(b: Board, me: Side, froms: set<int>)
    ensures MovesOf(b, me, froms + Of(b, me, Pawn)) == MovesOf(b, me, froms) + PawnPairs(b, me)
  {
    hide PawnPairs, Pseudo, MovesOf, Of;
    forall m: (int, int)
      ensures m in MovesOf(b, me, froms + Of(b, me, Pawn)) <==> m in MovesOf(b, me, froms) + PawnPairs(b, me)
    {
      PawnPairIs(b, me, m.0, m.1);
      MovesOfIs(b, me, froms, m.0, m.1);
      MovesOfIs(b, me, froms + Of(b, me, Pawn), m.0, m.1);
    }
  }

  lemma PawnPairIs(b: Board, me: Side, f: int, t: int)
    ensures (f, t) in PawnPairs(b, me) <==> f in Of(b, me, Pawn) && Pseudo(b, me, f, t)
  {
    hide Ahead, Right, Left, Shifted, Reaches, File, Target;
    AheadIs(b, me, f, t);
    SideIs(b, me, f, t);
    if f in Of(b, me, Pawn) && OnBoard(t) {
      PawnMove(b, me, f, t);
    }
  }

  lemma MovesOfIs(b: Board, me: Side, froms: set<int>, f: int, t: int)
    ensures (f, t) in MovesOf(b, me, froms) <==> f in froms && Pseudo(b, me, f, t)
  {
    hide Reaches;
  }

  lemma FreshMoves(b: Board, me: Side, froms: set<int>, step: int, dests: set<int>)
    requires froms !! Of(b, me, Pawn) && forall t :: t in dests ==> t - step in Of(b, me, Pawn)
    ensures forall t :: t in dests ==> OnBoard(t - step) && (t - step, t) !in MovesOf(b, me, froms)
  {
  }

  lemma PawnBoards(b: Board, me: Side)
    ensures var pawns, target := Of(b, me, Pawn), Target(b, me);
      && (forall t :: t in Ahead(pawns, target, me) ==> OnBoard(t) && t - Step(me) in pawns)
      && (forall t :: t in Right(pawns, target, me) ==> OnBoard(t) && t - 1 in pawns)
      && (forall t :: t in Left(pawns, target, me) ==> OnBoard(t) && t + 1 in pawns)
  {
  }

  method GenPawns(p: Position, list: seq<int>, ghost froms: set<int>) returns (more: seq<int>)
    requires Ready(p) && Holds(list, MovesOf(p.Board(), p.turn, froms))
    requires froms !! Of(p.Board(), p.turn, Pawn)
    ensures Holds(more, MovesOf(p.Board(), p.turn, froms + Of(p.Board(), p.turn, Pawn)))
  {
    hide Holds, Placed, Ahead, Right, Left, MovesOf, Of, Men;
    ghost var b := p.Board();
    var me := p.turn;
    var pawns, own := p.pieces[Slot(me, Pawn)], p.pieces[SideSlot(me)];
    var target := set s | 0 <= s < 90 && s !in own;
    TargetIs(b, me, target);
    PawnBoards(b, me);
    PawnPairsAre(b, me, froms);
    ghost var ms := MovesOf(b, me, froms);
    var ahead, right, left := Ahead(pawns, target, me), Right(pawns, target, me), Left(pawns, target, me);
    FreshMoves(b, me, froms, Step(me), ahead);
    FreshMoves(b, me, froms, 1, right);
    FreshMoves(b, me, froms, -1, left);
    more := AddShifted(list, ms, Step(me), ahead);
    more := AddShifted(more, ms + Shifted(Step(me), ahead), 1, right);
    more := AddShifted(more, ms + Shifted(Step(me), ahead) + Shifted(1, right), -1, left);
    assert ms + PawnPairs(b, me) == ms + Shifted(Step(me), ahead) + Shifted(1, right) + Shifted(-1, left);
  }

  // Every pseudo-legal move of the side to move, each once.
  method GenMoves(p: Position) returns (list: seq<int>)
    requires Ready(p)
    ensures Distinct(list)
    ensures forall m :: m in list <==>
      m == MoveMake(MoveFrom(m), MoveTo(m)) && Pseudo(p.Board(), p.turn, MoveFrom(m), MoveTo(m))
  {
    hide Placed, Pseudo, MoveMake, MoveFrom, MoveTo, Dests, MovesOf, Of;
    ghost var b, me := p.Board(), p.turn;
    var from := p.King(p.turn);
    var dests := Destinations(p, King, from);
    DestsOnBoard(b, me, from);
    list := AddMoves([], {}, from, dests);
    KingFirst(b, me, from);
    ghost var froms := Of(b, me, King);
    KindsApart(b, me);
    list := GenKind(p, Advisor, list, froms);
    froms := froms + Of(b, me, Advisor);
    list := GenKind(p, Bishop, list, froms);
    froms := froms + Of(b, me, Bishop);
    list := GenKind(p, Knight, list, froms);
    froms := froms + Of(b, me, Knight);
    list := GenKind(p, Rook, list, froms);
    froms := froms + Of(b, me, Rook);
    list := GenKind(p, Cannon, list, froms);
    froms := froms + Of(b, me, Cannon);
    list := GenPawns(p, list, froms);
    froms := froms + Of(b, me, Pawn);
    AllPieces(b, me, froms);
  }

  lemma KingFirst(b: Board, me: Side, from: int)
    requires KingPlaced(b, me, from)
    ensures From(from, Dests(b, me, from)) == MovesOf(b, me, Of(b, me, King)) && Holds([], {})
    ensures {} + From(from, Dests(b, me, from)) == From(from, Dests(b, me, from))
  {
    assert forall s :: s in Of(b, me, King) ==> Has(b, s, me, King);
    assert Of(b, me, King) == {from};
    assert {} + {from} == {from};
    MovesOfMore(b, me, {}, from);
    assert MovesOf(b, me, {}) == {};
  }

  lemma KindsApart(b: Board, me: Side)
    ensures forall x: Kind, y: Kind :: x != y ==> Of(b, me, x) !! Of(b, me, y)
  {
  }

  lemma AllPieces(b: Board, me: Side, froms: set<int>)
    requires froms == Of(b, me, King) + Of(b, me, Advisor) + Of(b, me, Bishop) + Of(b, me, Knight)
      + Of(b, me, Rook) + Of(b, me, Cannon) + Of(b, me, Pawn)
    ensures forall f, t :: (f, t) in MovesOf(b, me, froms) <==> Pseudo(b, me, f, t)
  {
    hide MovesOf, Reaches;
    forall f, t
      ensures (f, t) in MovesOf(b, me, froms) <==> Pseudo(b, me, f, t)
    {
      MovesOfIs(b, me, froms, f, t);
      if Pseudo(b, me, f, t) {
        assert f in Of(b, me, b[f].kind);
        match b[f].kind {
          case King => case Advisor => case Bishop => case Knight => case Rook => case Cannon => case Pawn =>
        }
      }
    }
  }

  // ---- the recogniser ----

  method LineIsPseudo(p: Position, from: int, to: int, cannon: bool) returns (r: bool)
    requires Ready(p) && OnBoard(from) && OnBoard(to) && from != to
    ensures r <==> Reaches(p.Board(), if cannon then Cannon else Rook, p.turn, from, to)
  {
    r := false;
    if SameRank(from, to) || SameFile(from, to) {
      var pins := Screens(p.blockers, from, to);
      if !cannon || p.square[to].Empty? {
        r := pins == {};
      } else if pins != {} {
        var s := PopFirst(pins);
        assert |pins| == 1 + |pins - {s}|;
        r := pins - {s} == {};
      }
    }
  }

  method MoveIsPseudo(p: Position, move: int) returns (r: bool)
    requires Ready(p)
    ensures r <==> Pseudo(p.Board(), p.turn, MoveFrom(move), MoveTo(move))
  {
    hide MoveFrom, MoveTo, Screens, Rank, File, Placed;
    ghost var b := p.Board();
    var from, to := MoveFrom(move), MoveTo(move);
    if !OnBoard(from) || !OnBoard(to) || from == to { return false; }
    if p.square[from].Empty? || p.square[from].side != p.turn { return false; }
    if p.square[to].Man? && p.square[to].side != p.turn.Other() { return false; }
    match p.square[from].kind {
      case Rook => r := LineIsPseudo(p, from, to, false);
      case Cannon => r := LineIsPseudo(p, from, to, true);
      case Knight =>
        r := false;
        if to in KnightRing(from) {
          LegOnBoard(from, to);
          r := p.square[Leg(from, to)].Empty?;
        }
      case Bishop =>
        r := BishopPoint(from, p.turn) && to in BishopAtt(from, {}) && p.square[(from + to) / 2].Empty?;
        if BishopPoint(from, p.turn) { BishopSteps(from, to, p.turn, {}); }
      case Advisor =>
        r := AdvisorPoint(from, p.turn) && to in AdvisorAtt(from);
        if AdvisorPoint(from, p.turn) { AdvisorSteps(from, to, p.turn); }
      case Pawn => r := to in PawnAtt(from, p.turn);
      case King =>
        r := Palace(from, p.turn) && to in KingAtt(from);
        if Palace(from, p.turn) { KingSteps(from, to, p.turn); }
    }
  }

  // ---- legal moves ----

  lemma NoKingToTake(b: Board, me: Side, from: int, to: int)
    requires Safe(b, me.Other()) && Pseudo(b, me, from, to)
    ensures !Has(b, to, me.Other(), King)
  {
    assert Pseudo(b, me.Other().Other(), from, to);
  }

  // One move of the filter, whichever test the position calls for.
  method PassesFilter(p: Position, inCheck: bool, move: int) returns (ok: bool)
    requires Ready(p) && !Facing(p.Board()) && inCheck == InCheck(p.Board(), p.turn)
    requires Pseudo(p.Board(), p.turn, MoveFrom(move), MoveTo(move))
    ensures ok <==> Legal(p.Board(), p.turn, MoveFrom(move), MoveTo(move))
  {
    hide MoveFrom, MoveTo, Facing, InCheck, Reaches, Placed;
    if inCheck {
      ok := p.PseudoIsLegalInCheck(p.turn, MoveFrom(move), MoveTo(move));
    } else {
      ok := p.PseudoIsLegal(p.turn, MoveFrom(move), MoveTo(move));
    }
  }

  // The legal moves, each once, in every position whose kings do not face.
  method GenLegals(p: Position) returns (list: seq<int>)
    requires Ready(p) && !Facing(p.Board())
    ensures Distinct(list)
    ensures forall m :: m in list <==>
      m == MoveMake(MoveFrom(m), MoveTo(m)) && Legal(p.Board(), p.turn, MoveFrom(m), MoveTo(m))
  {
    hide MoveFrom, MoveTo, MoveMake, Placed, Pseudo, Legal, Facing, Rules.InCheck;
    ghost var b := p.Board();
    var inCheck := p.InCheck(p.turn);
    var moves := GenMoves(p);
    list := [];
    for i := 0 to |moves|
      invariant Distinct(list) && forall m :: m in list ==> m in moves[..i]
      invariant forall m :: m in moves[..i] ==> (m in list <==> Legal(b, p.turn, MoveFrom(m), MoveTo(m)))
    {
      var ok := PassesFilter(p, inCheck, moves[i]);
      if ok {
        FreshInPrefix(moves, i, list);
        list := list + [moves[i]];
      }
      assert moves[..i + 1] == moves[..i] + [moves[i]];
    }
    assert moves[..|moves|] == moves;
    LegalIsPseudo(b, p.turn);
  }

  lemma FreshInPrefix(moves: seq<int>, i: nat, list: seq<int>)
    requires i < |moves| && Distinct(moves) && Distinct(list) && forall m :: m in list ==> m in moves[..i]
    ensures moves[i] !in list && Distinct(list + [moves[i]])
  {
    var m := moves[i];
    assert forall j :: 0 <= j < i ==> moves[j] != m;
    assert m !in list;
    forall a, c | 0 <= a < c < |list| + 1
      ensures (list + [moves[i]])[a] != (list + [moves[i]])[c]
    {
      assert (list + [moves[i]])[a] == list[a] && list[a] in list;
    }
  }

  lemma LegalIsPseudo(b: Board, me: Side)
    ensures forall f, t :: Legal(b, me, f, t) ==> Pseudo(b, me, f, t)
  {
  }
}
