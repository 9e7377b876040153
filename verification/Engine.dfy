// The position: one board held as a mailbox, bitboards, counts and a running
// key, with the stack of moves that led to it.
module Engine {
  import opened Geometry
  import opened Rules
  import opened Attacks
  import opened Bitboards
  import opened Hashing
  import opened History
  import opened Legality
  import opened CheckDetection

  function SideSlot(c: Side): nat { if c.White? then 0 else 8 }

  function KindSlot(kind: Kind): nat {
    match kind
    case King => 1
    case Rook => 2
    case Knight => 3
    case Cannon => 4
    case Advisor => 5
    case Bishop => 6
    case Pawn => 7
  }

  function Slot(c: Side, kind: Kind): nat { SideSlot(c) + KindSlot(kind) }

  function Men(b: Board, c: Side): set<int> { set s | 0 <= s < 90 && b[s].Man? && b[s].side == c }

  // The bitboards of a board, slot by slot.
  ghost predicate Bits(p: seq<set<int>>, b: Board) {
    && |p| == 16
    && (forall c: Side {:trigger SideSlot(c)} :: p[SideSlot(c)] == Men(b, c))
    && (forall c: Side, kind: Kind {:trigger Slot(c, kind)} :: p[Slot(c, kind)] == Of(b, c, kind))
  }

  ghost predicate Counts(n: seq<int>, b: Board) {
    && |n| == 16
    && (forall c: Side {:trigger SideSlot(c)} :: n[SideSlot(c)] == |Men(b, c)|)
    && (forall c: Side, kind: Kind {:trigger Slot(c, kind)} :: n[Slot(c, kind)] == |Of(b, c, kind)|)
  }

  // ---- what a move does to the bitboards and counts, slot by slot ----

  function MovedBits(p: seq<set<int>>, piece: Cell, cap: Cell, from: int, to: int): (r: seq<set<int>>)
    requires |p| == 16 && piece.Man?
  {
    var i, j := SideSlot(piece.side), Slot(piece.side, piece.kind);
    var q := p[i := Xor2(p[i], from, to)];
    var q' := q[j := Xor2(q[j], from, to)];
    if cap.Man? then
      var k, l := SideSlot(cap.side), Slot(cap.side, cap.kind);
      var q'' := q'[k := Flip(q'[k], to)];
      q''[l := Flip(q''[l], to)]
    else q'
  }

  function MovedCounts(n: seq<int>, cap: Cell): (r: seq<int>)
    requires |n| == 16
  {
    if cap.Man? then
      var k, l := SideSlot(cap.side), Slot(cap.side, cap.kind);
      var m := n[l := n[l] - 1];
      m[k := m[k] - 1]
    else n
  }

  // All the bitboards need to know of a move: no piece takes its own side.
  predicate Movable(b: Board, from: int, to: int) {
    && OnBoard(from) && OnBoard(to) && from != to && b[from].Man?
    && (b[to].Man? ==> b[to].side != b[from].side)
  }

  lemma SlotsDiffer(c: Side, kind: Kind, d: Side, kind': Kind)
    ensures Slot(c, kind) == Slot(d, kind') ==> c == d && kind == kind'
    ensures Slot(c, kind) != SideSlot(d)
  {
  }

  lemma SetsAfterMove(b: Board, from: int, to: int, c: Side, kind: Kind)
    requires Movable(b, from, to)
    ensures var a, m, cap := Apply(b, from, to), b[from], b[to];
      && Of(a, c, kind) == (if m == Man(c, kind) then Xor2(Of(b, c, kind), from, to)
                            else if cap == Man(c, kind) then Flip(Of(b, c, kind), to) else Of(b, c, kind))
      && Men(a, c) == (if m.side == c then Xor2(Men(b, c), from, to)
                       else if cap.Man? then Flip(Men(b, c), to) else Men(b, c))
  {
  }

  lemma BitsAfterMove(p: seq<set<int>>, b: Board, from: int, to: int)
    requires Bits(p, b) && Movable(b, from, to)
    ensures Bits(MovedBits(p, b[from], b[to], from, to), Apply(b, from, to))
  {
    hide Xor2, Flip, Of, Men;
    var q, a := MovedBits(p, b[from], b[to], from, to), Apply(b, from, to);
    forall c: Side, kind: Kind {:trigger Slot(c, kind)}
      ensures q[Slot(c, kind)] == Of(a, c, kind)
    {
      SetsAfterMove(b, from, to, c, kind);
      SlotsDiffer(c, kind, b[from].side, b[from].kind);
      if b[to].Man? {
        SlotsDiffer(c, kind, b[to].side, b[to].kind);
      }
    }
    forall c: Side {:trigger SideSlot(c)}
      ensures q[SideSlot(c)] == Men(a, c)
    {
      SetsAfterMove(b, from, to, c, King);
    }
  }

  // The same toggles lead back.
  lemma BitsAfterUndo(p: seq<set<int>>, b: Board, from: int, to: int)
    requires Movable(b, from, to)
    requires Bits(p, Apply(b, from, to))
    ensures Bits(MovedBits(p, b[from], b[to], from, to), b)
  {
    hide Xor2, Flip, Of, Men;
    var q := MovedBits(p, b[from], b[to], from, to);
    forall c: Side, kind: Kind {:trigger Slot(c, kind)}
      ensures q[Slot(c, kind)] == Of(b, c, kind)
    {
      SetsAfterMove(b, from, to, c, kind);
      FlipsBack(Of(b, c, kind), from, to);
      SlotsDiffer(c, kind, b[from].side, b[from].kind);
      if b[to].Man? {
        SlotsDiffer(c, kind, b[to].side, b[to].kind);
      }
    }
    forall c: Side {:trigger SideSlot(c)}
      ensures q[SideSlot(c)] == Men(b, c)
    {
      SetsAfterMove(b, from, to, c, King);
      FlipsBack(Men(b, c), from, to);
    }
  }

  lemma FlipsBack(x: set<int>, from: int, to: int)
    requires from != to
    ensures Xor2(Xor2(x, from, to), from, to) == x && Flip(Flip(x, to), to) == x
  {
  }

  lemma OccBack(p: Board, from: int, to: int)
    requires OnBoard(from) && OnBoard(to) && from != to && p[from].Man?
    ensures var after := Xor2(Occ(Apply(p, from, to)), from, to);
      Occ(p) == if p[to].Man? then Flip(after, to) else after
  {
  }

  lemma CountsAfterMove(n: seq<int>, b: Board, from: int, to: int)
    requires Counts(n, b) && Movable(b, from, to)
    ensures Counts(MovedCounts(n, b[to]), Apply(b, from, to))
  {
    hide Of, Men;
    var q, a := MovedCounts(n, b[to]), Apply(b, from, to);
    forall c: Side, kind: Kind {:trigger Slot(c, kind)}
      ensures q[Slot(c, kind)] == |Of(a, c, kind)|
    {
      SizesAfterMove(b, from, to, c, kind);
      if b[to].Man? {
        SlotsDiffer(c, kind, b[to].side, b[to].kind);
      }
    }
    forall c: Side {:trigger SideSlot(c)}
      ensures q[SideSlot(c)] == |Men(a, c)|
    {
      SizesAfterMove(b, from, to, c, King);
    }
  }

  lemma SizesAfterMove(b: Board, from: int, to: int, c: Side, kind: Kind)
    requires Movable(b, from, to)
    ensures var a := Apply(b, from, to);
      && |Of(a, c, kind)| == |Of(b, c, kind)| - (if b[to] == Man(c, kind) then 1 else 0)
      && |Men(a, c)| == |Men(b, c)| - (if b[to].Man? && b[to].side == c then 1 else 0)
  {
    SetsAfterMove(b, from, to, c, kind);
    hide Apply, Flip, Xor2;
    FlipSize(Of(b, c, kind), to);
    FlipSize(Men(b, c), to);
    if b[from] == Man(c, kind) { MoveSize(Of(b, c, kind), from, to); }
    if b[from].side == c { MoveSize(Men(b, c), from, to); }
  }

  lemma FlipSize(x: set<int>, s: int)
    ensures |Flip(x, s)| == |x| + (if s in x then -1 else 1)
  {
  }

  lemma MoveSize(x: set<int>, from: int, to: int)
    requires from in x && to !in x
    ensures |Xor2(x, from, to)| == |x|
  {
  }

  // Counts go back up by what was captured.
  function RestoredCounts(n: seq<int>, cap: Cell): (r: seq<int>)
    requires |n| == 16
  {
    if cap.Man? then
      var k, l := SideSlot(cap.side), Slot(cap.side, cap.kind);
      var m := n[l := n[l] + 1];
      m[k := m[k] + 1]
    else n
  }

  lemma CountsAfterUndo(n: seq<int>, b: Board, from: int, to: int)
    requires Movable(b, from, to)
    requires Counts(n, Apply(b, from, to))
    ensures Counts(RestoredCounts(n, b[to]), b)
  {
    hide Of, Men;
    var q := RestoredCounts(n, b[to]);
    forall c: Side, kind: Kind {:trigger Slot(c, kind)}
      ensures q[Slot(c, kind)] == |Of(b, c, kind)|
    {
      SizesAfterMove(b, from, to, c, kind);
      if b[to].Man? {
        SlotsDiffer(c, kind, b[to].side, b[to].kind);
      }
    }
    forall c: Side {:trigger SideSlot(c)}
      ensures q[SideSlot(c)] == |Men(b, c)|
    {
      SizesAfterMove(b, from, to, c, King);
    }
  }

  // The board determines every bitboard and every count.
  lemma BitsUnique(p: seq<set<int>>, q: seq<set<int>>, n: seq<int>, m: seq<int>, b: Board)
    requires Bits(p, b) && Bits(q, b) && Counts(n, b) && Counts(m, b)
    ensures p == q && n == m
  {
    hide Men, Of;
    forall i | 0 <= i < 16
      ensures p[i] == q[i] && n[i] == m[i]
    {
      var c, kind := SlotSide(i), SlotKind(i);
      assert i == if i % 8 == 0 then SideSlot(c) else Slot(c, kind);
    }
  }

  function SlotSide(i: nat): Side { if i < 8 then White else Black }

  function SlotKind(i: nat): Kind {
    if i % 8 == 1 then King else if i % 8 == 2 then Rook else if i % 8 == 3 then Knight
    else if i % 8 == 4 then Cannon else if i % 8 == 5 then Advisor else if i % 8 == 6 then Bishop else Pawn
  }

  class Position {
    const zobrist: Zobrist
    var square: array<Cell>
    var pieces: array<set<int>>
    var number: array<int>
    var blockers: set<int>
    var turn: Side
    var key: bv64
    var stack: seq<Played>

    ghost predicate Shape() reads this {
      square.Length == 90 && pieces.Length == 16 && number.Length == 16
    }

    ghost function Board(): Board
      requires Shape()
      reads this, square
    {
      square[..]
    }

    // The redundant forms agree with the mailbox.
    ghost predicate Agrees()
      reads this, square, pieces, number
    {
      Shape() && Bits(pieces[..], Board()) && blockers == Occ(Board()) && Counts(number[..], Board())
    }

    ghost predicate Valid()
      reads this, square, pieces, number
    {
      Agrees() && Placed(Board()) && Chronicle(Board(), turn, stack)
    }

    // The side not to move is not attacked and the kings do not face.
    ghost predicate CanBeChecked()
      reads this, square
    {
      Shape() && Safe(Board(), turn.Other())
    }

    // The key is the one computed afresh, now and at every stacked move.
    ghost predicate Keyed()
      reads this, square
    {
      Shape() && key == PosKey(zobrist, Board(), turn) && Locked(zobrist, Board(), turn, stack)
    }

    constructor (z: Zobrist)
      ensures zobrist == z && fresh(square) && fresh(pieces) && fresh(number)
      ensures Agrees() && Board() == seq(90, _ => Empty) && stack == [] && key == 0
    {
      zobrist := z;
      square := new Cell[90](_ => Empty);
      pieces := new set<int>[16](_ => {});
      number := new int[16](_ => 0);
      blockers := {};
      turn := White;
      key := 0;
      stack := [];
      new;
      assert Board() == seq(90, _ => Empty);
    }

    // ---- making and unmaking moves ----

    // Toggle the bitboards of the moved and of the captured piece.
    method ToggleBits(piece: Cell, cap: Cell, from: int, to: int)
      requires Shape() && piece.Man? && (cap.Man? ==> cap.side == piece.side.Other())
      modifies pieces
      ensures pieces[..] == MovedBits(old(pieces[..]), piece, cap, from, to)
    {
      var own, opp := SideSlot(piece.side), SideSlot(piece.side.Other());
      var i := Slot(piece.side, piece.kind);
      pieces[own] := Xor2(pieces[own], from, to);
      pieces[i] := Xor2(pieces[i], from, to);
      if cap.Man? {
        var j := Slot(cap.side, cap.kind);
        pieces[opp] := Flip(pieces[opp], to);
        pieces[j] := Flip(pieces[j], to);
      }
    }

    // The board part of move_do: mailbox, bitboards, counts.
    method MovePieces(from: int, to: int)
      requires Agrees() && Pseudo(Board(), turn, from, to)
      modifies this`blockers, square, pieces, number
      ensures Agrees() && Board() == Apply(old(Board()), from, to)
    {
      hide Men, Of, Occ, Reaches, Flip;
      ghost var b, n := Board(), number[..];
      var piece, cap := square[from], square[to];
      blockers := Xor2(blockers, from, to);
      if cap.Man? {
        var i, j := Slot(cap.side, cap.kind), SideSlot(cap.side);
        blockers := Flip(blockers, to);
        number[i] := number[i] - 1;
        number[j] := number[j] - 1;
      }
      assert number[..] == MovedCounts(n, cap);
      ToggleBits(piece, cap, from, to);
      square[from] := Empty;
      square[to] := piece;
      assert Board() == Apply(b, from, to);
      BitsAfterMove(old(pieces[..]), b, from, to);
      CountsAfterMove(n, b, from, to);
      OccApply(b, from, to);
      FlipsBack(Flip(Occ(b), from), from, to);
    }

    // ---- looking for check ----

    method King(c: Side) returns (k: int)
      requires Agrees() && Placed(Board())
      ensures KingPlaced(Board(), c, k)
    {
      ghost var b := Board();
      ghost var w :| KingPlaced(b, c, w);
      assert pieces[Slot(c, Kind.King)] == Of(b, c, Kind.King);
      assert w in pieces[Slot(c, Kind.King)];
      k := PopFirst(pieces[Slot(c, Kind.King)]);
      assert Has(b, k, c, Kind.King);
    }

    method InCheck(me: Side) returns (r: bool)
      requires Agrees() && Placed(Board())
      ensures r <==> Rules.InCheck(Board(), me)
    {
      hide Screens, RookRankAtt, RookFileAtt, CannonRankAtt, CannonFileAtt, KnightAttd, PawnAttd, RankMask, FileMask;
      hide KnightRing, HalfHit, Hit;
      ghost var b := Board();
      var opp := me.Other();
      var k := King(me);
      var rooks, cannons := pieces[Slot(opp, Rook)], pieces[Slot(opp, Cannon)];
      var knights, pawns := pieces[Slot(opp, Knight)], pieces[Slot(opp, Pawn)];
      HomeAttackers(k, me, blockers);
      HalfHitMeans(RankMask(k), RookRankAtt(k, blockers), rooks, me);
      HalfHitMeans(RankMask(k), CannonRankAtt(k, blockers), cannons, me);
      HalfHitMeans(KnightRing(k), KnightAttd(k, blockers), knights, me);
      HalfHitMeans(PawnAttd(k, opp), PawnAttd(k, opp), pawns, me);
      HitMeans(FileMask(k), RookFileAtt(k, blockers), rooks);
      HitMeans(FileMask(k), CannonFileAtt(k, blockers), cannons);
      InCheckIffScanned(b, me, k);
      assert forall s :: (s in rooks <==> IsRook(b, s, opp)) && (s in cannons <==> IsCannon(b, s, opp));
      assert forall s :: (s in knights <==> Has(b, s, opp, Knight)) && (s in pawns <==> Has(b, s, opp, Pawn));
      if HalfHit(RankMask(k), RookRankAtt(k, blockers), rooks, me) {
        ghost var s :| s in RookRankAtt(k, blockers) && s in rooks;
        assert Scanned(b, opp, k, s);
        return true;
      }
      if HalfHit(RankMask(k), CannonRankAtt(k, blockers), cannons, me) {
        ghost var s :| s in CannonRankAtt(k, blockers) && s in cannons;
        assert Scanned(b, opp, k, s);
        return true;
      }
      if HalfHit(KnightRing(k), KnightAttd(k, blockers), knights, me) {
        ghost var s :| s in KnightAttd(k, blockers) && s in knights;
        assert Scanned(b, opp, k, s);
        return true;
      }
      if HalfHit(PawnAttd(k, opp), PawnAttd(k, opp), pawns, me) {
        ghost var s :| s in PawnAttd(k, opp) && s in pawns;
        assert Scanned(b, opp, k, s);
        return true;
      }
      if Hit(FileMask(k), RookFileAtt(k, blockers), rooks) {
        ghost var s :| s in RookFileAtt(k, blockers) && s in rooks;
        assert Scanned(b, opp, k, s);
        return true;
      }
      if Hit(FileMask(k), CannonFileAtt(k, blockers), cannons) {
        ghost var s :| s in CannonFileAtt(k, blockers) && s in cannons;
        assert Scanned(b, opp, k, s);
        return true;
      }
      return false;
    }

    // ---- incremental check detection ----

    method RankCannons(me: Side, k: int) returns (r: bool, ghost w: int)
      requires Agrees()
      ensures if r then RankCannon(Board(), me, k, w) else forall s :: !RankCannon(Board(), me, k, s)
      ensures r <==> exists s :: RankCannon(Board(), me, k, s)
    {
      RankCannonsHit(Board(), me, k);
      r := Hit(RankMask(k), CannonRankAtt(k, blockers), pieces[Slot(me, Cannon)]);
      w := 0;
      if r {
        w :| RankCannon(Board(), me, k, w);
      }
    }

    method RankRooks(me: Side, k: int) returns (r: bool, ghost w: int)
      requires Agrees()
      ensures if r then RankRook(Board(), me, k, w) else forall s :: !RankRook(Board(), me, k, s)
      ensures r <==> exists s :: RankRook(Board(), me, k, s)
    {
      RankRooksHit(Board(), me, k);
      r := Hit(RankMask(k), RookRankAtt(k, blockers), pieces[Slot(me, Rook)]);
      w := 0;
      if r {
        w :| RankRook(Board(), me, k, w);
      }
    }

    method FileCannons(me: Side, k: int) returns (r: bool, ghost w: int)
      requires Agrees()
      ensures if r then FileCannon(Board(), me, k, w) else forall s :: !FileCannon(Board(), me, k, s)
      ensures r <==> exists s :: FileCannon(Board(), me, k, s)
    {
      FileCannonsHit(Board(), me, k);
      r := Hit(FileMask(k), CannonFileAtt(k, blockers), pieces[Slot(me, Cannon)]);
      w := 0;
      if r {
        w :| FileCannon(Board(), me, k, w);
      }
    }

    method FileRooks(me: Side, k: int) returns (r: bool, ghost w: int)
      requires Agrees()
      ensures if r then FileRook(Board(), me, k, w) else forall s :: !FileRook(Board(), me, k, s)
      ensures r <==> exists s :: FileRook(Board(), me, k, s)
    {
      FileRooksHit(Board(), me, k);
      r := Hit(FileMask(k), RookFileAtt(k, blockers), pieces[Slot(me, Rook)]);
      w := 0;
      if r {
        w :| FileRook(Board(), me, k, w);
      }
    }

    method NearPawns(me: Side, k: int) returns (r: bool, ghost w: int)
      requires Agrees()
      ensures if r then NearPawn(Board(), me, k, w) else forall s :: !NearPawn(Board(), me, k, s)
      ensures r <==> exists s :: NearPawn(Board(), me, k, s)
    {
      PawnsHit(Board(), me, k);
      r := Hit(PawnAttd(k, me), PawnAttd(k, me), pieces[Slot(me, Pawn)]);
      w := 0;
      if r {
        w :| NearPawn(Board(), me, k, w);
      }
    }

    method Horses(me: Side, k: int) returns (r: bool, ghost w: int)
      requires Agrees()
      ensures if r then HorseAttack(Board(), me, k, w) else forall s :: !HorseAttack(Board(), me, k, s)
      ensures r <==> exists s :: HorseAttack(Board(), me, k, s)
    {
      HorsesHit(Board(), me, k);
      r := Hit(KnightRing(k), KnightAttd(k, blockers), pieces[Slot(me, Knight)]);
      w := 0;
      if r {
        w :| HorseAttack(Board(), me, k, w);
      }
    }

    method AlongRankCheck(kind: Kind, cap: bool, to: int, k: int) returns (r: bool, ghost w: int)
      requires Agrees()
      ensures if r then AlongRank(Board(), turn, kind, cap, to, k, w)
        else forall s :: !AlongRank(Board(), turn, kind, cap, to, k, s)
      ensures r <==> exists s :: AlongRank(Board(), turn, kind, cap, to, k, s)
    {
      hide RankCannon, RankRook, NearPawn, Screens;
      if kind.Pawn? {
        r, w := NearPawns(turn, k);
        if r { return; }
      }
      r, w := false, to;
      if !cap { return; }
      if kind.Rook? {
        r := Screens(blockers, to, k) == {};
      } else if kind.Pawn? {
        r, w := RankCannons(turn, k);
      } else if kind.Cannon? {
        r, w := RankCannons(turn, k);
        if r { return; }
        r, w := RankRooks(turn, k);
      }
    }

    method AlongFileCheck(kind: Kind, cap: bool, to: int, k: int) returns (r: bool, ghost w: int)
      requires Agrees()
      ensures if r then AlongFile(Board(), turn, kind, cap, to, k, w)
        else forall s :: !AlongFile(Board(), turn, kind, cap, to, k, s)
      ensures r <==> exists s :: AlongFile(Board(), turn, kind, cap, to, k, s)
    {
      hide FileCannon, FileRook, NearPawn, Screens;
      if kind.Pawn? {
        r, w := NearPawns(turn, k);
        if r { return; }
      }
      r, w := false, to;
      if !cap { return; }
      if kind.Rook? {
        r := Screens(blockers, to, k) == {};
      } else if kind.Pawn? {
        r, w := FileCannons(turn, k);
      } else if kind.Cannon? {
        r, w := FileCannons(turn, k);
        if r { return; }
        r, w := FileRooks(turn, k);
      }
    }

    // The line or leg the piece has left.
    method LeavesCheck(from: int, k: int) returns (r: bool, ghost w: int)
      requires Agrees()
      ensures if r then Leaves(Board(), turn, from, k, w) else forall s :: !Leaves(Board(), turn, from, k, s)
      ensures r <==> exists s :: Leaves(Board(), turn, from, k, s)
    {
      hide RankCannon, RankRook, FileCannon, FileRook, HorseAttack, SameRank, SameFile;
      r, w := false, from;
      if SameRank(from, k) {
        r, w := RankCannons(turn, k);
        if r { return; }
        r, w := RankRooks(turn, k);
        if r { return; }
      }
      if SameFile(from, k) {
        r, w := FileCannons(turn, k);
        if r { return; }
        r, w := FileRooks(turn, k);
        if r { return; }
      }
      if Abs(from - k) == 8 || Abs(from - k) == 10 {
        r, w := Horses(turn, k);
      }
    }

    // The square the piece has reached.
    method ArrivesCheck(kind: Kind, cap: bool, to: int, k: int) returns (r: bool, ghost w: int)
      requires Agrees() && OnBoard(to) && OnBoard(k) && to != k
      ensures if r then Arrives(Board(), turn, kind, cap, to, k, w)
        else forall s :: !Arrives(Board(), turn, kind, cap, to, k, s)
      ensures r <==> exists s :: Arrives(Board(), turn, kind, cap, to, k, s)
    {
      hide RankCannon, FileCannon, NearPawn, Screens, OnlyOneBit, SameRank, SameFile, Leg, KnightStep;
      r, w := false, to;
      if !SameRank(to, k) && !SameFile(to, k) {
        if KnightStep(to, k) { LegOnBoard(to, k); }
        if KnightStep(k, to) { LegOnBoard(k, to); LegOnBoard(to, k); }
        if kind.Knight? && to in KnightRing(k) {
          r := square[Leg(to, k)].Empty?;
        }
        return;
      }
      if kind.Rook? {
        r := Screens(blockers, to, k) == {};
        return;
      }
      if kind.Pawn? {
        r, w := NearPawns(turn, k);
        if r { return; }
      } else if kind.Cannon? {
        OnlyOneBitOnLine(blockers, to, k);
        if OnlyOneBit(Screens(blockers, to, k)) {
          return true, to;
        }
      }
      if !cap && SameRank(to, k) {
        r, w := RankCannons(turn, k);
      } else if !cap {
        r, w := FileCannons(turn, k);
      }
    }

    // The check detection of move_do, on the board after the move, before the turn passes.
    method GivesCheck(kind: Kind, cap: bool, from: int, to: int) returns (r: bool, ghost k: int, ghost w: int)
      requires Agrees() && Placed(Board()) && OnBoard(from) && Has(Board(), to, turn, kind) && Board()[from].Empty?
      ensures KingPlaced(Board(), turn.Other(), k)
      ensures if r then Finds(Board(), turn, kind, cap, from, to, k, w)
        else forall s :: !Finds(Board(), turn, kind, cap, from, to, k, s)
      ensures r <==> exists s :: Finds(Board(), turn, kind, cap, from, to, k, s)
    {
      hide AlongRank, AlongFile, Leaves, Arrives, FileCannon, SameRank, SameFile;
      var king := King(turn.Other());
      r, k, w := false, king, to;
      if kind.King? {
        if SameFile(from, king) && SameRank(from, to) {
          r, w := FileCannons(turn, king);
        }
      } else if SameRank(from, king) && SameRank(from, to) {
        r, w := AlongRankCheck(kind, cap, to, king);
      } else if SameFile(from, king) && SameFile(from, to) {
        r, w := AlongFileCheck(kind, cap, to, king);
      } else {
        r, w := LeavesCheck(from, king);
        if !r {
          r, w := ArrivesCheck(kind, cap, to, king);
        }
      }
    }

    // ---- move_do and move_undo ----

    // Move the pieces and find out whether that gives check; the turn has not passed yet.
    method MoveAndLook(from: int, to: int) returns (check: bool)
      requires Agrees() && Placed(Board()) && Pseudo(Board(), turn, from, to)
      requires !Has(Board(), to, turn.Other(), Kind.King)
      modifies this`blockers, square, pieces, number
      ensures Agrees() && Board() == Apply(old(Board()), from, to) && Placed(Board())
      ensures !old(Rules.InCheck(Board(), turn.Other())) ==>
        (check <==> Rules.InCheck(Board(), turn.Other()) && !old(Overlooks(Board(), turn, from, to)))
      ensures old(CanBeChecked()) && !Facing(Board()) ==> !old(Overlooks(Board(), turn, from, to))
    {
      hide Reaches, Facing, Finds, Rules.InCheck, Placed, KingPlaced, Overlooks, Overlooked;
      ghost var b := Board();
      var kind, cap := square[from].kind, square[to].Man?;
      MovesKeepPlaced(b, turn, from, to);
      MovePieces(from, to);
      ghost var k, w;
      check, k, w := GivesCheck(kind, cap, from, to);
      if !Rules.InCheck(b, turn.Other()) {
        CheckBitExact(b, turn, from, to, k);
        OverlooksAt(b, turn, from, to, k);
      }
    }

    method ToggleKey(piece: Cell, cap: Cell, from: int, to: int)
      modifies this`key
      ensures key == Toggled(zobrist, old(key), piece, cap, from, to)
    {
      hide Xor;
      XorSelf(key);
      if cap.Man? {
        key := Xor(key, CellKey(zobrist, cap, to));
      }
      key := Xor(key, Xor(Xor(CellKey(zobrist, piece, from), CellKey(zobrist, piece, to)), zobrist.side));
    }

    method MoveDo(move: int)
      requires Valid() && Pseudo(Board(), turn, MoveFrom(move), MoveTo(move))
      requires !Has(Board(), MoveTo(move), turn.Other(), Kind.King)
      modifies this`blockers, this`turn, this`key, this`stack, square, pieces, number
      ensures Valid() && Board() == Apply(old(Board()), MoveFrom(move), MoveTo(move)) && turn == old(turn).Other()
      ensures |stack| == |old(stack)| + 1
      ensures stack == old(stack) + [Played(old(key), move, old(Board())[MoveTo(move)], stack[|old(stack)|].check)]
      ensures !old(Rules.InCheck(Board(), turn.Other())) ==>
        (stack[|old(stack)|].check <==>
          Rules.InCheck(Board(), turn) && !old(Overlooks(Board(), turn, MoveFrom(move), MoveTo(move))))
      ensures old(CanBeChecked()) && !Facing(Board()) ==> !old(Overlooks(Board(), turn, MoveFrom(move), MoveTo(move)))
      ensures key == Toggled(zobrist, old(key), old(Board())[MoveFrom(move)], old(Board())[MoveTo(move)],
        MoveFrom(move), MoveTo(move))
      ensures old(Keyed()) ==> Keyed()
    {
      hide Reaches, Placed, Facing, Toggled, PosKey, Safe, Chronicle, Locked, Bits, Counts, Rules.InCheck, MoveFrom;
      hide MoveTo;
      var from, to := MoveFrom(move), MoveTo(move);
      var piece, cap, lock := square[from], square[to], key;
      var check := MoveAndLook(from, to);
      RecordGrows(zobrist, old(Board()), turn, stack, Played(lock, move, cap, check));
      ToggleKey(piece, cap, from, to);
      turn := turn.Other();
      stack := stack + [Played(lock, move, cap, check)];
    }

    method MoveUndo()
      requires Valid() && stack != []
      modifies this`blockers, this`turn, this`key, this`stack, square, pieces, number
      ensures Valid() && Board() == Undo(old(Board()), old(stack)[|old(stack)| - 1]) && turn == old(turn).Other()
      ensures stack == old(stack)[..|old(stack)| - 1]
      ensures var h := old(stack)[|old(stack)| - 1];
        key == Toggled(zobrist, old(key), old(Board())[MoveTo(h.move)], h.cap, MoveFrom(h.move), MoveTo(h.move))
      ensures old(Keyed()) ==> Keyed()
    {
      hide Reaches, Placed, Toggled, PosKey, Chronicle, Locked, MoveFrom, MoveTo, Men, Of, Flip, Records, Occ, Bits;
      hide Counts, Undo;
      var h := stack[|stack| - 1];
      var from, to := MoveFrom(h.move), MoveTo(h.move);
      ghost var b, p := Board(), Undo(Board(), h);
      TopRecord(b, turn, stack);
      var piece, cap := square[to], h.cap;
      if old(Keyed()) {
        KeyUnwinds(zobrist, b, turn, stack);
      }
      UnmovePieces(p, piece, cap, from, to);
      ToggleKey(piece, cap, from, to);
      turn := turn.Other();
      stack := stack[..|stack| - 1];
    }

    // The board part of move_undo; p is the board before the move.
    method UnmovePieces(ghost p: Board, piece: Cell, cap: Cell, from: int, to: int)
      requires Agrees() && Pseudo(p, turn.Other(), from, to) && Board() == Apply(p, from, to)
      requires piece == p[from] && cap == p[to]
      modifies this`blockers, square, pieces, number
      ensures Agrees() && Board() == p
    {
      hide Men, Of, Occ, Reaches, Flip;
      ghost var bits, n := pieces[..], number[..];
      blockers := Xor2(blockers, from, to);
      square[from] := piece;
      square[to] := cap;
      ToggleBits(piece, cap, from, to);
      if cap.Man? {
        var i, j := Slot(cap.side, cap.kind), SideSlot(cap.side);
        blockers := Flip(blockers, to);
        number[i] := number[i] + 1;
        number[j] := number[j] + 1;
      }
      assert number[..] == RestoredCounts(n, cap);
      assert Board() == p;
      BitsAfterUndo(bits, p, from, to);
      CountsAfterUndo(n, p, from, to);
      OccBack(p, from, to);
    }

    // Making and unmaking a move restores the whole position.
    method DoAndUndo(move: int)
      requires Valid() && Pseudo(Board(), turn, MoveFrom(move), MoveTo(move))
      requires !Has(Board(), MoveTo(move), turn.Other(), Kind.King)
      modifies this`blockers, this`turn, this`key, this`stack, square, pieces, number
      ensures square[..] == old(square[..]) && pieces[..] == old(pieces[..]) && number[..] == old(number[..])
      ensures blockers == old(blockers) && turn == old(turn) && key == old(key) && stack == old(stack)
    {
      hide Reaches, Placed, Chronicle, Bits, Counts, Undo, Facing, Rules.InCheck, Toggled, MoveFrom, MoveTo, Safe;
      hide Apply, Occ, Pseudo;
      ghost var b, from, to := Board(), MoveFrom(move), MoveTo(move);
      MoveDo(move);
      ghost var h := stack[|stack| - 1];
      UndoneIs(b, old(turn), from, to, h);
      ToggledTwice(zobrist, old(key), b[from], b[to], from, to);
      MoveUndo();
      BitsUnique(pieces[..], old(pieces[..]), number[..], old(number[..]), b);
    }

    // ---- the legality filter ----

    // If the mask meets the targets, pop the attackers one by one until one is
    // connected with the move.
    method AnyConnected(met: set<int>, attackers: set<int>, from: int, to: int, k: int, isCap: bool)
      returns (r: bool, ghost w: int)
      requires forall s :: s in attackers ==> s in met && OnBoard(s)
      ensures if r then w in attackers && MoveConnect(from, to, w, k, isCap)
              else forall s :: s in attackers ==> !MoveConnect(from, to, s, k, isCap)
      ensures r <==> exists s :: s in attackers && MoveConnect(from, to, s, k, isCap)
    {
      hide MoveConnect;
      if met == {} {
        return false, 0;
      }
      var bits := attackers;
      while bits != {}
        invariant bits <= attackers
        invariant forall s :: s in attackers - bits ==> !MoveConnect(from, to, s, k, isCap)
        decreases |bits|
      {
        var s := PopFirst(bits);
        bits := bits - {s};
        if MoveConnect(from, to, s, k, isCap) {
          return true, s;
        }
      }
      return false, 0;
    }

    method RankRefuted(me: Side, from: int, to: int, k: int) returns (r: bool, ghost w: int)
      requires Agrees() && OnBoard(from) && OnBoard(to) && KingPlaced(Board(), me, k) && square[from].Man?
      requires square[from].side == me
      ensures if r then RankRefutes(Board(), me, from, to, k, w)
        else forall s :: !RankRefutes(Board(), me, from, to, k, s)
      ensures r <==> exists s :: RankRefutes(Board(), me, from, to, k, s)
    {
      hide MoveConnect, Screens, RookRankAtt, CannonRankAtt, RankMask, Flip;
      var opp := me.Other();
      var gone := Flip(blockers, from);
      HomeAttackers(k, me, gone);
      var cannons, rooks := pieces[Slot(opp, Cannon)], pieces[Slot(opp, Rook)];
      HalfIsAll(CannonRankAtt(k, gone) * cannons, me);
      HalfIsAll(RookRankAtt(k, gone) * rooks, me);
      var cannonsSeen := HalfOf(CannonRankAtt(k, gone) * cannons, me);
      var rooksSeen := HalfOf(RookRankAtt(k, gone) * rooks, me);
      var cannonsMet, rooksMet := HalfOf(RankMask(k) * cannons, me), HalfOf(RankMask(k) * rooks, me);
      if SameRank(from, to) {
        r, w := AnyConnected(cannonsMet, cannonsSeen - {to}, from, to, k, true);
        if r { return; }
        if square[from].kind.Cannon? {
          r, w := AnyConnected(rooksMet, rooksSeen, from, to, k, true);
        }
      } else {
        r, w := AnyConnected(rooksMet, rooksSeen, from, to, k, false);
        if r { return; }
        r, w := AnyConnected(cannonsMet, cannonsSeen, from, to, k, false);
      }
    }

    // The sliders that see k along its file once the mover has gone.
    method FileSliders(me: Side, from: int, k: int)
      returns (rooksMet: set<int>, cannonsMet: set<int>, rooksSeen: set<int>, cannonsSeen: set<int>)
      requires Agrees()
      ensures forall s :: s in rooksSeen <==>
        IsRookOrKing(Board(), s, me.Other()) && s in RookFileAtt(k, Flip(Occ(Board()), from))
      ensures forall s :: s in cannonsSeen <==>
        IsCannon(Board(), s, me.Other()) && s in CannonFileAtt(k, Flip(Occ(Board()), from))
      ensures forall s :: s in rooksSeen || s in cannonsSeen ==> OnBoard(s)
      ensures rooksSeen <= rooksMet && cannonsSeen <= cannonsMet
    {
      AttacksInMasks(k, Flip(blockers, from));
      hide Flip, Screens, SameFile, FileMask;
      var gone := Flip(blockers, from);
      var rooks, cannons := pieces[Slot(me.Other(), Rook)] + pieces[Slot(me.Other(), Kind.King)],
        pieces[Slot(me.Other(), Cannon)];
      rooksMet, cannonsMet := FileMask(k) * rooks, FileMask(k) * cannons;
      rooksSeen := RookFileAtt(k, gone) * rooks;
      cannonsSeen := CannonFileAtt(k, gone) * cannons;
    }

    method FileRefuted(me: Side, from: int, to: int, k: int) returns (r: bool, ghost w: int)
      requires Agrees() && OnBoard(from) && OnBoard(to) && square[from].Man? && square[from].side == me
      ensures if r then FileRefutes(Board(), me, from, to, k, w)
        else forall s :: !FileRefutes(Board(), me, from, to, k, s)
      ensures r <==> exists s :: FileRefutes(Board(), me, from, to, k, s)
    {
      hide MoveConnect, Flip, RookFileAtt, CannonFileAtt, SameFile, IsRookOrKing, Occ, Bits, Counts;
      var rooksMet, cannonsMet, rooksSeen, cannonsSeen := FileSliders(me, from, k);
      if SameFile(from, to) {
        r, w := AnyConnected(cannonsMet, cannonsSeen - {to}, from, to, k, true);
        if r { return; }
        if square[from].kind.Cannon? {
          r, w := AnyConnected(rooksMet, rooksSeen, from, to, k, true);
        }
      } else {
        r, w := AnyConnected(rooksMet, rooksSeen, from, to, k, false);
        if r { return; }
        r, w := AnyConnected(cannonsMet, cannonsSeen, from, to, k, false);
      }
    }

    method LegRefuted(me: Side, from: int, to: int, k: int) returns (r: bool, ghost w: int)
      requires Agrees() && OnBoard(from) && OnBoard(to) && KingPlaced(Board(), me, k)
      ensures if r then LegRefutes(Board(), me, from, to, k, w)
        else forall s :: !LegRefutes(Board(), me, from, to, k, s)
      ensures r <==> exists s :: LegRefutes(Board(), me, from, to, k, s)
    {
      hide Leg, KnightStep, Rank, File;
      var knights := pieces[Slot(me.Other(), Knight)];
      forall s | OnBoard(s)
        ensures KnightStep(s, k) <==> s in KnightRing(k)
        ensures KnightStep(s, k) ==> Abs(Leg(s, k) - k) == 8 || Abs(Leg(s, k) - k) == 10
      {
        if KnightStep(s, k) { LegOnBoard(s, k); KnightGeometry(s, k); }
        if KnightStep(k, s) { LegOnBoard(k, s); }
      }
      HomeAttackers(k, me, {});
      HalfIsAll(KnightRing(k) * knights, me);
      r, w := false, from;
      if Abs(from - k) == 8 || Abs(from - k) == 10 {
        var bits := HalfOf(KnightRing(k) * knights, me);
        while bits != {}
          invariant bits <= KnightRing(k) * knights
          invariant forall s :: s in KnightRing(k) * knights - bits ==> !(from == Leg(s, k) && to != s)
          decreases |bits|
        {
          var s := PopFirst(bits);
          bits := bits - {s};
          if from == Leg(s, k) && to != s {
            return true, s;
          }
        }
      }
    }

    method ScreenRefuted(me: Side, from: int, to: int, k: int) returns (r: bool, ghost w: int)
      requires Agrees() && OnBoard(from) && OnBoard(to) && KingPlaced(Board(), me, k)
      ensures if r then ScreenRefutes(Board(), me, from, to, k, w)
        else forall s :: !ScreenRefutes(Board(), me, from, to, k, s)
      ensures r <==> exists s :: ScreenRefutes(Board(), me, from, to, k, s)
    {
      hide MoveConnect, Screens, Flip, CannonRankAtt, CannonFileAtt, RankMask, FileMask;
      var joined := Flip(blockers, to);
      var cannons := pieces[Slot(me.Other(), Cannon)];
      HomeAttackers(k, me, joined);
      HalfIsAll(CannonRankAtt(k, joined) * cannons, me);
      r, w := false, from;
      if SameRank(to, k) {
        var seen := HalfOf(CannonRankAtt(k, joined) * cannons, me);
        r, w := AnyConnected(seen, seen, from, to, k, false);
      } else if SameFile(to, k) {
        var seen := CannonFileAtt(k, joined) * cannons;
        r, w := AnyConnected(seen, seen, from, to, k, false);
      }
    }

    // A move of another piece than the king, the mover not being in check.
    method PieceMoveIsLegal(me: Side, from: int, to: int) returns (ok: bool)
      requires Agrees() && Placed(Board()) && Pseudo(Board(), me, from, to) && !square[from].kind.King?
      requires Safe(Board(), me)
      ensures ok <==> Safe(Apply(Board(), from, to), me)
    {
      hide RankRefutes, FileRefutes, LegRefutes, ScreenRefutes, Safe, Placed, Reaches, SameRank, SameFile;
      var k := King(me);
      RefutedIffUnsafe(Board(), me, from, to, k);
      ghost var w;
      var bad;
      if SameRank(from, k) {
        if SameRank(from, to) && square[to].Empty? { return true; }
        bad, w := RankRefuted(me, from, to, k);
      } else if SameFile(from, k) {
        if SameFile(from, to) && square[to].Empty? { return true; }
        bad, w := FileRefuted(me, from, to, k);
      } else {
        bad, w := LegRefuted(me, from, to, k);
      }
      if !bad && square[to].Empty? {
        bad, w := ScreenRefuted(me, from, to, k);
      }
      assert bad ==> Refutes(Board(), me, from, to, k, w);
      ok := !bad;
    }

    // Rooks on the rank of `to`, then cannons there as seen over `block`.
    method SeenOnRank(me: Side, to: int, block: set<int>) returns (r: bool, ghost w: int)
      requires Agrees() && OnBoard(to) && Palace(to, me)
      ensures if r then OnRankBy(Board(), me, to, block, w) else forall s :: !OnRankBy(Board(), me, to, block, s)
      ensures r <==> exists s :: OnRankBy(Board(), me, to, block, s)
    {
      hide RookRankAtt, CannonRankAtt, RankMask, HalfHit, Palace;
      HomeAttackers(to, me, blockers);
      HomeAttackers(to, me, block);
      r, w := SeekHalf(RankMask(to), RookRankAtt(to, blockers), pieces[Slot(me.Other(), Rook)], me);
      if r { return; }
      r, w := SeekHalf(RankMask(to), CannonRankAtt(to, block), pieces[Slot(me.Other(), Cannon)], me);
    }

    method SeenOnFile(me: Side, to: int, block: set<int>) returns (r: bool, ghost w: int)
      requires Agrees() && OnBoard(to) && Palace(to, me)
      ensures if r then OnFileBy(Board(), me, to, block, w) else forall s :: !OnFileBy(Board(), me, to, block, s)
      ensures r <==> exists s :: OnFileBy(Board(), me, to, block, s)
    {
      hide RookFileAtt, CannonFileAtt, FileMask, Hit, Palace;
      HomeAttackers(to, me, blockers);
      HomeAttackers(to, me, block);
      r, w := Seek(FileMask(to), RookFileAtt(to, blockers),
        pieces[Slot(me.Other(), Rook)] + pieces[Slot(me.Other(), Kind.King)]);
      if r { return; }
      r, w := Seek(FileMask(to), CannonFileAtt(to, block), pieces[Slot(me.Other(), Cannon)]);
    }

    method SeenNear(me: Side, to: int) returns (r: bool, ghost w: int)
      requires Agrees() && OnBoard(to) && Palace(to, me)
      ensures if r then NearBy(Board(), me, to, w) else forall s :: !NearBy(Board(), me, to, s)
      ensures r <==> exists s :: NearBy(Board(), me, to, s)
    {
      hide KnightAttd, PawnAttd, KnightRing, HalfHit, Palace;
      HomeAttackers(to, me, blockers);
      r, w := SeekHalf(KnightRing(to), KnightAttd(to, blockers), pieces[Slot(me.Other(), Knight)], me);
      if r { return; }
      r, w := SeekHalf(PawnAttd(to, me.Other()), PawnAttd(to, me.Other()), pieces[Slot(me.Other(), Pawn)], me);
    }

    method KingStepRefuted(me: Side, from: int, to: int) returns (r: bool, ghost w: int)
      requires Agrees() && OnBoard(from) && OnBoard(to) && Palace(to, me)
      ensures if r then KingRefutes(Board(), me, from, to, w) else forall s :: !KingRefutes(Board(), me, from, to, s)
      ensures r <==> exists s :: KingRefutes(Board(), me, from, to, s)
    {
      hide OnRankBy, OnFileBy, NearBy, SameFile, Palace, Flip;
      if SameFile(from, to) {
        r, w := SeenOnRank(me, to, blockers);
      } else {
        r, w := SeenOnFile(me, to, blockers);
      }
      if r { return; }
      r, w := SeenNear(me, to);
      if r || square[to].Empty? { return; }
      if SameFile(from, to) {
        r, w := SeenOnFile(me, to, Flip(blockers, from));
      } else {
        r, w := SeenOnRank(me, to, Flip(blockers, from));
      }
    }

    // A king move, the mover not being in check.
    method KingMoveIsLegal(me: Side, from: int, to: int) returns (ok: bool)
      requires Agrees() && Placed(Board()) && Pseudo(Board(), me, from, to) && square[from].kind.King?
      requires Safe(Board(), me)
      ensures ok <==> Safe(Apply(Board(), from, to), me)
    {
      hide KingRefutes, Safe, Placed, KingPlaced;
      var k := King(me);
      OnlyKing(Board(), me, from, k);
      KingRefutedIffUnsafe(Board(), me, from, to);
      var bad;
      ghost var w;
      bad, w := KingStepRefuted(me, from, to);
      ok := !bad;
    }

    // Rooks, cannons, knights and pawns around k over the occupancy `block`, pieces on `skip` aside.
    method LookAround(me: Side, k: int, block: set<int>, skip: set<int>) returns (r: bool, ghost w: int)
      requires Agrees() && OnBoard(k) && Palace(k, me)
      ensures if r then w !in skip && AttackOver(Board(), me.Other(), k, block, w)
              else forall s :: s in skip || !AttackOver(Board(), me.Other(), k, block, s)
      ensures r <==> exists s :: s !in skip && AttackOver(Board(), me.Other(), k, block, s)
    {
      hide RookRankAtt, RookFileAtt, CannonRankAtt, CannonFileAtt, KnightAttd, PawnAttd, RankMask, FileMask;
      hide KnightRing, HalfHit, Hit, Palace;
      var opp := me.Other();
      HomeAttackers(k, me, block);
      r, w := SeekHalf(RankMask(k), RookRankAtt(k, block), pieces[Slot(opp, Rook)] - skip, me);
      if r { return; }
      r, w := Seek(FileMask(k), RookFileAtt(k, block), pieces[Slot(opp, Rook)] - skip);
      if r { return; }
      r, w := SeekHalf(RankMask(k), CannonRankAtt(k, block), pieces[Slot(opp, Cannon)] - skip, me);
      if r { return; }
      r, w := Seek(FileMask(k), CannonFileAtt(k, block), pieces[Slot(opp, Cannon)] - skip);
      if r { return; }
      r, w := SeekHalf(KnightRing(k), KnightAttd(k, block), pieces[Slot(opp, Knight)] - skip, me);
      if r { return; }
      r, w := SeekHalf(PawnAttd(k, opp), PawnAttd(k, opp), pieces[Slot(opp, Pawn)] - skip, me);
    }

    // The filter in check.  It also takes the other king for a facing one when
    // the move takes it down a file that is open but for the mover.
    method PseudoIsLegalInCheck(me: Side, from: int, to: int) returns (ok: bool)
      requires Agrees() && Placed(Board()) && Pseudo(Board(), me, from, to)
      ensures ok <==> Safe(Apply(Board(), from, to), me) && !TakesDownFile(Board(), me, from, to)
      ensures !Facing(Board()) && Rules.InCheck(Board(), me) ==> (ok <==> Safe(Apply(Board(), from, to), me))
    {
      hide AttackOver, Safe, Reaches, Occ, Screens, Flip, Xor2, SameFile, TakesDownFile, Facing, Rules.InCheck;
      ghost var b := Board();
      var k := King(me);
      var other := King(me.Other());
      MovesKeepKing(b, me, from, to, me, k);
      OccApply(b, from, to);
      TakesDownFileIs(b, me, from, to, k, other);
      var block := Flip(blockers, from);
      var skip := {};
      if square[from].kind.King? {
        OnlyKing(b, me, from, k);
        KingTakesNoKing(b, me, from, to, other);
        k := to;
      } else if square[to].Man? {
        skip := {to};
      } else {
        block := Flip(block, to);
      }
      LookIffUnsafe(b, me, from, to, k, block, skip, other);
      if TakesDownFile(b, me, from, to) && !Facing(b) && Rules.InCheck(b, me) {
        StillStruck(b, me, from, to);
      }
      ghost var w;
      var bad;
      bad, w := LookAround(me, k, block, skip);
      ok := !bad && !(SameFile(k, other) && Screens(block, k, other) == {});
    }

    // The filter out of check.
    method PseudoIsLegal(me: Side, from: int, to: int) returns (ok: bool)
      requires Agrees() && Placed(Board()) && Pseudo(Board(), me, from, to) && Safe(Board(), me)
      ensures ok <==> Safe(Apply(Board(), from, to), me)
    {
      hide Safe, Reaches, Occ;
      if square[from].kind.King? {
        ok := KingMoveIsLegal(me, from, to);
      } else {
        ok := PieceMoveIsLegal(me, from, to);
      }
    }

    // ---- the bare moves of the repetition rules: no capture, no turn, no stack ----

    method RepMoveDo(from: int, to: int)
      requires Agrees() && Movable(Board(), from, to) && Board()[to].Empty?
      modifies this`blockers, square, pieces
      ensures Agrees() && Board() == Apply(old(Board()), from, to)
    {
      ShiftPiece(from, to);
    }

    method RepMoveUndo(from: int, to: int)
      requires Agrees() && Movable(Board(), to, from) && Board()[from].Empty?
      modifies this`blockers, square, pieces
      ensures Agrees() && Board() == Apply(old(Board()), to, from)
    {
      ShiftPiece(to, from);
    }

    method ShiftPiece(a: int, z: int)
      requires Agrees() && Movable(Board(), a, z) && Board()[z].Empty?
      modifies this`blockers, square, pieces
      ensures Agrees() && Board() == Apply(old(Board()), a, z)
    {
      hide Men, Of, Occ, Flip;
      ghost var b, n := Board(), number[..];
      var piece := square[a];
      blockers := Xor2(blockers, a, z);
      ToggleBits(piece, Empty, a, z);
      square[z] := piece;
      square[a] := Empty;
      assert Board() == Apply(b, a, z);
      BitsAfterMove(old(pieces[..]), b, a, z);
      CountsAfterMove(n, b, a, z);
      OccApply(b, a, z);
    }
  }
}
