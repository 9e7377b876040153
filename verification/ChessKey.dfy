// The chess Zobrist key, and how it follows single edits.
module ChessKey {
  import opened Geometry
  import opened ChessRules
  import opened Options
  import Hashing

  datatype Zobrist = Zobrist(piece: (Cell, int) -> bv64, ep: int -> bv64, right: nat -> bv64, side: bv64)

  function Xor(a: bv64, b: bv64): bv64 { Hashing.Xor(a, b) }

  function CellKey(z: Zobrist, c: Cell, s: int): bv64 { if c.Man? then z.piece(c, s) else 0 }

  function BoardKey(z: Zobrist, b: Board, i: nat): bv64
    requires i <= 64
    decreases 64 - i
  {
    if i == 64 then 0 else Xor(CellKey(z, b[i], i), BoardKey(z, b, i + 1))
  }

  function EpKey(z: Zobrist, ep: Option<int>): bv64 { if ep.Some? then z.ep(Col(ep.value)) else 0 }

  function SideKey(z: Zobrist, turn: Side): bv64 { if turn.White? then z.side else 0 }

  function RightKey(z: Zobrist, r: Rights, c: Side, short: bool): bv64 {
    if r.Get(c, short).Some? then z.right(RightIndex(c, short)) else 0
  }

  function RightIndex(c: Side, short: bool): nat { (if c.White? then 0 else 2) + (if short then 0 else 1) }

  // The table entry of a set of rights is the xor of the entries of its bits.
  function RightsKey(z: Zobrist, r: Rights): bv64 {
    Xor(Xor(RightKey(z, r, White, true), RightKey(z, r, White, false)),
        Xor(RightKey(z, r, Black, true), RightKey(z, r, Black, false)))
  }

  // The key computed afresh.
  function GameKey(z: Zobrist, g: Game): bv64 {
    Xor(Xor(Xor(BoardKey(z, g.board, 0), EpKey(z, g.ep)), SideKey(z, g.turn)), RightsKey(z, g.rights))
  }

  // On an empty board only the turn and the rights show: White to move, and the four rights in their order.
  lemma BareKey(z: Zobrist, g: Game, f: int)
    requires g == Game(seq(64, _ => Empty), Black, None, Rights(None, None, None, None))
    ensures GameKey(z, g) == 0 && GameKey(z, g.(turn := White)) == z.side
    ensures GameKey(z, g.(ep := Some(f))) == z.ep(f % 8)
    ensures GameKey(z, g.(rights := Rights(Some(f), None, None, None))) == z.right(0)
    ensures GameKey(z, g.(rights := Rights(None, Some(f), None, None))) == z.right(1)
    ensures GameKey(z, g.(rights := Rights(None, None, Some(f), None))) == z.right(2)
    ensures GameKey(z, g.(rights := Rights(None, None, None, Some(f)))) == z.right(3)
  {
    hide Xor, BoardKey;
    NoMen(z, g.board, 0);
    ZeroXor(0);
    ZeroXor(z.side);
    ZeroXor(z.ep(f % 8));
    ZeroXor(z.right(0));
    ZeroXor(z.right(1));
    ZeroXor(z.right(2));
    ZeroXor(z.right(3));
  }

  lemma {:induction false} NoMen(z: Zobrist, b: Board, i: nat)
    requires i <= 64 && forall s :: 0 <= s < 64 ==> b[s].Empty?
    ensures BoardKey(z, b, i) == 0
    decreases 64 - i
  {
    hide Xor;
    if i < 64 {
      NoMen(z, b, i + 1);
      ZeroXor(0);
    }
  }

  // ---- one edit at a time ----

  lemma ZeroXor(a: bv64)
    ensures Xor(a, 0) == a && Xor(0, a) == a && Xor(a, a) == 0
  {
    Hashing.XorSelf(a);
    Hashing.XorComm(a, 0);
    hide Hashing.Xor;
  }

  lemma Later(a: bv64, b: bv64, c: bv64)
    ensures Xor(Xor(a, b), c) == Xor(Xor(a, c), b)
  {
    Hashing.XorLater(a, b, c);
    hide Hashing.Xor;
  }

  lemma Cancel(a: bv64, b: bv64)
    ensures Xor(Xor(a, b), b) == a
  {
    Hashing.XorCancel(a, b);
    hide Hashing.Xor;
  }

  lemma Assoc(a: bv64, b: bv64, c: bv64)
    ensures Xor(Xor(a, b), c) == Xor(a, Xor(b, c))
  {
    Hashing.XorAssoc(a, b, c);
    hide Hashing.Xor;
  }

  lemma Comm(a: bv64, b: bv64)
    ensures Xor(a, b) == Xor(b, a)
  {
    Hashing.XorComm(a, b);
    hide Hashing.Xor;
  }

  // Emptying or filling one square toggles its key.
  lemma {:induction false} BoardKeyEdit(z: Zobrist, b: Board, s: int, c: Cell, i: nat)
    requires On(s) && i <= 64 && c.Man? && b[s].Empty?
    ensures BoardKey(z, b[s := c], i) == if i <= s then Xor(BoardKey(z, b, i), z.piece(c, s)) else BoardKey(z, b, i)
    decreases 64 - i
  {
    hide Xor;
    if i < 64 {
      var k, r := CellKey(z, b[i], i), BoardKey(z, b, i + 1);
      BoardKeyEdit(z, b, s, c, i + 1);
      if i == s {
        ZeroXor(r);
        Comm(z.piece(c, s), r);
      } else if i < s {
        Assoc(k, r, z.piece(c, s));
      }
    }
  }

  lemma PieceToggles(z: Zobrist, g: Game, s: int, c: Cell)
    requires On(s) && c.Man? && g.board[s].Empty?
    ensures var k := GameKey(z, g.(board := g.board[s := c]));
      k == Xor(GameKey(z, g), z.piece(c, s)) && GameKey(z, g) == Xor(k, z.piece(c, s))
  {
    hide Xor, BoardKey, RightsKey;
    BoardKeyEdit(z, g.board, s, c, 0);
    var p, e, t, r, x := BoardKey(z, g.board, 0), EpKey(z, g.ep), SideKey(z, g.turn), RightsKey(z, g.rights),
      z.piece(c, s);
    Later(p, x, e);
    Later(Xor(p, e), x, t);
    Later(Xor(Xor(p, e), t), x, r);
    Cancel(GameKey(z, g), x);
  }

  lemma EpToggles(z: Zobrist, g: Game, s: int)
    requires g.ep.None?
    ensures var k := GameKey(z, g.(ep := Some(s)));
      k == Xor(GameKey(z, g), z.ep(Col(s))) && GameKey(z, g) == Xor(k, z.ep(Col(s)))
  {
    hide Xor, BoardKey, RightsKey, Col;
    var p, t, r, x := BoardKey(z, g.board, 0), SideKey(z, g.turn), RightsKey(z, g.rights), z.ep(Col(s));
    ZeroXor(p);
    Later(p, x, t);
    Later(Xor(p, t), x, r);
    Cancel(GameKey(z, g), x);
  }

  lemma SideToggles(z: Zobrist, g: Game)
    ensures GameKey(z, g.(turn := g.turn.Other())) == Xor(GameKey(z, g), z.side)
  {
    hide Xor, BoardKey, RightsKey, EpKey;
    var p, r := Xor(BoardKey(z, g.board, 0), EpKey(z, g.ep)), RightsKey(z, g.rights);
    ZeroXor(p);
    Later(p, z.side, r);
    Cancel(Xor(p, r), z.side);
  }

  // Losing one right toggles its entry.
  lemma RightToggles(z: Zobrist, g: Game, c: Side, short: bool)
    requires g.rights.Get(c, short).Some?
    ensures GameKey(z, g.(rights := g.rights.Clear(c, short))) == Xor(GameKey(z, g), z.right(RightIndex(c, short)))
  {
    hide Xor, BoardKey, EpKey, SideKey;
    var x := z.right(RightIndex(c, short));
    RightsKeyToggles(z, g.rights, c, short);
    hide RightsKey;
    Assoc(Xor(Xor(BoardKey(z, g.board, 0), EpKey(z, g.ep)), SideKey(z, g.turn)), RightsKey(z, g.rights), x);
  }

  function Pair(a: bv64, b: bv64): bv64 { Xor(a, b) }

  lemma PairDrops(x: bv64, b: bv64)
    ensures Pair(0, b) == Xor(Pair(x, b), x) && Pair(b, 0) == Xor(Pair(b, x), x)
  {
    hide Xor;
    ZeroXor(b);
    Comm(x, b);
    Cancel(b, x);
  }

  lemma PairsToggle(a: bv64, b: bv64, x: bv64)
    ensures Xor(Xor(a, x), b) == Xor(Xor(a, b), x) && Xor(a, Xor(b, x)) == Xor(Xor(a, b), x)
  {
    hide Xor;
    Later(a, x, b);
    Assoc(a, b, x);
  }

  function WingsKey(z: Zobrist, r: Rights, c: Side): bv64 { Pair(RightKey(z, r, c, true), RightKey(z, r, c, false)) }

  lemma RightCleared(z: Zobrist, r: Rights, c: Side, short: bool)
    requires r.Get(c, short).Some?
    ensures RightKey(z, r, c, short) == z.right(RightIndex(c, short)) && RightKey(z, r.Clear(c, short), c, short) == 0
    ensures RightKey(z, r.Clear(c, short), c, !short) == RightKey(z, r, c, !short)
    ensures forall w :: RightKey(z, r.Clear(c, short), c.Other(), w) == RightKey(z, r, c.Other(), w)
  {
    hide RightIndex;
  }

  lemma WingsToggle(z: Zobrist, r: Rights, c: Side, short: bool)
    requires r.Get(c, short).Some?
    ensures WingsKey(z, r.Clear(c, short), c) == Xor(WingsKey(z, r, c), z.right(RightIndex(c, short)))
    ensures WingsKey(z, r.Clear(c, short), c.Other()) == WingsKey(z, r, c.Other())
  {
    RightCleared(z, r, c, short);
    PairDrops(z.right(RightIndex(c, short)), RightKey(z, r, c, !short));
    hide Xor, RightIndex, Pair, RightKey;
  }

  lemma RightsKeyToggles(z: Zobrist, r: Rights, c: Side, short: bool)
    requires r.Get(c, short).Some?
    ensures RightsKey(z, r.Clear(c, short)) == Xor(RightsKey(z, r), z.right(RightIndex(c, short)))
  {
    var x, cleared := z.right(RightIndex(c, short)), r.Clear(c, short);
    PairsAre(z, r);
    PairsAre(z, cleared);
    WingsToggle(z, r, c, short);
    assert c.Other() == if c.White? then Black else White;
    var white, black := WingsKey(z, r, White), WingsKey(z, r, Black);
    PairsToggle(white, black, x);
    hide *;
    if c.White? {
      assert WingsKey(z, cleared, White) == Xor(white, x) && WingsKey(z, cleared, Black) == black;
    } else {
      assert WingsKey(z, cleared, White) == white && WingsKey(z, cleared, Black) == Xor(black, x);
    }
  }

  lemma PairsAre(z: Zobrist, r: Rights)
    ensures RightsKey(z, r) == Xor(WingsKey(z, r, White), WingsKey(z, r, Black))
  {
    hide Xor, RightKey;
  }

  // Replacing all rights by taking the old entry out and putting the new one in.
  lemma RightsSwap(z: Zobrist, g: Game, r: Rights)
    ensures GameKey(z, g.(rights := r)) == Xor(Xor(GameKey(z, g), RightsKey(z, g.rights)), RightsKey(z, r))
  {
    hide Xor, BoardKey, EpKey, SideKey, RightsKey;
    Cancel(Xor(Xor(BoardKey(z, g.board, 0), EpKey(z, g.ep)), SideKey(z, g.turn)), RightsKey(z, g.rights));
  }
}
