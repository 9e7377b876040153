// The rank look-up tables: ray scans, the enumeration of occupancies, and the
// index taken from the bits of a half board.
module RankTables {
  import opened Geometry
  import opened Attacks
  import opened Bitboards

  // ---- ray scans ----

  datatype Dir = West | East | South | North

  function Inc(d: Dir): int {
    match d
    case West => -1
    case East => 1
    case South => -9
    case North => 9
  }

  predicate OnRay(d: Dir, sq: int, t: int) {
    match d
    case West => t < sq && SameRank(t, sq)
    case East => sq < t && SameRank(t, sq)
    case South => t < sq && SameFile(t, sq)
    case North => sq < t && SameFile(t, sq)
  }

  // The loop condition of a scan; along a file a square on the board is enough.
  predicate KeepsOn(d: Dir, sq: int, t: int) {
    OnBoard(t) && (d.South? || d.North? || SameRank(t, sq))
  }

  // t lies on the ray before end.
  predicate Nearer(d: Dir, t: int, end: int) { if d.West? || d.South? then end < t else t < end }

  // Blockers between two squares of a line.
  function Count(block: set<int>, sq: int, t: int): nat { |Screens(block, sq, t)| }

  // What a ray shows when s blockers may be jumped.
  function RayAtt(d: Dir, sq: int, block: set<int>, s: nat): set<int> {
    set t | 0 <= t < 90 && OnRay(d, sq, t) && Count(block, sq, t) == s
  }

  // A scan is at a square of the ray or just past its end.
  ghost predicate ScanAt(d: Dir, sq: int, tmp: int) {
    (KeepsOn(d, sq, tmp) ==> OnRay(d, sq, tmp)) &&
      (!KeepsOn(d, sq, tmp) ==> forall t :: OnBoard(t) && OnRay(d, sq, t) ==> Nearer(d, t, tmp))
  }

  lemma ScanBegins(d: Dir, sq: int)
    requires OnBoard(sq)
    ensures ScanAt(d, sq, sq + Inc(d)) && Line(sq, sq + Inc(d)) == {}
    ensures forall t :: OnBoard(t) && OnRay(d, sq, t) ==> !Nearer(d, t, sq + Inc(d))
  {
    forall t | OnBoard(t) && OnRay(d, sq, t)
      ensures !Nearer(d, t, sq + Inc(d))
      ensures !KeepsOn(d, sq, sq + Inc(d)) ==> Nearer(d, t, sq + Inc(d))
    {
      RaySteps(d, sq, t);
    }
  }

  // On a ray squares come Inc(d) apart.
  lemma RaySteps(d: Dir, sq: int, t: int)
    requires OnBoard(sq) && OnBoard(t) && OnRay(d, sq, t)
    ensures !Nearer(d, t, sq + Inc(d)) && KeepsOn(d, sq, sq + Inc(d)) && OnRay(d, sq, sq + Inc(d))
    ensures t != sq + Inc(d) ==> OnRay(d, sq + Inc(d), t)
  {
  }

  lemma RayGoesOn(d: Dir, sq: int, t: int)
    requires OnBoard(sq) && OnBoard(t) && OnRay(d, sq, t) && KeepsOn(d, sq, t + Inc(d))
    ensures OnRay(d, sq, t + Inc(d))
  {
  }

  lemma RayOrder(d: Dir, sq: int, t: int, u: int)
    requires OnBoard(sq) && OnBoard(t) && OnBoard(u) && OnRay(d, sq, t) && OnRay(d, sq, u)
    ensures t == u || OnRay(d, t, u) || OnRay(d, u, t)
    ensures OnRay(d, t, u) <==> Nearer(d, t, u)
    ensures Nearer(d, u, t) <==> u in Line(sq, t)
  {
  }

  // One step along the ray: the square left behind joins the line.
  lemma ScanSteps(d: Dir, sq: int, t: int)
    requires OnBoard(sq) && OnBoard(t) && OnRay(d, sq, t)
    ensures ScanAt(d, sq, t + Inc(d))
    ensures forall u :: OnBoard(u) && OnRay(d, sq, u) ==> (Nearer(d, u, t + Inc(d)) <==> Nearer(d, u, t) || u == t)
    ensures forall u :: OnBoard(u) && OnRay(d, sq, u) && !Nearer(d, u, t + Inc(d)) ==> Line(sq, u) >= Line(sq, t) + {t}
    ensures t !in Line(sq, t)
    ensures KeepsOn(d, sq, t + Inc(d)) ==> Line(sq, t + Inc(d)) == Line(sq, t) + {t}
  {
    var n := t + Inc(d);
    forall u | OnBoard(u) && OnRay(d, sq, u)
      ensures Nearer(d, u, n) <==> Nearer(d, u, t) || u == t
      ensures !KeepsOn(d, sq, n) ==> Nearer(d, u, n)
      ensures !Nearer(d, u, n) ==> Line(sq, u) >= Line(sq, t) + {t}
    {
      RayOrder(d, sq, t, u);
      if OnRay(d, t, u) {
        RaySteps(d, t, u);
        LineGrows(d, sq, t, u);
      }
    }
    if KeepsOn(d, sq, n) {
      RayGoesOn(d, sq, t);
      LineToNext(d, sq, t);
    }
  }

  lemma LineGrows(d: Dir, sq: int, t: int, u: int)
    requires OnBoard(sq) && OnBoard(t) && OnBoard(u) && OnRay(d, sq, t) && OnRay(d, t, u)
    ensures Line(sq, u) >= Line(sq, t) + {t}
  {
  }

  lemma LineToNext(d: Dir, sq: int, t: int)
    requires OnBoard(sq) && OnBoard(t) && OnRay(d, sq, t) && OnBoard(t + Inc(d)) && OnRay(d, sq, t + Inc(d))
    ensures Line(sq, t + Inc(d)) == Line(sq, t) + {t}
  {
  }

  // Blockers seen one step on, and at least so many further out.
  lemma CountSteps(d: Dir, sq: int, t: int, block: set<int>)
    requires OnBoard(sq) && OnBoard(t) && OnRay(d, sq, t)
    ensures var more := Count(block, sq, t) + (if t in block then 1 else 0);
      && (KeepsOn(d, sq, t + Inc(d)) ==> Count(block, sq, t + Inc(d)) == more)
      && (forall u :: OnBoard(u) && OnRay(d, sq, u) && !Nearer(d, u, t + Inc(d)) ==> Count(block, sq, u) >= more)
  {
    ScanSteps(d, sq, t);
    hide Line, Inc, OnRay, Nearer, KeepsOn;
    var x, y := Screens(block, sq, t), (Line(sq, t) + {t}) * block;
    assert y == if t in block then x + {t} else x;
    assert t !in x;
    forall u | OnBoard(u) && OnRay(d, sq, u) && !Nearer(d, u, t + Inc(d))
      ensures Count(block, sq, u) >= |y|
    {
      assert y <= Screens(block, sq, u);
      SubsetSize(y, Screens(block, sq, u));
    }
  }

  // Attacked squares of the ray before end.
  function AttBefore(d: Dir, sq: int, block: set<int>, s: nat, end: int): set<int> {
    set t | t in RayAtt(d, sq, block, s) && Nearer(d, t, end)
  }

  function Left(d: Dir, tmp: int): int { if d.West? || d.South? then tmp + 10 else 100 - tmp }

  method RookRay(d: Dir, sq: int, block: set<int>, sofar: set<int>) returns (attack: set<int>)
    requires OnBoard(sq)
    ensures attack == sofar + RayAtt(d, sq, block, 0)
  {
    hide OnRay, KeepsOn, Nearer, Count, Inc, RayAtt, AttBefore, ScanAt;
    var tmp := sq + Inc(d);
    attack := sofar;
    RayBegins(d, sq, block, 0);
    while KeepsOn(d, sq, tmp)
      invariant ScanAt(d, sq, tmp) && attack == sofar + AttBefore(d, sq, block, 0, tmp)
      invariant KeepsOn(d, sq, tmp) ==> Count(block, sq, tmp) == 0
      decreases Left(d, tmp)
    {
      RayStep(d, sq, block, 0, tmp);
      attack := attack + {tmp};
      if tmp in block {
        RayStops(d, sq, block, 0, tmp);
        return;
      }
      LeftLess(d, sq, tmp);
      tmp := tmp + Inc(d);
    }
    RayEnds(d, sq, block, 0, tmp);
  }

  method CannonRay(d: Dir, sq: int, block: set<int>, sofar: set<int>) returns (attack: set<int>)
    requires OnBoard(sq)
    ensures attack == sofar + RayAtt(d, sq, block, 1)
  {
    hide OnRay, KeepsOn, Nearer, Count, Inc, RayAtt, AttBefore, ScanAt;
    var tmp, find := sq + Inc(d), false;
    attack := sofar;
    RayBegins(d, sq, block, 1);
    while KeepsOn(d, sq, tmp)
      invariant ScanAt(d, sq, tmp) && attack == sofar + AttBefore(d, sq, block, 1, tmp)
      invariant KeepsOn(d, sq, tmp) ==> Count(block, sq, tmp) == (if find then 1 else 0)
      decreases Left(d, tmp)
    {
      RayStep(d, sq, block, 1, tmp);
      if find {
        attack := attack + {tmp};
        if tmp in block {
          RayStops(d, sq, block, 1, tmp);
          return;
        }
      }
      if tmp in block {
        find := true;
      }
      LeftLess(d, sq, tmp);
      tmp := tmp + Inc(d);
    }
    RayEnds(d, sq, block, 1, tmp);
  }

  lemma RayBegins(d: Dir, sq: int, block: set<int>, s: nat)
    requires OnBoard(sq)
    ensures ScanAt(d, sq, sq + Inc(d)) && AttBefore(d, sq, block, s, sq + Inc(d)) == {}
    ensures Count(block, sq, sq + Inc(d)) == 0
  {
    ScanBegins(d, sq);
    assert Screens(block, sq, sq + Inc(d)) == {};
    hide OnRay, Nearer, Inc;
  }

  // One square of a scan.
  lemma RayStep(d: Dir, sq: int, block: set<int>, s: nat, tmp: int)
    requires OnBoard(sq) && ScanAt(d, sq, tmp) && KeepsOn(d, sq, tmp) && Count(block, sq, tmp) <= s
    ensures ScanAt(d, sq, tmp + Inc(d))
    ensures AttBefore(d, sq, block, s, tmp + Inc(d)) == AttBefore(d, sq, block, s, tmp) + Here(block, sq, s, tmp)
    ensures KeepsOn(d, sq, tmp + Inc(d)) ==>
      Count(block, sq, tmp + Inc(d)) == Count(block, sq, tmp) + (if tmp in block then 1 else 0)
  {
    assert OnBoard(tmp) && OnRay(d, sq, tmp);
    ScanSteps(d, sq, tmp);
    CountSteps(d, sq, tmp, block);
    NotBeforeSelf(d, tmp);
    hide OnRay, Nearer, Inc, KeepsOn, Line, Count, ScanAt;
    var x, y := AttBefore(d, sq, block, s, tmp + Inc(d)), AttBefore(d, sq, block, s, tmp) + Here(block, sq, s, tmp);
    forall u
      ensures u in x <==> u in y
    {
      if OnBoard(u) && OnRay(d, sq, u) {
        assert Nearer(d, u, tmp + Inc(d)) <==> Nearer(d, u, tmp) || u == tmp;
      }
    }
  }

  function Here(block: set<int>, sq: int, s: nat, tmp: int): set<int> {
    if Count(block, sq, tmp) == s then {tmp} else {}
  }

  // Behind the last blocker that may be met nothing is attacked.
  lemma RayStops(d: Dir, sq: int, block: set<int>, s: nat, tmp: int)
    requires OnBoard(sq) && ScanAt(d, sq, tmp) && KeepsOn(d, sq, tmp) && Count(block, sq, tmp) == s && tmp in block
    ensures RayAtt(d, sq, block, s) == AttBefore(d, sq, block, s, tmp) + {tmp}
  {
    RayStep(d, sq, block, s, tmp);
    assert OnBoard(tmp) && OnRay(d, sq, tmp);
    CountSteps(d, sq, tmp, block);
    hide OnRay, Nearer, Inc, KeepsOn, Line, Count, ScanAt;
  }

  lemma NotBeforeSelf(d: Dir, t: int)
    ensures !Nearer(d, t, t)
  {
  }

  lemma RayEnds(d: Dir, sq: int, block: set<int>, s: nat, tmp: int)
    requires ScanAt(d, sq, tmp) && !KeepsOn(d, sq, tmp)
    ensures AttBefore(d, sq, block, s, tmp) == RayAtt(d, sq, block, s)
  {
    hide OnRay, Nearer, Inc, KeepsOn, Line;
  }

  lemma LeftLess(d: Dir, sq: int, tmp: int)
    requires KeepsOn(d, sq, tmp)
    ensures Left(d, tmp + Inc(d)) < Left(d, tmp) && Left(d, tmp) >= 0
  {
  }

  // The four scans, each over two rays.
  method RookRankScan(sq: int, block: set<int>) returns (attack: set<int>)
    requires OnBoard(sq)
    ensures attack == RookRankAtt(sq, block)
  {
    attack := RookRay(West, sq, block, {});
    attack := RookRay(East, sq, block, attack);
    RaysMake(sq, block);
  }

  method CannonRankScan(sq: int, block: set<int>) returns (attack: set<int>)
    requires OnBoard(sq)
    ensures attack == CannonRankAtt(sq, block)
  {
    attack := CannonRay(West, sq, block, {});
    attack := CannonRay(East, sq, block, attack);
    RaysMake(sq, block);
  }

  method RookFileScan(sq: int, block: set<int>) returns (attack: set<int>)
    requires OnBoard(sq)
    ensures attack == RookFileAtt(sq, block)
  {
    attack := RookRay(South, sq, block, {});
    attack := RookRay(North, sq, block, attack);
    RaysMake(sq, block);
  }

  method CannonFileScan(sq: int, block: set<int>) returns (attack: set<int>)
    requires OnBoard(sq)
    ensures attack == CannonFileAtt(sq, block)
  {
    attack := CannonRay(South, sq, block, {});
    attack := CannonRay(North, sq, block, attack);
    RaysMake(sq, block);
  }

  lemma RaysMake(sq: int, block: set<int>)
    requires OnBoard(sq)
    ensures RayAtt(West, sq, block, 0) + RayAtt(East, sq, block, 0) == RookRankAtt(sq, block)
    ensures RayAtt(West, sq, block, 1) + RayAtt(East, sq, block, 1) == CannonRankAtt(sq, block)
    ensures RayAtt(South, sq, block, 0) + RayAtt(North, sq, block, 0) == RookFileAtt(sq, block)
    ensures RayAtt(South, sq, block, 1) + RayAtt(North, sq, block, 1) == CannonFileAtt(sq, block)
  {
    hide Line, SameRank, SameFile;
  }

  // ---- the subsets of a mask, by number ----

  function Pow2(n: nat): (p: nat)
    ensures p > 0
  {
    if n == 0 then 1 else 2 * Pow2(n - 1)
  }

  // Bit i of the number says whether the i-th square is in the subset.
  function SubsetAt(ix: nat, order: seq<int>): set<int> {
    if order == [] then {} else (if ix % 2 == 1 then {order[0]} else {}) + SubsetAt(ix / 2, order[1..])
  }

  function IndexIn(x: set<int>, order: seq<int>): nat {
    if order == [] then 0 else (if order[0] in x then 1 else 0) + 2 * IndexIn(x, order[1..])
  }

  ghost predicate Ascending(order: seq<int>) { forall i, j :: 0 <= i < j < |order| ==> order[i] < order[j] }

  function Squares(order: seq<int>): set<int> { set s | s in order }

  lemma {:induction false} SubsetFits(ix: nat, order: seq<int>)
    ensures SubsetAt(ix, order) <= Squares(order)
  {
    if order != [] {
      SubsetFits(ix / 2, order[1..]);
    }
  }

  // Every subset has a number ...
  lemma {:induction false} SubsetOfIndex(x: set<int>, order: seq<int>)
    ensures IndexIn(x, order) < Pow2(|order|) && SubsetAt(IndexIn(x, order), order) == x * Squares(order)
  {
    if order != [] {
      SubsetOfIndex(x, order[1..]);
      assert IndexIn(x, order) / 2 == IndexIn(x, order[1..]);
      assert Squares(order) == {order[0]} + Squares(order[1..]);
    }
  }

  // ... and only one.
  lemma {:induction false} IndexOfSubset(ix: nat, order: seq<int>)
    requires Ascending(order) && ix < Pow2(|order|)
    ensures IndexIn(SubsetAt(ix, order), order) == ix
  {
    if order != [] {
      var x, rest := SubsetAt(ix, order), order[1..];
      SubsetFits(ix / 2, rest);
      IndexOfSubset(ix / 2, rest);
      assert order[0] !in Squares(rest);
      SameIndex(x, SubsetAt(ix / 2, rest), rest);
    }
  }

  lemma {:induction false} SameIndex(x: set<int>, y: set<int>, order: seq<int>)
    requires forall i :: 0 <= i < |order| ==> (order[i] in x <==> order[i] in y)
    ensures IndexIn(x, order) == IndexIn(y, order)
  {
    if order != [] {
      SameIndex(x, y, order[1..]);
    }
  }

  lemma {:induction false} NoSubset(order: seq<int>)
    ensures SubsetAt(0, order) == {}
  {
    if order != [] {
      NoSubset(order[1..]);
    }
  }

  // After i squares of the order: p is the weight of the next bit, p * r is what is left of
  // the number, and rlt holds the squares of the bits gone by.
  ghost predicate Peeled(index: nat, order: seq<int>, i: nat, p: nat, r: nat, ix: nat, left: set<int>, rlt: set<int>) {
    && i <= |order| && p == Pow2(i) && ix == p * r && r < Pow2(|order| - i)
    && left == Squares(order[i..]) && rlt + SubsetAt(r, order[i..]) == SubsetAt(index, order)
  }

  lemma PeelFirst(index: nat, order: seq<int>)
    requires index < Pow2(|order|)
    ensures Peeled(index, order, 0, 1, index, index, Squares(order), {})
  {
    assert order[0..] == order;
  }

  lemma PeelNext(index: nat, order: seq<int>, i: nat, p: nat, r: nat, ix: nat, left: set<int>, rlt: set<int>)
    requires Ascending(order) && Peeled(index, order, i, p, r, ix, left, rlt) && ix != 0
    ensures i < |order| && order[i] in left && (forall s :: s in left ==> order[i] <= s && s in order)
    ensures p > 0 && ix / p % 2 == r % 2 && (r % 2 == 1 ==> p <= ix)
    ensures var bit := if r % 2 == 1 then {order[i]} else {};
      Peeled(index, order, i + 1, 2 * p, r / 2, ix - (if r % 2 == 1 then p else 0), left - {order[i]}, rlt + bit)
  {
    hide Squares, SubsetAt;
    NotZero(p, r);
    PeelsMore(i, |order|, r);
    FirstOf(order, i);
    BitTest(p, r);
    hide Pow2, Ascending;
    SubsetNext(r, order, i);
  }

  lemma NotZero(p: nat, r: nat)
    requires p * r != 0
    ensures p > 0 && r > 0
  {
  }

  lemma PeelsMore(i: nat, n: nat, r: nat)
    requires i <= n && 0 < r < Pow2(n - i)
    ensures i < n && Pow2(i + 1) == 2 * Pow2(i) && r / 2 < Pow2(n - i - 1)
  {
  }

  lemma SubsetNext(r: nat, order: seq<int>, i: nat)
    requires i < |order|
    ensures SubsetAt(r, order[i..]) == (if r % 2 == 1 then {order[i]} else {}) + SubsetAt(r / 2, order[i + 1..])
  {
    assert order[i..][0] == order[i] && order[i..][1..] == order[i + 1..];
  }

  lemma PeelLast(index: nat, order: seq<int>, i: nat, p: nat, r: nat, left: set<int>, rlt: set<int>)
    requires Peeled(index, order, i, p, r, 0, left, rlt)
    ensures rlt == SubsetAt(index, order)
  {
    NoSubset(order[i..]);
    Zero(p, r);
  }

  // p is 1 << i: testing the bit is a division, and as all lower bits are gone,
  // clearing the lowest bit is a subtraction.
  method IxToBb(index: nat, mask: set<int>, ghost order: seq<int>) returns (rlt: set<int>)
    requires Ascending(order) && mask == Squares(order) && index < Pow2(|order|)
    requires forall s :: s in order ==> OnBoard(s)
    ensures rlt == SubsetAt(index, order)
  {
    hide Pow2, SubsetAt, Ascending, Squares, Peeled;
    var left, ix, p := mask, index, 1;
    ghost var i: nat, r: nat := 0, index;
    rlt := {};
    PeelFirst(index, order);
    while ix != 0
      invariant i <= |order| && Peeled(index, order, i, p, r, ix, left, rlt)
      decreases |order| - i
    {
      PeelNext(index, order, i, p, r, ix, left, rlt);
      var j := PopFirst(left);
      assert j == order[i];
      if ix / p % 2 == 1 {
        rlt := rlt + {j};
        ix := ix - p;
      } else {
        assert rlt + {} == rlt;
      }
      left := left - {j};
      i, r, p := i + 1, r / 2, 2 * p;
    }
    PeelLast(index, order, i, p, r, left, rlt);
  }

  lemma Zero(p: nat, r: nat)
    requires p > 0 && p * r == 0
    ensures r == 0
  {
  }

  lemma FirstOf(order: seq<int>, i: nat)
    requires Ascending(order) && i < |order|
    ensures order[i] in Squares(order[i..]) && Squares(order[i..]) - {order[i]} == Squares(order[i + 1..])
    ensures forall s :: s in Squares(order[i..]) ==> order[i] <= s && s in order
  {
    assert order[i..][0] == order[i];
    forall s | s in order[i..]
      ensures order[i] <= s && s in order && (s == order[i] || s in order[i + 1..])
    {
      var k :| 0 <= k < |order[i..]| && order[i..][k] == s;
      assert order[i + k] == s;
      if k > 0 {
        assert order[i + 1..][k - 1] == s;
      }
    }
    forall s | s in order[i + 1..]
      ensures s in order[i..] && s != order[i]
    {
      var k :| 0 <= k < |order[i + 1..]| && order[i + 1..][k] == s;
      assert order[i..][k + 1] == s && order[i + 1 + k] == s;
    }
  }

  lemma BitTest(p: nat, r: nat)
    requires p > 0
    ensures p * r / p == r
    ensures p * r - (if r % 2 == 1 then p else 0) == 2 * p * (r / 2)
  {
    DivMul(p, r);
    var k := r / 2;
    assert r == 2 * k + r % 2;
    assert p * (2 * k) == 2 * p * k;
  }

  lemma DivMul(p: nat, r: nat)
    requires p > 0
    ensures p * r / p == r
  {
    Divides(p * r, p, r, 0);
  }

  lemma Divides(w: nat, d: nat, q: nat, m: nat)
    requires d > 0 && w == d * q + m && m < d
    ensures w / d == q && w % d == m
  {
    var e := w / d;
    assert w == d * e + w % d;
    assert d * (e - q) == m - w % d;
    NoMultiple(d, e - q);
  }

  lemma NoMultiple(d: int, k: int)
    requires d > 0 && -d < d * k < d
    ensures k == 0
  {
    Monotone(d, 1, k);
    Monotone(d, k, -1);
  }

  lemma Monotone(d: int, x: int, y: int)
    requires d > 0
    ensures x <= y ==> d * x <= d * y
  {
  }

  // ---- the index into the tables ----

  // The squares of a rank but its two ends.
  function Middle(r: nat): seq<int> { seq(7, k => 9 * r + 1 + k) }

  function RankNo(sq: int): (r: nat)
    requires OnBoard(sq)
    ensures r < 10 && r == Rank(sq)
  {
    Rank(sq)
  }

  function Shift(r: nat): nat
    requires r < 10
  {
    [20, 29, 38, 47, 56, 1, 10, 19, 28, 37][r]
  }

  function HalfSide(sq: int): Side { if sq < 45 then White else Black }

  // The square of a bit of a word, on the board or not.
  function SquareOfBit(c: Side, i: nat): int { if c.White? then i - 19 else i + 45 }

  predicate BitSet(bb: set<int>, c: Side, i: nat) {
    SquareOfBit(c, i) in bb && HomeHalf(SquareOfBit(c, i), c) && OnBoard(SquareOfBit(c, i))
  }

  // The word of a half board from bit i on.
  function WordFrom(bb: set<int>, c: Side, i: nat): nat
    decreases 64 - i
  {
    if i >= 64 then 0 else (if BitSet(bb, c, i) then 1 else 0) + 2 * WordFrom(bb, c, i + 1)
  }

  function Word(bb: set<int>, c: Side): nat { WordFrom(bb, c, 0) }

  lemma {:induction false} ShiftedWord(bb: set<int>, c: Side, n: nat)
    requires n <= 64
    ensures Word(bb, c) / Pow2(n) == WordFrom(bb, c, n)
  {
    if n > 0 {
      ShiftedWord(bb, c, n - 1);
      HalfWord(bb, c, n - 1);
      hide Word, WordFrom;
      DivTwice(Word(bb, c), Pow2(n - 1));
    } else {
      hide WordFrom;
      assert Word(bb, c) / 1 == Word(bb, c);
    }
  }

  lemma HalfWord(bb: set<int>, c: Side, n: nat)
    requires n < 64
    ensures WordFrom(bb, c, n) / 2 == WordFrom(bb, c, n + 1)
  {
    hide BitSet;
  }

  lemma DivTwice(w: nat, p: nat)
    requires p > 0
    ensures w / (2 * p) == w / p / 2
  {
    var q := w / p / 2;
    assert w == p * (w / p) + w % p;
    assert w / p == 2 * q + w / p % 2;
    assert w == 2 * p * q + (p * (w / p % 2) + w % p);
    Divides(w, 2 * p, q, p * (w / p % 2) + w % p);
  }

  // Seven bits of the word number the middle of the rank.
  lemma {:induction false} LowBits(bb: set<int>, c: Side, n: nat, order: seq<int>)
    requires n + |order| <= 64
    requires forall k :: 0 <= k < |order| ==>
      order[k] == SquareOfBit(c, n + k) && HomeHalf(order[k], c) && OnBoard(order[k])
    ensures WordFrom(bb, c, n) % Pow2(|order|) == IndexIn(bb, order)
    decreases |order|
  {
    if order != [] {
      LowBits(bb, c, n + 1, order[1..]);
      assert BitSet(bb, c, n) <==> order[0] in bb;
      ModTwice(if BitSet(bb, c, n) then 1 else 0, WordFrom(bb, c, n + 1), Pow2(|order| - 1));
    } else {
      assert WordFrom(bb, c, n) % 1 == 0;
    }
  }

  lemma ModTwice(b: nat, w: nat, p: nat)
    requires p > 0 && b <= 1
    ensures (b + 2 * w) % (2 * p) == b + 2 * (w % p)
  {
    var q := w / p;
    assert w == p * q + w % p;
    assert b + 2 * w == 2 * p * q + (b + 2 * (w % p));
    Divides(b + 2 * w, 2 * p, q, b + 2 * (w % p));
  }

  // block[half] >> shift & 127
  function RankIndex(sq: int, block: set<int>): nat
    requires OnBoard(sq)
  {
    Word(block, HalfSide(sq)) / Pow2(Shift(RankNo(sq))) % 128
  }

  lemma RankIndexIs(sq: int, block: set<int>)
    requires OnBoard(sq)
    ensures RankIndex(sq, block) == IndexIn(block, Middle(RankNo(sq))) < 128
  {
    var r, c, n := RankNo(sq), HalfSide(sq), Shift(RankNo(sq));
    ShiftedWord(block, c, n);
    MiddleBits(r, c);
    assert c == HalfSide(9 * r);
    LowBits(block, c, n, Middle(r));
    assert Pow2(7) == 128 by { SevenBits(); }
  }

  lemma SevenBits()
    ensures Pow2(7) == 128
  {
    assert Pow2(3) == 8;
    assert Pow2(5) == 32;
  }

  lemma MiddleBits(r: nat, c: Side)
    requires r < 10 && c == HalfSide(9 * r)
    ensures forall k :: 0 <= k < 7 ==>
      Middle(r)[k] == SquareOfBit(c, Shift(r) + k) && HomeHalf(Middle(r)[k], c) && OnBoard(Middle(r)[k])
    ensures Shift(r) + 7 <= 64
  {
  }

  // The ends of a rank never block anything.
  lemma EndsDontMatter(sq: int, block: set<int>, s: int)
    requires OnBoard(sq) && OnBoard(s) && SameRank(s, sq)
    ensures Screens(block * Squares(Middle(RankNo(sq))), sq, s) == Screens(block, sq, s)
  {
    forall x | x in Line(sq, s)
      ensures x in Middle(RankNo(sq))
    {
      var r := RankNo(sq);
      assert 9 * r < x < 9 * r + 8;
      assert Middle(r)[x - (9 * r + 1)] == x;
    }
  }

  lemma MaskedRank(sq: int, block: set<int>)
    requires OnBoard(sq)
    ensures RookRankAtt(sq, block * Squares(Middle(RankNo(sq)))) == RookRankAtt(sq, block)
    ensures CannonRankAtt(sq, block * Squares(Middle(RankNo(sq)))) == CannonRankAtt(sq, block)
  {
    hide Screens, Squares, RankNo;
    forall t | OnBoard(t) && SameRank(t, sq)
      ensures Screens(block * Squares(Middle(RankNo(sq))), sq, t) == Screens(block, sq, t)
    {
      EndsDontMatter(sq, block, t);
    }
  }

  class RankTables {
    const rook: array2<set<int>>
    const cannon: array2<set<int>>

    ghost predicate Filled(sq: int)
      requires OnBoard(sq) && Shaped()
      reads rook, cannon
    {
      forall i {:trigger rook[sq, i]} {:trigger cannon[sq, i]} :: 0 <= i < 128 ==>
        rook[sq, i] == RookRankAtt(sq, SubsetAt(i, Middle(RankNo(sq)))) &&
          cannon[sq, i] == CannonRankAtt(sq, SubsetAt(i, Middle(RankNo(sq))))
    }

    ghost predicate Shaped() {
      rook.Length0 == cannon.Length0 == 90 && rook.Length1 == cannon.Length1 == 128 && rook != cannon
    }

    constructor ()
      ensures Shaped() && forall sq :: OnBoard(sq) ==> Filled(sq)
    {
      rook := new set<int>[90, 128]((i, j) => {});
      cannon := new set<int>[90, 128]((i, j) => {});
      new;
      hide RookRankAtt, CannonRankAtt, SubsetAt, RankNo;
      for sq := 0 to 90
        invariant Shaped()
        invariant forall s, i :: 0 <= s < sq && 0 <= i < 128 ==>
          rook[s, i] == RookRankAtt(s, SubsetAt(i, Middle(RankNo(s))))
        invariant forall s, i :: 0 <= s < sq && 0 <= i < 128 ==>
          cannon[s, i] == CannonRankAtt(s, SubsetAt(i, Middle(RankNo(s))))
      {
        FillSquare(sq);
      }
    }

    // All occupancies of the rank, numbered.
    method FillSquare(sq: int)
      requires OnBoard(sq) && Shaped()
      modifies rook, cannon
      ensures Filled(sq)
      ensures forall s, i :: 0 <= s < 90 && 0 <= i < 128 && s != sq ==>
        rook[s, i] == old(rook[s, i]) && cannon[s, i] == old(cannon[s, i])
    {
      hide RookRankAtt, CannonRankAtt, SubsetAt, RankNo, IndexIn, Word, Ascending;
      var mask := set s | s in Middle(RankNo(sq));
      MiddleAscends(sq);
      for i := 0 to 128
        invariant forall s, j :: 0 <= s < 90 && 0 <= j < 128 && s != sq ==>
          rook[s, j] == old(rook[s, j]) && cannon[s, j] == old(cannon[s, j])
        invariant forall j :: 0 <= j < i ==> rook[sq, j] == RookRankAtt(sq, SubsetAt(j, Middle(RankNo(sq))))
        invariant forall j :: 0 <= j < i ==> cannon[sq, j] == CannonRankAtt(sq, SubsetAt(j, Middle(RankNo(sq))))
      {
        var block := IxToBb(i, mask, Middle(RankNo(sq)));
        IndexOfSubset(i, Middle(RankNo(sq)));
        RankIndexIs(sq, block);
        var index := RankIndex(sq, block);
        var rookAtt := RookRankScan(sq, block);
        var cannonAtt := CannonRankScan(sq, block);
        rook[sq, index] := rookAtt;
        cannon[sq, index] := cannonAtt;
      }
    }

    method RookRankAttack(sq: int, block: set<int>) returns (attack: set<int>)
      requires OnBoard(sq) && Shaped() && Filled(sq)
      ensures attack == RookRankAtt(sq, block)
    {
      hide RookRankAtt, CannonRankAtt, SubsetAt, RankNo, IndexIn, Word;
      RankIndexIs(sq, block);
      SubsetOfIndex(block, Middle(RankNo(sq)));
      MaskedRank(sq, block);
      attack := rook[sq, RankIndex(sq, block)];
    }

    method CannonRankAttack(sq: int, block: set<int>) returns (attack: set<int>)
      requires OnBoard(sq) && Shaped() && Filled(sq)
      ensures attack == CannonRankAtt(sq, block)
    {
      hide RookRankAtt, CannonRankAtt, SubsetAt, RankNo, IndexIn, Word;
      RankIndexIs(sq, block);
      SubsetOfIndex(block, Middle(RankNo(sq)));
      MaskedRank(sq, block);
      attack := cannon[sq, RankIndex(sq, block)];
    }
  }

  lemma MiddleAscends(sq: int)
    requires OnBoard(sq)
    ensures Ascending(Middle(RankNo(sq))) && |Middle(RankNo(sq))| == 7 && Pow2(7) == 128
    ensures forall s :: s in Middle(RankNo(sq)) ==> OnBoard(s)
  {
    SevenBits();
  }
}
