// Bitboards as sets of squares.  A square s below 45 is bit s + 19 of the first
// word, any other is bit s - 45 of the second.
module Bitboards {
  import opened Geometry
  import opened Attacks

  function BitOf(s: int): int { if s < 45 then s + 19 else s - 45 }

  // bits[0] | bits[1]
  function Merged(bb: set<int>): set<int> { set s | s in bb :: BitOf(s) }

  predicate OnlyOneBit(bb: set<int>) { |Merged(bb)| == 1 }

  // One of the two words: the half board of side c.
  function HalfOf(bb: set<int>, c: Side): set<int> { set s | s in bb && HomeHalf(s, c) }

  function Xor2(bb: set<int>, from: int, to: int): set<int> { Flip(Flip(bb, from), to) }

  // The engine's two-stage question: does an attack set meet the targets, asked
  // of the cheap mask first; on one half of the board, or on the whole of it.
  predicate HalfHit(mask: set<int>, att: set<int>, targets: set<int>, c: Side) {
    HalfOf(mask * targets, c) != {} && HalfOf(att * targets, c) != {}
  }

  predicate Hit(mask: set<int>, att: set<int>, targets: set<int>) {
    mask * targets != {} && att * targets != {}
  }

  lemma HitMeans(mask: set<int>, att: set<int>, targets: set<int>)
    requires att <= mask
    ensures Hit(mask, att, targets) <==> exists s :: s in att && s in targets
  {
    if att * targets != {} {
      var s := Element(att * targets);
      assert s in mask * targets;
    }
    if s :| s in att && s in targets {
      assert s in att * targets && s in mask * targets;
    }
  }

  lemma HalfHitMeans(mask: set<int>, att: set<int>, targets: set<int>, c: Side)
    requires att <= mask && forall s :: s in att ==> HomeHalf(s, c)
    ensures HalfHit(mask, att, targets, c) <==> exists s :: s in att && s in targets
  {
    if HalfOf(att * targets, c) != {} {
      var s := Element(HalfOf(att * targets, c));
      assert s in HalfOf(mask * targets, c);
    }
    if s :| s in att && s in targets {
      assert s in HalfOf(att * targets, c) && s in HalfOf(mask * targets, c);
    }
  }

  lemma HalfIsAll(bb: set<int>, c: Side)
    requires forall s :: s in bb ==> HomeHalf(s, c)
    ensures HalfOf(bb, c) == bb
  {
  }

  // The two-stage question with a witness.
  method Seek(mask: set<int>, att: set<int>, targets: set<int>) returns (r: bool, ghost w: int)
    requires att <= mask
    ensures r == Hit(mask, att, targets)
    ensures if r then w in att && w in targets else forall s :: !(s in att && s in targets)
  {
    HitMeans(mask, att, targets);
    r, w := Hit(mask, att, targets), 0;
    if r {
      w := Element(att * targets);
    }
  }

  method SeekHalf(mask: set<int>, att: set<int>, targets: set<int>, c: Side) returns (r: bool, ghost w: int)
    requires att <= mask && forall s :: s in att ==> HomeHalf(s, c)
    ensures r == HalfHit(mask, att, targets, c)
    ensures if r then w in att && w in targets else forall s :: !(s in att && s in targets)
  {
    HalfHitMeans(mask, att, targets, c);
    r, w := HalfHit(mask, att, targets, c), 0;
    if r {
      w := Element(HalfOf(att * targets, c));
    }
  }

  method PopFirst(bb: set<int>) returns (s: int)
    requires bb != {} && forall x :: x in bb ==> OnBoard(x)
    ensures s in bb && forall x :: x in bb ==> s <= x
  {
    s := 0;
    while s !in bb
      invariant forall x :: x in bb ==> s <= x < 90
      decreases 90 - s
    {
      ghost var w :| w in bb;
      s := s + 1;
    }
  }

  lemma Element<T>(x: set<T>) returns (a: T)
    requires x != {}
    ensures a in x
  {
    a :| a in x;
  }

  ghost predicate AllEqual(x: set<int>) { forall a, b :: a in x && b in x ==> a == b }

  lemma OneMember(x: set<int>)
    ensures |x| == 1 <==> x != {} && AllEqual(x)
  {
    if x != {} {
      var a := Element(x);
      assert |x| == 1 + |x - {a}|;
      if x - {a} != {} {
        var b := Element(x - {a});
      }
    }
  }

  predicate SplitPair(bb: set<int>, s: int) { bb == {s, s + 64} }

  // The merged test takes bb for a single square iff all its squares share one bit.
  lemma OnlyOneBitMeans(bb: set<int>)
    ensures OnlyOneBit(bb) <==> bb != {} && forall x, y :: x in bb && y in bb ==> BitOf(x) == BitOf(y)
  {
    OneMember(Merged(bb));
    assert forall x :: x in bb ==> BitOf(x) in Merged(bb);
    if bb == {} {
      assert Merged(bb) == {};
    } else {
      var x := Element(bb);
      assert BitOf(x) in Merged(bb);
    }
  }

  // So it is exact but for two squares 64 apart, which it takes for one.
  lemma OnlyOneBitExact(bb: set<int>)
    requires forall x :: x in bb ==> OnBoard(x)
    ensures OnlyOneBit(bb) <==> |bb| == 1 || exists s :: SplitPair(bb, s)
  {
    OnlyOneBitMeans(bb);
    OneMember(bb);
    if OnlyOneBit(bb) && |bb| != 1 {
      assert !AllEqual(bb);
      var v, w :| v in bb && w in bb && v != w;
      var x, y := if v < w then v else w, if v < w then w else v;
      assert BitOf(x) == BitOf(y);
      forall u | u in bb ensures u == x || u == y {
        assert BitOf(u) == BitOf(x);
      }
      assert SplitPair(bb, x);
    }
    if s :| SplitPair(bb, s) {
      assert s in bb && s + 64 in bb;
    }
  }

  // On one rank or file two squares are never 64 apart, and the test is exact.
  lemma OnlyOneBitOnLine(occ: set<int>, a: int, b: int)
    ensures OnlyOneBit(Screens(occ, a, b)) <==> |Screens(occ, a, b)| == 1
  {
    var bb := Screens(occ, a, b);
    OnlyOneBitExact(bb);
    if s :| SplitPair(bb, s) {
      assert s in bb && s + 64 in bb;
    }
  }

  lemma SubsetSize<T>(x: set<T>, y: set<T>)
    requires x <= y
    ensures |x| <= |y|
  {
    assert y == x + (y - x);
  }
}
