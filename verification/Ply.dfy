// The packed ply field: two bytes, the least depth at which a stored position
// was visited with White and with Black to move.
module Ply {
  import opened Geometry
  import opened Options

  // One visit: the side to move, the depth, whether the record held any score.
  datatype Visit = Visit(side: Side, depth: nat, scored: bool)

  // White moves at even depths and Black at odd ones; the search stops at 500.
  predicate Consistent(v: Visit) { v.depth <= 500 && v.depth % 2 == (if v.side.White? then 0 else 1) }

  ghost predicate AllConsistent(visits: seq<Visit>) { forall i :: 0 <= i < |visits| ==> Consistent(visits[i]) }

  // The high byte belongs to White, the low byte to Black.
  function Byte(packed: int, c: Side): int { if c.White? then packed / 256 % 256 else packed % 256 }

  // Negative when the side has no visit.
  function StoredPly(packed: int, c: Side): int { 2 * Byte(packed, c) - (if c.White? then 2 else 1) }

  function ByteFor(c: Side, depth: nat): int { if c.White? then depth / 2 + 1 else (depth + 1) / 2 }

  // Write one byte and keep the other.
  function Repacked(packed: int, c: Side, depth: nat): int {
    if c.White? then Byte(packed, Black) + 256 * ByteFor(c, depth) else 256 * Byte(packed, White) + ByteFor(c, depth)
  }

  class PlyField {
    var ply: Option<int>

    constructor ()
      ensures ply == None
    {
      ply := None;
    }

    method Visit(v: Visit)
      modifies this
      ensures ply == Visited(old(ply), v)
    {
      var storedWhite, storedBlack := -2, -1;
      var stored := -1;
      var packed := 0;
      if ply.Some? {
        packed := ply.value;
        storedWhite := StoredPly(packed, White);
        storedBlack := StoredPly(packed, Black);
        var least := if storedWhite < storedBlack then storedWhite else storedBlack;
        var most := if storedWhite < storedBlack then storedBlack else storedWhite;
        stored := if storedWhite >= 0 && storedBlack > 0 then least else most;
        packed := Repacked(packed, v.side, v.depth);
      } else {
        packed := 256 * (if v.side.White? then ByteFor(White, v.depth) else 0)
          + (if v.side.White? then 0 else ByteFor(Black, v.depth));
      }
      if stored >= 0 {
        var own := if v.side.White? then storedWhite else storedBlack;
        if own < 0 || own > v.depth {
          ply := Some(packed);
        }
      } else if v.scored || ply.Some? {
        ply := Some(packed);
      }
    }
  }

  // A visit lowers the byte of the side to move, if the depth is less; a position
  // with no field and no scores is left alone.
  function Visited(ply: Option<int>, v: Visit): Option<int> {
    if ply.None? then (if v.scored then Some(Repacked(0, v.side, v.depth)) else None)
    else
      var own := StoredPly(ply.value, v.side);
      if own < 0 || own > v.depth then Some(Repacked(ply.value, v.side, v.depth)) else ply
  }

  // The least recorded depth of a side.
  function DepthOf(ply: Option<int>, c: Side): Option<int> {
    if ply.None? || StoredPly(ply.value, c) < 0 then None else Some(StoredPly(ply.value, c))
  }

  function Run(visits: seq<Visit>): Option<int> {
    if visits == [] then None else Visited(Run(visits[..|visits| - 1]), visits[|visits| - 1])
  }

  // A visit is recorded from the first one on that finds a score.
  predicate Recorded(visits: seq<Visit>, i: nat)
    requires i < |visits|
  {
    exists j :: 0 <= j <= i && visits[j].scored
  }

  function Lower(a: Option<int>, depth: int): Option<int> {
    if a.None? || a.value > depth then Some(depth) else a
  }

  // The least depth over the recorded visits of a side.
  ghost function LeastDepth(visits: seq<Visit>, c: Side): Option<int> {
    if visits == [] then None
    else
      var n := |visits| - 1;
      var before := LeastDepth(visits[..n], c);
      if visits[n].side == c && Recorded(visits, n) then Lower(before, visits[n].depth) else before
  }

  lemma BytesBack(packed: int, c: Side, depth: nat)
    requires depth <= 500
    ensures Byte(Repacked(packed, c, depth), c) == ByteFor(c, depth)
    ensures Byte(Repacked(packed, c, depth), c.Other()) == Byte(packed, c.Other())
  {
  }

  // A byte gives the depth back exactly when White is at an even depth and
  // Black at an odd one; Black at depth 0 even reads as no visit.
  lemma DepthBack(c: Side, depth: nat)
    ensures 2 * ByteFor(c, depth) - (if c.White? then 2 else 1) == depth <==> depth % 2 == (if c.White? then 0 else 1)
    ensures ByteFor(Black, 0) == 0
  {
  }

  // One visit: the own byte drops to the depth, the other byte stays.
  lemma OneVisit(ply: Option<int>, v: Visit, c: Side)
    requires Consistent(v)
    ensures var after := Visited(ply, v);
      DepthOf(after, c) == if (ply.Some? || v.scored) && v.side == c then Lower(DepthOf(ply, c), v.depth)
        else DepthOf(ply, c)
  {
    hide Byte, ByteFor, Repacked;
    BytesBack(if ply.None? then 0 else ply.value, v.side, v.depth);
    DepthBack(v.side, v.depth);
    ZeroBytes(c);
  }

  lemma ZeroBytes(c: Side)
    ensures Byte(0, c) == 0
  {
  }

  lemma {:induction false} SomethingRecorded(visits: seq<Visit>)
    ensures Run(visits).Some? <==> exists j :: 0 <= j < |visits| && visits[j].scored
  {
    if visits != [] {
      var n := |visits| - 1;
      SomethingRecorded(visits[..n]);
      if j :| 0 <= j < |visits| && visits[j].scored {
        assert j < n ==> visits[..n][j].scored;
      }
    }
  }

  // Over any run of visits each byte is a running minimum.
  lemma {:induction false} RunningMinimum(visits: seq<Visit>, c: Side)
    requires AllConsistent(visits)
    ensures DepthOf(Run(visits), c) == LeastDepth(visits, c)
  {
    if visits != [] {
      hide DepthOf, Visited;
      var n := |visits| - 1;
      RunningMinimum(visits[..n], c);
      SomethingRecorded(visits[..n]);
      OneVisit(Run(visits[..n]), visits[n], c);
      if Run(visits[..n]).Some? {
        var j :| 0 <= j < n && visits[..n][j].scored;
        assert visits[j].scored;
      }
      assert Recorded(visits, n) <==> Run(visits[..n]).Some? || visits[n].scored by {
        if Recorded(visits, n) {
          var j :| 0 <= j <= n && visits[j].scored;
          assert j < n ==> visits[..n][j].scored;
        }
      }
    } else {
      assert DepthOf(None, c) == None;
    }
  }

  // The field itself: the high byte is one more than half White's least depth, the low byte half Black's rounded up.
  lemma FieldIs(visits: seq<Visit>)
    requires AllConsistent(visits) && Run(visits).Some?
    ensures var p, w, b := Run(visits).value, LeastDepth(visits, White), LeastDepth(visits, Black);
      p == 256 * (if w.Some? then w.value / 2 + 1 else 0) + (if b.Some? then (b.value + 1) / 2 else 0)
  {
    RunningMinimum(visits, White);
    RunningMinimum(visits, Black);
    TwoBytes(visits);
    hide Run, LeastDepth;
    BytesAre(Run(visits).value);
  }

  lemma BytesAre(p: int)
    requires 0 <= p < 65536
    ensures var w, b := DepthOf(Some(p), White), DepthOf(Some(p), Black);
      p == 256 * (if w.Some? then w.value / 2 + 1 else 0) + (if b.Some? then (b.value + 1) / 2 else 0)
  {
    var hi, lo := p / 256, p % 256;
    assert Byte(p, White) == hi && Byte(p, Black) == lo;
    hide Byte;
  }

  lemma {:induction false} TwoBytes(visits: seq<Visit>)
    requires AllConsistent(visits) && Run(visits).Some?
    ensures 0 <= Run(visits).value < 65536
  {
    var n := |visits| - 1;
    if Run(visits[..n]).Some? {
      TwoBytes(visits[..n]);
    }
  }

  // The least depth is attained by a recorded visit ...
  lemma {:induction false} LeastAttained(visits: seq<Visit>, c: Side) returns (i: nat)
    requires LeastDepth(visits, c).Some?
    ensures i < |visits| && visits[i].side == c && Recorded(visits, i) && visits[i].depth == LeastDepth(visits, c).value
  {
    hide Recorded;
    var n := |visits| - 1;
    var before := LeastDepth(visits[..n], c);
    if before == LeastDepth(visits, c) {
      i := LeastAttained(visits[..n], c);
      RecordedPrefix(visits, i);
    } else {
      i := n;
    }
  }

  // ... and undercut by none.
  lemma {:induction false} LeastNotUndercut(visits: seq<Visit>, c: Side, i: nat)
    requires i < |visits| && visits[i].side == c && Recorded(visits, i)
    ensures LeastDepth(visits, c).Some? && LeastDepth(visits, c).value <= visits[i].depth
  {
    hide Recorded;
    var n := |visits| - 1;
    if i < n {
      RecordedPrefix(visits, i);
      LeastNotUndercut(visits[..n], c, i);
    }
  }

  lemma RecordedPrefix(visits: seq<Visit>, i: nat)
    requires i < |visits| - 1
    ensures Recorded(visits[..|visits| - 1], i) == Recorded(visits, i)
  {
    var init := visits[..|visits| - 1];
    if Recorded(visits, i) {
      var j :| 0 <= j <= i && visits[j].scored;
      assert init[j].scored;
    }
    if Recorded(init, i) {
      var j :| 0 <= j <= i && init[j].scored;
      assert visits[j].scored;
    }
  }
}
