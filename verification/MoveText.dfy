// Moves as four-character texts, their mirrors, and the order of texts.
module MoveText {
  import opened Geometry
  import opened Symmetry

  // ---- texts of squares and moves: file letter 'a' is file 8 ----

  function SquareText(s: int): string
    requires OnBoard(s)
  {
    ['a' + (8 - File(s)) as char, '0' + Rank(s) as char]
  }

  function TextOf(f: int, t: int): string
    requires OnBoard(f) && OnBoard(t)
  {
    SquareText(f) + SquareText(t)
  }

  // The mirror tables: letters a..i and digits 0..9 reverse, all else stays.
  function MirrorChar(g: Mirror, c: char): char {
    if g.swapFiles && 'a' <= c <= 'i' then 'a' + ('i' - c)
    else if g.swapSides && '0' <= c <= '9' then '0' + ('9' - c)
    else c
  }

  function MirrorText(g: Mirror, m: string): string {
    seq(|m|, i requires 0 <= i < |m| => MirrorChar(g, m[i]))
  }

  // The mirrors of the extension: at most four characters survive.
  method GetMirrorMove(g: Mirror, m: string) returns (r: string)
    ensures r == MirrorText(g, if |m| > 4 then m[..4] else m)
  {
    var n := if |m| > 4 then 4 else |m|;
    r := [];
    for i := 0 to n
      invariant r == MirrorText(g, m[..i])
    {
      r := r + [MirrorChar(g, m[i])];
    }
  }

  lemma CharsBack(g: Mirror, h: Mirror, c: char)
    ensures MirrorChar(g, MirrorChar(h, c)) == MirrorChar(Then(g, h), c)
    ensures MirrorChar(ID, c) == c
  {
  }

  lemma TextsCompose(g: Mirror, h: Mirror, m: string)
    ensures MirrorText(g, MirrorText(h, m)) == MirrorText(Then(g, h), m)
    ensures MirrorText(ID, m) == m && MirrorText(g, MirrorText(g, m)) == m
  {
    forall i | 0 <= i < |m|
      ensures MirrorChar(g, MirrorChar(h, m[i])) == MirrorChar(Then(g, h), m[i])
      ensures MirrorChar(g, MirrorChar(g, m[i])) == m[i] && MirrorChar(ID, m[i]) == m[i]
    {
      CharsBack(g, h, m[i]);
      CharsBack(g, g, m[i]);
    }
  }

  lemma SquareMirrors(g: Mirror, s: int)
    requires OnBoard(s)
    ensures OnBoard(SqOf(g, s)) && MirrorText(g, SquareText(s)) == SquareText(SqOf(g, s))
  {
    SqMoves(g, s);
    hide SqOf, Rank, File;
    assert 0 <= Rank(s) < 10 && 0 <= File(s) < 9 by { Coordinates(s); }
  }

  lemma Coordinates(s: int)
    requires OnBoard(s)
    ensures 0 <= Rank(s) < 10 && 0 <= File(s) < 9
  {
  }

  lemma MirrorConcat(g: Mirror, x: string, y: string)
    ensures MirrorText(g, x + y) == MirrorText(g, x) + MirrorText(g, y)
  {
  }

  // The text mirrors are the board mirrors.
  lemma TextMirrors(g: Mirror, f: int, t: int)
    requires OnBoard(f) && OnBoard(t)
    ensures OnBoard(SqOf(g, f)) && OnBoard(SqOf(g, t))
    ensures MirrorText(g, TextOf(f, t)) == TextOf(SqOf(g, f), SqOf(g, t))
  {
    SquareMirrors(g, f);
    SquareMirrors(g, t);
    MirrorConcat(g, SquareText(f), SquareText(t));
    hide SqOf, SquareText, MirrorText;
  }

  lemma TextInjective(f: int, t: int, f': int, t': int)
    requires OnBoard(f) && OnBoard(t) && OnBoard(f') && OnBoard(t') && TextOf(f, t) == TextOf(f', t')
    ensures f == f' && t == t'
  {
    var x, y := TextOf(f, t), TextOf(f', t');
    assert x[0] == y[0] && x[1] == y[1] && x[2] == y[2] && x[3] == y[3];
  }

  // ---- byte order ----

  predicate Less(a: string, b: string) {
    if b == [] then false
    else if a == [] then true
    else a[0] < b[0] || (a[0] == b[0] && Less(a[1..], b[1..]))
  }

  // Byte order without the recursion: after i equal characters the one text ends or has the lesser character.
  ghost predicate Precedes(a: string, b: string) {
    exists i :: 0 <= i <= |a| && i <= |b| && a[..i] == b[..i] && DiffersAt(a, b, i)
  }

  ghost predicate DiffersAt(a: string, b: string, i: nat)
    requires i <= |a| && i <= |b|
  {
    i < |b| && (i == |a| || a[i] < b[i])
  }

  lemma {:induction false} LessIs(a: string, b: string)
    ensures Less(a, b) <==> Precedes(a, b)
  {
    if Less(a, b) {
      var i := LessGoesFirst(a, b);
    }
    if Precedes(a, b) {
      var i :| 0 <= i <= |a| && i <= |b| && a[..i] == b[..i] && DiffersAt(a, b, i);
      FirstIsLess(a, b, i);
    }
  }

  lemma {:induction false} LessGoesFirst(a: string, b: string) returns (i: nat)
    requires Less(a, b)
    ensures i <= |a| && i <= |b| && a[..i] == b[..i] && DiffersAt(a, b, i)
  {
    i := 0;
    if a != [] && a[0] == b[0] {
      i := LessGoesFirst(a[1..], b[1..]);
      i := i + 1;
      assert a[..i] == [a[0]] + a[1..][..i - 1] && b[..i] == [b[0]] + b[1..][..i - 1];
    }
  }

  lemma {:induction false} FirstIsLess(a: string, b: string, i: nat)
    requires i <= |a| && i <= |b| && a[..i] == b[..i] && DiffersAt(a, b, i)
    ensures Less(a, b)
  {
    if i > 0 {
      assert a[0] == a[..i][0] == b[0];
      assert a[1..][..i - 1] == a[..i][1..] == b[1..][..i - 1];
      FirstIsLess(a[1..], b[1..], i - 1);
    }
  }

  ghost predicate NotAfter(a: string, b: string) { a == b || Precedes(a, b) }

  // r is the lesser of a and b.
  ghost predicate Lesser(r: string, a: string, b: string) { (r == a || r == b) && NotAfter(r, a) && NotAfter(r, b) }

  function Least(a: string, b: string): string { if Less(b, a) then b else a }

  lemma {:induction false} LessTotal(a: string, b: string)
    ensures Less(a, b) || Less(b, a) || a == b
    ensures !(Less(a, b) && Less(b, a)) && !Less(a, a)
  {
    if a != [] && b != [] {
      LessTotal(a[1..], b[1..]);
      assert a == [a[0]] + a[1..] && b == [b[0]] + b[1..];
    }
    if a != [] {
      LessTotal(a[1..], a[1..]);
    }
  }

  lemma {:induction false} LessTransitive(a: string, b: string, c: string)
    requires Less(a, b) && Less(b, c)
    ensures Less(a, c)
  {
    if a != [] && a[0] == b[0] == c[0] {
      LessTransitive(a[1..], b[1..], c[1..]);
    }
  }

  lemma LeastIs(a: string, b: string)
    ensures Lesser(Least(a, b), a, b)
  {
    hide Less, Precedes;
    LessTotal(a, b);
    LessIs(a, b);
    LessIs(b, a);
  }

  lemma NotLess(a: string, b: string)
    requires !Less(a, b)
    ensures NotAfter(b, a)
  {
    hide Less, Precedes;
    LessTotal(a, b);
    LessIs(b, a);
  }

  lemma LeastSwaps(a: string, b: string)
    ensures Least(a, b) == Least(b, a)
  {
    LessTotal(a, b);
  }
}
