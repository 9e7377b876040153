// The mirrors of the extension work on the text of a FEN, rank by rank.
module FenMirror {
  import opened Rules
  import opened Symmetry
  import opened Fen

  function Join(rows: seq<string>): string
    requires rows != []
  {
    if |rows| == 1 then rows[0] else rows[0] + "/" + Join(rows[1..])
  }

  function Text(rows: seq<string>, t: char): string
    requires rows != []
  {
    Join(rows) + " " + [t]
  }

  predicate Plain(s: string) { forall i :: 0 <= i < |s| ==> s[i] != '/' && s[i] != ' ' }

  ghost predicate AllPlain(rows: seq<string>) { forall i :: 0 <= i < |rows| ==> Plain(rows[i]) }

  // What is left of the text, j characters into row k.
  function Tail(rows: seq<string>, k: nat, j: nat, t: char): string
    requires k < |rows| && j <= |rows[k]|
  {
    rows[k][j..] + (if k + 1 < |rows| then "/" + Join(rows[k + 1..]) else "") + " " + [t]
  }

  lemma TailStep(rows: seq<string>, k: nat, j: nat, t: char)
    requires k < |rows| && j <= |rows[k]| && AllPlain(rows)
    ensures Tail(rows, k, j, t) != []
    ensures var s := Tail(rows, k, j, t);
      if j < |rows[k]| then s[0] == rows[k][j] && s[0] != '/' && s[0] != ' ' && s[1..] == Tail(rows, k, j + 1, t)
      else if k + 1 < |rows| then s[0] == '/' && s[1..] == Tail(rows, k + 1, 0, t)
      else s == " " + [t]
  {
    if j < |rows[k]| {
      assert Plain(rows[k]);
      assert rows[k][j..][1..] == rows[k][j + 1..];
    } else if k + 1 < |rows| {
      assert rows[k][j..] == [];
      var more := rows[k + 1..];
      assert more[1..] == rows[k + 2..];
      assert Tail(rows, k, j, t)[1..] == Join(more) + " " + [t];
    }
  }

  lemma TailBegins(rows: seq<string>, t: char)
    requires rows != []
    ensures Tail(rows, 0, 0, t) == Text(rows, t)
  {
  }

  // The rows before k, each with its slash.
  function Before(rows: seq<string>, k: nat): string
    requires k <= |rows|
  {
    if k == 0 then "" else Before(rows, k - 1) + rows[k - 1] + "/"
  }

  lemma {:induction false} BeforeJoins(rows: seq<string>, k: nat)
    requires k < |rows|
    ensures Before(rows, k) + Join(rows[k..]) == Join(rows)
  {
    if k == 0 {
      assert rows[0..] == rows;
    } else {
      BeforeJoins(rows, k - 1);
      assert rows[k - 1..][1..] == rows[k..];
      assert Before(rows, k) + Join(rows[k..]) == Before(rows, k - 1) + (rows[k - 1] + "/" + Join(rows[k..]));
    }
  }

  function Reversed(rows: seq<string>): seq<string> { seq(|rows|, i requires 0 <= i < |rows| => Rev(rows[i])) }

  method GetLRFen(fen: string, ghost rows: seq<string>, ghost t: char) returns (out: string)
    requires rows != [] && AllPlain(rows) && fen == Text(rows, t)
    ensures out == Text(Reversed(rows), if t == 'w' then 'w' else 'b')
  {
    hide Join, Rev, Plain;
    var index, tmp := 0, [];
    ghost var k := 0;
    out := [];
    TailBegins(rows, t);
    assert fen[0..] == fen;
    while index < |fen|
      invariant 0 <= index <= |fen| && k < |rows| && |tmp| <= |rows[k]| && tmp == rows[k][..|tmp|]
      invariant fen[index..] == Tail(rows, k, |tmp|, t)
      invariant out == Before(Reversed(rows), k)
      decreases |fen| - index
    {
      TailStep(rows, k, |tmp|, t);
      assert fen[index] == fen[index..][0] && fen[index + 1..] == fen[index..][1..];
      if fen[index] == ' ' {
        assert tmp == rows[k];
        BeforeJoins(Reversed(rows), k);
        LastRow(Reversed(rows), k);
        out := out + Rev(tmp) + " " + [if fen[index + 1] == 'w' then 'w' else 'b'];
        break;
      } else if fen[index] == '/' {
        assert tmp == rows[k];
        out := out + Rev(tmp) + "/";
        k := k + 1;
        tmp := [];
      } else {
        tmp := tmp + [fen[index]];
      }
      index := index + 1;
    }
  }

  lemma LastRow(rows: seq<string>, k: nat)
    requires k + 1 == |rows|
    ensures Join(rows[k..]) == rows[k]
  {
  }

  // ---- turning the board round ----

  function Turned(row: string, reverse: bool): string { if reverse then Rev(Swapped(row)) else Swapped(row) }

  // The first k rows, last one first.
  function Stack(rows: seq<string>, k: nat, reverse: bool): seq<string>
    requires k <= |rows|
  {
    seq(k, i requires 0 <= i < k => Turned(rows[k - 1 - i], reverse))
  }

  lemma StackMore(rows: seq<string>, k: nat, reverse: bool)
    requires k < |rows|
    ensures Stack(rows, k + 1, reverse) == [Turned(rows[k], reverse)] + Stack(rows, k, reverse)
    ensures k > 0 ==>
      Join(Stack(rows, k + 1, reverse)) == Turned(rows[k], reverse) + "/" + Join(Stack(rows, k, reverse))
    ensures Join(Stack(rows, k + 1, reverse)) != [] || rows[k] == []
  {
    assert Stack(rows, k + 1, reverse) == [Turned(rows[k], reverse)] + Stack(rows, k, reverse);
    assert ([Turned(rows[k], reverse)] + Stack(rows, k, reverse))[1..] == Stack(rows, k, reverse);
  }

  // Put a finished row in front of the text.
  method Prepend(out: string, tmp: string, reverse: bool) returns (more: string)
    ensures var row := if reverse then Rev(tmp) else tmp;
      more == if out != [] then row + "/" + out else row
  {
    more := if reverse then Rev(tmp) else tmp;
    if out != [] {
      more := more + "/" + out;
    }
  }

  // ccbgetBWfen, and with reverse ccbgetLRBWfen.
  method GetBWFen(fen: string, reverse: bool, ghost rows: seq<string>, ghost t: char) returns (out: string)
    requires rows != [] && AllPlain(rows) && fen == Text(rows, t) && forall i :: 0 <= i < |rows| ==> rows[i] != []
    ensures out == Text(Stack(rows, |rows|, reverse), if t == 'w' then 'b' else 'w')
  {
    hide Join, Rev, Plain, SwapCase;
    var index, tmp := 0, [];
    ghost var k := 0;
    out := [];
    TailBegins(rows, t);
    assert fen[0..] == fen;
    while index < |fen|
      invariant 0 <= index <= |fen| && k < |rows| && |tmp| <= |rows[k]| && tmp == Swapped(rows[k][..|tmp|])
      invariant fen[index..] == Tail(rows, k, |tmp|, t)
      invariant if k == 0 then out == [] else out != [] && out == Join(Stack(rows, k, reverse))
      decreases |fen| - index
    {
      TailStep(rows, k, |tmp|, t);
      StackMore(rows, k, reverse);
      assert fen[index] == fen[index..][0] && fen[index + 1..] == fen[index..][1..];
      if fen[index] == ' ' || fen[index] == '/' {
        assert rows[k][..|tmp|] == rows[k];
        out := Prepend(out, tmp, reverse);
        if k == 0 { LastRow(Stack(rows, 1, reverse), 0); StackOne(rows, reverse); }
      }
      if fen[index] == ' ' {
        out := out + " " + [if fen[index + 1] == 'w' then 'b' else 'w'];
        break;
      } else if fen[index] == '/' {
        k := k + 1;
        tmp := [];
      } else {
        SwappedConcat(rows[k][..|tmp|], [fen[index]]);
        assert rows[k][..|tmp|] + [fen[index]] == rows[k][..|tmp| + 1];
        assert Swapped([fen[index]]) == [SwapCase(fen[index])];
        tmp := tmp + [SwapCase(fen[index])];
      }
      index := index + 1;
    }
  }

  lemma StackOne(rows: seq<string>, reverse: bool)
    requires rows != []
    ensures Join(Stack(rows, 1, reverse)) == Turned(rows[0], reverse)
  {
  }

  // ---- the texts of positions ----

  function RowList(b: Board): seq<string> { seq(10, i requires 0 <= i < 10 => Row(b, 9 - i)) }

  lemma {:induction false} RowsJoin(b: Board, r: nat)
    requires r < 10
    ensures Join(seq(r + 1, i requires 0 <= i <= r => Row(b, r - i))) == RowsDown(b, r)
  {
    var rows := seq(r + 1, i requires 0 <= i <= r => Row(b, r - i));
    if r > 0 {
      RowsJoin(b, r - 1);
      assert rows[1..] == seq(r, i requires 0 <= i <= r - 1 => Row(b, r - 1 - i));
    }
  }

  lemma FenIsText(p: Pos)
    ensures FenOf(p) == Text(RowList(p.board), TurnChar(p.turn))
  {
    RowsJoin(p.board, 9);
    assert RowList(p.board) == seq(10, i requires 0 <= i <= 9 => Row(p.board, 9 - i));
  }

  lemma {:induction false} RunPlain(cells: seq<Cell>, n: nat)
    requires n + |cells| <= 9
    ensures Plain(RunText(cells, n)) && (n + |cells| > 0 ==> RunText(cells, n) != [])
    decreases |cells|
  {
    if cells != [] {
      RunPlain(cells[1..], if cells[0].Empty? then n + 1 else 0);
    }
  }

  lemma RowsPlain(b: Board)
    ensures |RowList(b)| == 10 && AllPlain(RowList(b)) && forall i :: 0 <= i < 10 ==> RowList(b)[i] != []
  {
    hide Plain, RunText;
    forall i | 0 <= i < 10
      ensures Plain(RowList(b)[i]) && RowList(b)[i] != []
    {
      RunPlain(RowCells(b, 9 - i), 0);
    }
  }

  // The text mirrors are the board mirrors.
  lemma RowListMirrors(g: Mirror, b: Board)
    ensures RowList(BoardOf(g, b)) ==
      if g.swapSides then Stack(RowList(b), 10, g.swapFiles) else if g.swapFiles then Reversed(RowList(b))
        else RowList(b)
  {
    hide Row, Rev, Swapped;
    var x, y := RowList(BoardOf(g, b)), RowList(b);
    forall i | 0 <= i < 10
      ensures g.swapSides ==> x[i] == Stack(y, 10, g.swapFiles)[i]
      ensures !g.swapSides && g.swapFiles ==> x[i] == Reversed(y)[i]
      ensures !g.swapSides && !g.swapFiles ==> x[i] == y[i]
    {
      RowMirrors(g, b, 9 - i);
      SwapRev(Row(b, i));
    }
    if g.swapSides {
      assert x == Stack(y, 10, g.swapFiles);
    } else if g.swapFiles {
      assert x == Reversed(y);
    } else {
      assert x == y;
    }
  }

  lemma SwapRev(s: string)
    ensures Swapped(Rev(s)) == Rev(Swapped(s))
  {
  }

  method LRFen(fen: string, ghost p: Pos) returns (out: string)
    requires fen == FenOf(p)
    ensures out == FenOf(Image(LR, p))
  {
    hide Join, Row, RowList, BoardOf;
    FenIsText(p);
    RowsPlain(p.board);
    RowListMirrors(LR, p.board);
    FenIsText(Image(LR, p));
    out := GetLRFen(fen, RowList(p.board), TurnChar(p.turn));
  }

  method BWFen(fen: string, reverse: bool, ghost p: Pos) returns (out: string)
    requires fen == FenOf(p)
    ensures out == FenOf(Image(Mirror(reverse, true), p))
  {
    hide Join, Row, RowList, BoardOf;
    FenIsText(p);
    RowsPlain(p.board);
    RowListMirrors(Mirror(reverse, true), p.board);
    FenIsText(Image(Mirror(reverse, true), p));
    out := GetBWFen(fen, reverse, RowList(p.board), TurnChar(p.turn));
  }
}
