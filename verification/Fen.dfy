// FEN texts of positions: writing them, and mirroring them as texts.
module Fen {
  import opened Geometry
  import opened Rules
  import opened Symmetry

  function PieceChar(c: Side, kind: Kind): char {
    match kind
    case King => if c.White? then 'K' else 'k'
    case Rook => if c.White? then 'R' else 'r'
    case Knight => if c.White? then 'N' else 'n'
    case Cannon => if c.White? then 'C' else 'c'
    case Advisor => if c.White? then 'A' else 'a'
    case Bishop => if c.White? then 'B' else 'b'
    case Pawn => if c.White? then 'P' else 'p'
  }

  // The letters of the pieces; E, G and H are second names.
  function PieceOfChar(c: char): Cell {
    match c
    case 'K' => Man(White, King) case 'k' => Man(Black, King)
    case 'R' => Man(White, Rook) case 'r' => Man(Black, Rook)
    case 'N' => Man(White, Knight) case 'n' => Man(Black, Knight)
    case 'H' => Man(White, Knight) case 'h' => Man(Black, Knight)
    case 'C' => Man(White, Cannon) case 'c' => Man(Black, Cannon)
    case 'A' => Man(White, Advisor) case 'a' => Man(Black, Advisor)
    case 'G' => Man(White, Advisor) case 'g' => Man(Black, Advisor)
    case 'B' => Man(White, Bishop) case 'b' => Man(Black, Bishop)
    case 'E' => Man(White, Bishop) case 'e' => Man(Black, Bishop)
    case 'P' => Man(White, Pawn) case 'p' => Man(Black, Pawn)
    case _ => Empty
  }

  // The letters as they are, capitals for White, and the three second names.
  lemma Letters(i: nat)
    requires i < 7
    ensures var kind := [King, Rook, Knight, Cannon, Advisor, Bishop, Pawn][i];
      && PieceChar(White, kind) == "KRNCABP"[i] && PieceChar(Black, kind) == "krncabp"[i]
      && PieceOfChar("KRNCABP"[i]) == Man(White, kind) && PieceOfChar("krncabp"[i]) == Man(Black, kind)
  {
  }

  // E, G and H, and only they, are read as other letters: B, A and N.
  function FirstName(c: char): char {
    match c
    case 'E' => 'B' case 'G' => 'A' case 'H' => 'N' case 'e' => 'b' case 'g' => 'a' case 'h' => 'n' case _ => c
  }

  lemma SecondNames(c: char)
    ensures PieceOfChar(c) == PieceOfChar(FirstName(c))
    ensures PieceOfChar(c).Man? ==> PieceChar(PieceOfChar(c).side, PieceOfChar(c).kind) == FirstName(c)
  {
  }

  function Digit(n: nat): char
    requires n <= 9
  {
    '0' + n as char
  }

  function TurnChar(c: Side): char { if c.White? then 'w' else 'b' }

  // ---- the text of one rank: pieces and run lengths ----

  function Pending(n: nat): string
    requires n <= 9
  {
    if n > 0 then [Digit(n)] else []
  }

  // The cells still to come, after n empty ones.
  function RunText(cells: seq<Cell>, n: nat): string
    requires n + |cells| <= 9
    decreases |cells|
  {
    if cells == [] then Pending(n)
    else if cells[0].Empty? then RunText(cells[1..], n + 1)
    else Pending(n) + [PieceChar(cells[0].side, cells[0].kind)] + RunText(cells[1..], 0)
  }

  // A rank from file 8 down to file 0.
  function RowCells(b: Board, r: nat): seq<Cell>
    requires r < 10
  {
    seq(9, i requires 0 <= i < 9 => b[9 * r + 8 - i])
  }

  function Row(b: Board, r: nat): string
    requires r < 10
  {
    RunText(RowCells(b, r), 0)
  }

  // Ranks r, r - 1, ..., 0 with slashes between.
  function RowsDown(b: Board, r: nat): string
    requires r < 10
  {
    if r == 0 then Row(b, 0) else Row(b, r) + "/" + RowsDown(b, r - 1)
  }

  function FenOf(p: Pos): string { RowsDown(p.board, 9) + " " + [TurnChar(p.turn)] }

  // What is still to be written in rank r after j of its cells, n empty ones pending.
  function Rest(b: Board, r: nat, j: nat, n: nat): string
    requires r < 10 && n <= j <= 9
  {
    RunText(RowCells(b, r)[j..], n) + (if r == 0 then "" else "/" + RowsDown(b, r - 1))
  }

  lemma RestStep(b: Board, r: nat, j: nat, n: nat)
    requires r < 10 && n <= j < 9
    ensures var c := b[9 * r + 8 - j];
      Rest(b, r, j, n) == if c.Empty? then Rest(b, r, j + 1, n + 1)
                          else Pending(n) + [PieceChar(c.side, c.kind)] + Rest(b, r, j + 1, 0)
  {
    var cells := RowCells(b, r)[j..];
    assert cells[0] == b[9 * r + 8 - j];
    assert cells[1..] == RowCells(b, r)[j + 1..];
  }

  lemma RestNext(b: Board, r: nat, n: nat)
    requires 0 < r < 10 && n <= 9
    ensures Rest(b, r, 9, n) == Pending(n) + "/" + Rest(b, r - 1, 0, 0)
  {
    assert RowCells(b, r)[9..] == [];
    assert RowCells(b, r - 1)[0..] == RowCells(b, r - 1);
  }

  // Text written plus text to come.
  ghost predicate Splits(all: string, done: string, rest: string) { done + rest == all }

  lemma Write(all: string, done: string, x: string, rest: string)
    requires Splits(all, done, x + rest)
    ensures Splits(all, done + x, rest)
  {
    assert done + (x + rest) == (done + x) + rest;
  }

  // What is to come at the head of the loop, looking at square i.
  function ToCome(b: Board, i: int, n: nat): string
    requires -1 <= i < 90 && n <= (if i == 89 then 0 else if i % 9 == 8 then 9 else 8 - i % 9)
  {
    if i == 89 then Rest(b, 9, 0, 0)
    else if i % 9 == 8 then Rest(b, (i + 1) / 9, 9, n)
    else Rest(b, i / 9, 8 - i % 9, n)
  }

  method Flush(fen: string, n: nat, ghost all: string, ghost rest: string) returns (out: string)
    requires n <= 9 && Splits(all, fen, Pending(n) + rest)
    ensures Splits(all, out, rest)
  {
    Write(all, fen, Pending(n), rest);
    out := fen;
    if n != 0 {
      out := out + [Digit(n)];
    } else {
      assert fen + [] == fen;
    }
  }

  // At the end of a rank the pending run and a slash are written.
  lemma AtRankEnd(b: Board, i: int, n: nat)
    requires 0 <= i < 89 && i % 9 == 8 && n <= 9
    ensures ToCome(b, i, n) == Pending(n) + ("/" + Rest(b, i / 9, 0, 0))
  {
    hide Rest, Pending;
    var r := i / 9;
    NextRankOf(i);
    RestNext(b, r + 1, n);
    Associate(Pending(n), "/", Rest(b, r, 0, 0));
  }

  lemma NextRankOf(i: int)
    requires 0 <= i < 89 && i % 9 == 8
    ensures 0 <= i / 9 < 9 && (i + 1) / 9 == i / 9 + 1
  {
  }

  // What is to come from square i on, its rank begun.
  lemma AtSquare(b: Board, i: int, n: nat)
    requires 0 <= i < 90 && n <= 8 - i % 9
    ensures var r, j, c := i / 9, 8 - i % 9, b[i];
      Rest(b, r, j, n) == if c.Empty? then ToCome(b, i - 1, n + 1)
                          else Pending(n) + ([PieceChar(c.side, c.kind)] + ToCome(b, i - 1, 0))
  {
    hide Rest, Pending, PieceChar;
    var r, j := i / 9, 8 - i % 9;
    RestStep(b, r, j, n);
    if b[i].Man? {
      NextSquare(b, i, 0);
      Associate(Pending(n), [PieceChar(b[i].side, b[i].kind)], Rest(b, r, j + 1, 0));
    } else {
      NextSquare(b, i, n + 1);
    }
  }

  lemma NextSquare(b: Board, i: int, n: nat)
    requires 0 <= i < 90 && n <= 9 - i % 9
    ensures ToCome(b, i - 1, n) == Rest(b, i / 9, 9 - i % 9, n)
  {
    hide Rest;
    if i % 9 != 0 {
      SameRankOf(i);
    }
  }

  lemma SameRankOf(i: int)
    requires 0 <= i < 90 && i % 9 != 0
    ensures (i - 1) / 9 == i / 9 && (i - 1) % 9 == i % 9 - 1
  {
  }

  // Write the text square by square from 89 down.
  method ToFen(b: Board, turn: Side) returns (fen: string)
    ensures fen == FenOf(Pos(b, turn))
  {
    hide RunText, RowCells, RowsDown, Rest, Pending, Digit, PieceChar, Splits, ToCome;
    ghost var all := RowsDown(b, 9);
    fen := [];
    var n, i := 0, 89;
    Begins(b);
    while i >= 0
      invariant -1 <= i <= 89 && n <= (if i == 89 then 0 else if i % 9 == 8 then 9 else 8 - i % 9)
      invariant Splits(all, fen, ToCome(b, i, n))
    {
      if i % 9 == 8 && i != 89 {
        ghost var rest := Rest(b, i / 9, 0, 0);
        AtRankEnd(b, i, n);
        fen := Flush(fen, n, all, "/" + rest);
        n := 0;
        Write(all, fen, "/", rest);
        fen := fen + "/";
      } else {
        MidRank(b, i, n);
      }
      AtSquare(b, i, n);
      if b[i].Man? {
        var c := [PieceChar(b[i].side, b[i].kind)];
        fen := Flush(fen, n, all, c + ToCome(b, i - 1, 0));
        n := 0;
        Write(all, fen, c, ToCome(b, i - 1, 0));
        fen := fen + c;
      } else {
        n := n + 1;
      }
      i := i - 1;
    }
    Ends(b, n);
    fen := Flush(fen, n, all, "");
    Done(all, fen);
    fen := fen + " " + [TurnChar(turn)];
  }

  lemma MidRank(b: Board, i: int, n: nat)
    requires 0 <= i < 90 && (i % 9 != 8 || i == 89) && n <= (if i == 89 then 0 else 8 - i % 9)
    ensures ToCome(b, i, n) == Rest(b, i / 9, 8 - i % 9, n)
  {
    hide Rest;
  }

  lemma Begins(b: Board)
    ensures Splits(RowsDown(b, 9), "", ToCome(b, 89, 0))
  {
    assert RowCells(b, 9)[0..] == RowCells(b, 9);
    assert ToCome(b, 89, 0) == RowsDown(b, 9);
  }

  lemma Ends(b: Board, n: nat)
    requires n <= 9
    ensures ToCome(b, -1, n) == Pending(n) + ""
  {
    assert RowCells(b, 0)[9..] == [];
  }

  lemma Done(all: string, fen: string)
    requires Splits(all, fen, "")
    ensures fen == all
  {
  }

  lemma Associate(x: string, y: string, z: string)
    ensures x + y + z == x + (y + z)
  {
  }

  // ---- reversing and recolouring a rank ----

  function Rev<T>(s: seq<T>): seq<T> { seq(|s|, i requires 0 <= i < |s| => s[|s| - 1 - i]) }

  lemma RevConcat<T>(x: seq<T>, y: seq<T>)
    ensures Rev(x + y) == Rev(y) + Rev(x)
  {
  }

  function Empties(k: nat): seq<Cell> { seq(k, _ => Empty) }

  lemma {:induction false} RunHead(k: nat, rest: seq<Cell>, n: nat)
    requires n + k + |rest| <= 9 && (rest == [] || rest[0].Man?)
    ensures RunText(Empties(k) + rest, n) == RunText(rest, n + k)
    decreases k
  {
    var cells := Empties(k) + rest;
    if k == 0 {
      assert cells == rest;
    } else {
      assert cells[0].Empty? && cells[1..] == Empties(k - 1) + rest;
      RunHead(k - 1, rest, n + 1);
    }
  }

  lemma {:induction false} RunTail(xs: seq<Cell>, m: Cell, k: nat, n: nat)
    requires m.Man? && n + |xs| + 1 + k <= 9
    ensures RunText(xs + [m] + Empties(k), n) == RunText(xs, n) + [PieceChar(m.side, m.kind)] + Pending(k)
    decreases |xs|
  {
    var cells := xs + [m] + Empties(k);
    if xs == [] {
      assert cells[0] == m && cells[1..] == Empties(k) + [];
      RunHead(k, [], 0);
    } else {
      assert cells[0] == xs[0] && cells[1..] == xs[1..] + [m] + Empties(k);
      RunTail(xs[1..], m, k, if xs[0].Empty? then n + 1 else 0);
    }
  }

  function LeadingEmpties(cells: seq<Cell>): (k: nat)
    ensures k <= |cells| && cells[..k] == Empties(k) && (k < |cells| ==> cells[k].Man?)
  {
    if cells == [] || cells[0].Man? then 0
    else
      var k := LeadingEmpties(cells[1..]);
      assert cells[..k + 1] == [cells[0]] + cells[1..][..k];
      k + 1
  }

  lemma HeadText(cells: seq<Cell>, k: nat)
    requires |cells| <= 9 && k < |cells| && cells[..k] == Empties(k) && cells[k].Man?
    ensures RunText(cells, 0) == Pending(k) + [PieceChar(cells[k].side, cells[k].kind)] + RunText(cells[k + 1..], 0)
  {
    hide Pending, PieceChar, Empties;
    assert |Empties(k)| == k by { EmptiesSize(k); }
    RunHead(k, cells[k..], 0);
    assert cells == Empties(k) + cells[k..];
    assert cells[k..][0] == cells[k] && cells[k..][1..] == cells[k + 1..];
  }

  lemma EmptiesSize(k: nat)
    ensures |Empties(k)| == k
  {
  }

  lemma RevSplit(cells: seq<Cell>, k: nat)
    requires k < |cells| && cells[..k] == Empties(k)
    ensures Rev(cells) == Rev(cells[k + 1..]) + [cells[k]] + Empties(k)
  {
    var x, y := Rev(cells), Rev(cells[k + 1..]) + [cells[k]] + Empties(k);
    forall i | 0 <= i < |cells|
      ensures x[i] == y[i]
    {
      if i >= |cells| - k {
        assert cells[..k][|cells| - 1 - i].Empty?;
      }
    }
  }

  lemma RevPair(x: string, c: char, k: nat)
    requires k <= 9
    ensures Rev(Pending(k) + [c] + x) == Rev(x) + [c] + Pending(k)
  {
    hide Digit;
    RevConcat(Pending(k) + [c], x);
    assert Rev(Pending(k) + [c]) == [c] + Pending(k);
  }

  // Run lengths read the same from both ends.
  lemma {:induction false} RowReverses(cells: seq<Cell>)
    requires |cells| <= 9
    ensures RunText(Rev(cells), 0) == Rev(RunText(cells, 0))
    decreases |cells|
  {
    var k := LeadingEmpties(cells);
    if k == |cells| {
      AllEmpty(cells);
    } else {
      hide RunText, Rev, Pending, PieceChar, Empties;
      var m, rest := cells[k], cells[k + 1..];
      RevSize(rest);
      HeadText(cells, k);
      RevSplit(cells, k);
      RunTail(Rev(rest), m, k, 0);
      RowReverses(rest);
      RevPair(RunText(rest, 0), PieceChar(m.side, m.kind), k);
    }
  }

  lemma RevSize<T>(s: seq<T>)
    ensures |Rev(s)| == |s|
  {
  }

  lemma AllEmpty(cells: seq<Cell>)
    requires |cells| <= 9 && cells == Empties(|cells|)
    ensures RunText(Rev(cells), 0) == Rev(RunText(cells, 0))
  {
    var k := |cells|;
    assert cells == Empties(k) + [] && Rev(cells) == Empties(k) + [];
    RunHead(k, [], 0);
    hide Digit;
    assert Rev(Pending(k)) == Pending(k);
  }

  function SwapCase(c: char): char {
    if 'a' <= c <= 'z' then 'A' + (c - 'a') else if 'A' <= c <= 'Z' then 'a' + (c - 'A') else c
  }

  function Swapped(s: string): string { seq(|s|, i requires 0 <= i < |s| => SwapCase(s[i])) }

  function Recoloured(cells: seq<Cell>): seq<Cell> { seq(|cells|, i requires 0 <= i < |cells| => CellOf(BW, cells[i])) }

  lemma SwapPiece(c: Side, kind: Kind)
    ensures SwapCase(PieceChar(c, kind)) == PieceChar(c.Other(), kind)
  {
  }

  lemma SwappedConcat(x: string, y: string)
    ensures Swapped(x + y) == Swapped(x) + Swapped(y)
  {
  }

  lemma {:induction false} RowSwaps(cells: seq<Cell>, n: nat)
    requires n + |cells| <= 9
    ensures RunText(Recoloured(cells), n) == Swapped(RunText(cells, n))
    decreases |cells|
  {
    assert Swapped(Pending(n)) == Pending(n);
    if cells != [] {
      assert Recoloured(cells)[1..] == Recoloured(cells[1..]);
      RowSwaps(cells[1..], if cells[0].Empty? then n + 1 else 0);
      if cells[0].Man? {
        SwapPiece(cells[0].side, cells[0].kind);
        var c := [PieceChar(cells[0].side, cells[0].kind)];
        SwappedConcat(Pending(n) + c, RunText(cells[1..], 0));
        SwappedConcat(Pending(n), c);
        assert Swapped(c) == [PieceChar(cells[0].side.Other(), cells[0].kind)];
      }
    }
  }

  lemma RowMirrors(g: Mirror, b: Board, r: nat)
    requires r < 10
    ensures var from := if g.swapSides then 9 - r else r;
      var row := if g.swapFiles then Rev(Row(b, from)) else Row(b, from);
      Row(BoardOf(g, b), r) == if g.swapSides then Swapped(row) else row
  {
    var from := if g.swapSides then 9 - r else r;
    var cells := RowCells(b, from);
    var turned := if g.swapFiles then Rev(cells) else cells;
    RowReverses(cells);
    RowSwaps(turned, 0);
    hide RunText, RowCells, Rev, Swapped;
    CellsMirror(g, b, r);
  }

  lemma CellsMirror(g: Mirror, b: Board, r: nat)
    requires r < 10
    ensures var from := if g.swapSides then 9 - r else r;
      var turned := if g.swapFiles then Rev(RowCells(b, from)) else RowCells(b, from);
      RowCells(BoardOf(g, b), r) == if g.swapSides then Recoloured(turned) else turned
  {
    var cells := RowCells(b, if g.swapSides then 9 - r else r);
    var turned := if g.swapFiles then Rev(cells) else cells;
    forall i | 0 <= i < 9
      ensures RowCells(BoardOf(g, b), r)[i] == CellOf(g, turned[i])
    {
      RowCellMirrors(g, b, r, i);
    }
    assert RowCells(BoardOf(g, b), r) == if g.swapSides then Recoloured(turned) else turned;
  }

  lemma RowCellMirrors(g: Mirror, b: Board, r: nat, i: nat)
    requires r < 10 && i < 9
    ensures RowCells(BoardOf(g, b), r)[i] ==
      CellOf(g, RowCells(b, if g.swapSides then 9 - r else r)[if g.swapFiles then 8 - i else i])
  {
    var s := 9 * r + 8 - i;
    SqMoves(g, s);
    assert Rank(s) == r && File(s) == 8 - i;
  }
}
