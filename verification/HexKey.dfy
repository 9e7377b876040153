// The hexadecimal keys of positions: coding a FEN text and reading it back.
module HexKey {
  import opened Geometry
  import opened Rules
  import opened Symmetry
  import opened Fen
  import opened FenMirror

  function HexOfChar(c: char): char {
    if c == '1' then '0' else if c == 'p' then '1' else if c == 'a' then '2' else if c == 'b' then '3'
    else if c == 'c' then '4' else if c == 'n' then '5' else if c == 'r' then '6' else if c == 'k' then '7'
    else if c == 'P' then '9' else if c == 'A' then 'a' else if c == 'B' then 'b' else if c == 'C' then 'c'
    else if c == 'N' then 'd' else if c == 'R' then 'e' else if c == 'K' then 'f' else '8'
  }

  function CharOfHex(c: char): char {
    if c == '0' then '1' else if c == '1' then 'p' else if c == '2' then 'a' else if c == '3' then 'b'
    else if c == '4' then 'c' else if c == '5' then 'n' else if c == '6' then 'r' else if c == '7' then 'k'
    else if c == '9' then 'P' else if c == 'a' then 'A' else if c == 'b' then 'B' else if c == 'c' then 'C'
    else if c == 'd' then 'N' else if c == 'e' then 'R' else if c == 'f' then 'K' else '?'
  }

  predicate IsRun(c: char) { '2' <= c <= '9' }

  // A character of a FEN rank: a piece letter or a run length.
  predicate Token(c: char) { IsRun(c) || (HexOfChar(c) != '8' && CharOfHex(HexOfChar(c)) == c) }

  function Width(c: char): nat { if IsRun(c) then (c as int - '0' as int) else 1 }

  function Code(c: char): string {
    if IsRun(c) then ['8', (c as int - 1) as char] else [HexOfChar(c)]
  }

  function Body(row: string): string {
    if row == [] then [] else Code(row[0]) + Body(row[1..])
  }

  function Bodies(rows: seq<string>): string {
    if rows == [] then [] else Body(rows[0]) + Bodies(rows[1..])
  }

  function Widths(row: string): nat {
    if row == [] then 0 else Width(row[0]) + Widths(row[1..])
  }

  // Ten ranks of nine squares each.
  ghost predicate Ranks(rows: seq<string>) {
    |rows| == 10 && forall i :: 0 <= i < 10 ==> RankOk(rows[i])
  }

  ghost predicate RankOk(row: string) { Widths(row) == 9 && Tokens(row) }

  ghost predicate Tokens(row: string) { forall i :: 0 <= i < |row| ==> Token(row[i]) }

  // Make the length even: drop a final '0', or add one.
  function Even(h: string): string {
    if |h| % 2 == 0 then h
    else if h[|h| - 1] == '0' then h[..|h| - 1]
    else h + "0"
  }

  function HexOf(rows: seq<string>, t: char): string { Even(Bodies(rows) + (if t == 'b' then "1" else "")) }

  lemma EvenLength(h: string)
    ensures |Even(h)| % 2 == 0
  {
  }

  // The digits in order stand for these characters; 8 announces a run, given by one less than its length.
  lemma Alphabet(i: nat)
    requires i < 16
    ensures var c, d := "1pabcnrk?PABCNRK"[i], "0123456789abcdef"[i];
      if i == 8 then forall k :: 2 <= k <= 9 ==> Code(Digit(k)) == [d, Digit(k - 1)]
      else Code(c) == [d] && CharOfHex(d) == c && Token(c)
  {
  }

  // ---- reading a key back ----

  function ReadTurn(h: string): char { if h != [] && h[0] != '0' then 'b' else 'w' }

  // One token read off the front of a key: its character, the digits used, the
  // squares covered.  A key that has ended reads as '0'.
  datatype Reading = Reading(c: char, used: nat, squares: nat)

  function ReadToken(h: string): (r: Reading)
    ensures r.used <= |h| && r.squares > 0
  {
    if h == [] then Reading(CharOfHex('0'), 0, 1)
    else if h[0] != '8' then Reading(CharOfHex(h[0]), 1, 1)
    else
      var d := if |h| == 1 then '0' else h[1];
      var run := if '0' <= d <= '8' then d as int - '0' as int else 0;
      Reading(Digit(run + 1), if |h| == 1 then 1 else 2, run + 1)
  }

  // The text from square sq on.
  function Decode(h: string, sq: nat): string
    decreases 90 - sq
  {
    if sq >= 90 then " " + [ReadTurn(h)]
    else
      var r := ReadToken(h);
      (if sq != 0 && sq % 9 == 0 then "/" else "") + [r.c] + Decode(h[r.used..], sq + r.squares)
  }

  // What is still to be read in rank k after j characters.
  function ToRead(rows: seq<string>, k: nat, j: nat, t: char): string
    requires k < |rows| && j <= |rows[k]|
  {
    Body(rows[k][j..]) + Bodies(rows[k + 1..]) + (if t == 'b' then "1" else "")
  }

  // A key stands for the string to read exactly, or with one '0' more or less.
  predicate StandsFor(h: string, s: string) { h == s || h == s + "0" || h + "0" == s }

  lemma EvenStandsFor(s: string)
    ensures StandsFor(Even(s), s)
  {
    if |s| % 2 == 1 && s[|s| - 1] == '0' {
      assert s == s[..|s| - 1] + "0";
    }
  }

  lemma StandsForRest(h: string, x: string, s: string)
    requires StandsFor(h, x + s)
    ensures (x <= h && StandsFor(h[|x|..], s)) || (s == [] && h + "0" == x)
  {
    if h == x + s {
      assert h[|x|..] == s;
    } else if h == x + s + "0" {
      assert h[|x|..] == s + "0";
    } else if s != [] {
      assert (h + "0")[|x|..] == s;
      assert h[..|x|] == (x + s)[..|x|];
      assert h[|x|..] + "0" == s;
    }
  }

  lemma {:induction false} WidthsMore(row: string, j: nat)
    requires j < |row|
    ensures Widths(row[..j + 1]) == Widths(row[..j]) + Width(row[j])
    decreases j
  {
    if j > 0 {
      WidthsMore(row[1..], j - 1);
      assert row[..j + 1][1..] == row[1..][..j] && row[..j][1..] == row[1..][..j - 1];
    }
  }

  lemma {:induction false} WidthsSplit(row: string, j: nat)
    requires j <= |row|
    ensures Widths(row) == Widths(row[..j]) + Widths(row[j..])
    ensures j < |row| && Tokens(row) ==> Widths(row[j..]) > 0
  {
    if j == 0 {
      assert row[0..] == row && row[..0] == [];
    } else {
      WidthsSplit(row[1..], j - 1);
      assert row[..j][1..] == row[1..][..j - 1] && row[1..][j - 1..] == row[j..];
    }
  }

  // One token read, at its square.
  lemma DecodeToken(h: string, sq: nat, c: char)
    requires sq < 90 && Token(c) && (Code(c) <= h || h + "0" == Code(c))
    ensures var slash := if sq != 0 && sq % 9 == 0 then "/" else "";
      Decode(h, sq) == slash + [c] + Decode(if Code(c) <= h then h[|Code(c)|..] else [], sq + Width(c))
  {
    if IsRun(c) {
      assert Code(c) == ['8', (c as int - 1) as char];
      assert Code(c) <= h by {
        assert (h + "0")[|h|] == '0' && |Code(c)| == 2 && Code(c)[1] != '0';
      }
      assert h[0] == '8' && h[1] == Code(c)[1];
    } else if !(Code(c) <= h) {
      assert h == [];
      assert (h + "0")[0] == Code(c)[0];
    } else {
      assert h[0] == HexOfChar(c);
    }
    hide CharOfHex, HexOfChar;
    assert ReadToken(h) == Reading(c, if Code(c) <= h then |Code(c)| else 0, Width(c));
  }

  // Reading a key from any point of the text gives the rest of the text.
  lemma {:induction false} ReadsBack(rows: seq<string>, k: nat, j: nat, t: char, h: string)
    requires Ranks(rows) && k < 10 && j <= |rows[k]| && (t == 'w' || t == 'b')
    requires StandsFor(h, ToRead(rows, k, j, t))
    ensures Decode(h, 9 * k + Widths(rows[k][..j])) == (if j == 0 && k > 0 then "/" else "") + Tail(rows, k, j, t)
    decreases 10 - k, |rows[k]| - j
  {
    hide Decode, StandsFor, Tail, ToRead, Widths, RankOk;
    if j < |rows[k]| {
      var rest := AfterToken(rows, k, j, t, h);
      ReadsBack(rows, k, j + 1, t, rest);
      TokenRead(rows, k, j, t, h, rest);
    } else if k < 9 {
      NextRank(rows, k, t);
      ReadsBack(rows, k + 1, 0, t, h);
    } else {
      LastRank(rows, t);
      EndOfKey(h, t);
    }
  }

  lemma LastRank(rows: seq<string>, t: char)
    requires Ranks(rows)
    ensures var j := |rows[9]|;
      && ToRead(rows, 9, j, t) == [] + [] + (if t == 'b' then "1" else "") && Tail(rows, 9, j, t) == " " + [t]
      && Widths(rows[9][..j]) == 9 && j > 0
  {
    assert RankOk(rows[9]);
    var row, j := rows[9], |rows[9]|;
    assert row[..j] == row && row[j..] == [] && rows[10..] == [];
  }

  // What remains of the key once the token at j is read.
  ghost function AfterToken(rows: seq<string>, k: nat, j: nat, t: char, h: string): (rest: string)
    requires Ranks(rows) && k < 10 && j < |rows[k]| && StandsFor(h, ToRead(rows, k, j, t))
    ensures StandsFor(rest, ToRead(rows, k, j + 1, t))
    ensures var x := Code(rows[k][j]); (x <= h && rest == h[|x|..]) || (!(x <= h) && h + "0" == x && rest == [])
  {
    var row := rows[k];
    var c, s := row[j], ToRead(rows, k, j + 1, t);
    assert row[j..][0] == c && row[j..][1..] == row[j + 1..];
    assert ToRead(rows, k, j, t) == Code(c) + s;
    StandsForRest(h, Code(c), s);
    if Code(c) <= h then h[|Code(c)|..] else []
  }

  lemma TokenRead(rows: seq<string>, k: nat, j: nat, t: char, h: string, rest: string)
    requires Ranks(rows) && k < 10 && j < |rows[k]|
    requires var x := Code(rows[k][j]); (x <= h && rest == h[|x|..]) || (!(x <= h) && h + "0" == x && rest == [])
    requires Decode(rest, 9 * k + Widths(rows[k][..j + 1])) == Tail(rows, k, j + 1, t)
    ensures Decode(h, 9 * k + Widths(rows[k][..j])) == (if j == 0 && k > 0 then "/" else "") + Tail(rows, k, j, t)
  {
    hide Decode, Code, Width, Join;
    var row := rows[k];
    assert RankOk(row) && Token(row[j]);
    var sq := 9 * k + Widths(row[..j]);
    WidthsMore(row, j);
    Starts(row, j);
    hide Token, Widths, RankOk;
    DecodeToken(h, sq, row[j]);
    assert (sq != 0 && sq % 9 == 0) <==> (j == 0 && k > 0);
    assert Tail(rows, k, j, t) == [row[j]] + Tail(rows, k, j + 1, t);
  }

  lemma Starts(row: string, j: nat)
    requires j < |row| && RankOk(row)
    ensures (Widths(row[..j]) == 0 <==> j == 0) && Widths(row[..j]) < 9
  {
    WidthsSplit(row, j);
    if j > 0 {
      assert row[..j][0] == row[0];
    }
  }

  lemma NextRank(rows: seq<string>, k: nat, t: char)
    requires Ranks(rows) && k < 9
    ensures rows[k][..|rows[k]|] == rows[k] && Widths(rows[k]) == 9 && Widths(rows[k + 1][..0]) == 0 && rows[k] != []
    ensures ToRead(rows, k, |rows[k]|, t) == ToRead(rows, k + 1, 0, t)
    ensures Tail(rows, k, |rows[k]|, t) == "/" + Tail(rows, k + 1, 0, t)
  {
    assert RankOk(rows[k]);
    assert rows[k + 1..][0] == rows[k + 1] && rows[k + 1..][1..] == rows[k + 2..];
    assert rows[k + 1][0..] == rows[k + 1];
  }

  lemma EndOfKey(h: string, t: char)
    requires (t == 'w' || t == 'b') && StandsFor(h, [] + [] + (if t == 'b' then "1" else ""))
    ensures Decode(h, 90) == " " + [t]
  {
    if t == 'b' {
      assert (h + "0")[|h|] == '0';
      assert h[0] == '1';
    }
  }

  // decode(encode(f)) == f for every well-formed text.
  lemma RoundTrip(rows: seq<string>, t: char)
    requires Ranks(rows) && (t == 'w' || t == 'b')
    ensures Decode(HexOf(rows, t), 0) == Text(rows, t)
  {
    var s := Bodies(rows) + (if t == 'b' then "1" else "");
    EvenStandsFor(s);
    assert rows[0][0..] == rows[0] && rows[0][..0] == [];
    assert ToRead(rows, 0, 0, t) == s;
    ReadsBack(rows, 0, 0, t, HexOf(rows, t));
    TailBegins(rows, t);
  }

  // ---- the loops ----

  lemma BodyHead(c: char, rest: string)
    ensures Body([c] + rest) == Code(c) + Body(rest) && Body([]) == []
  {
    hide Code;
    assert ([c] + rest)[1..] == rest;
  }

  lemma {:induction false} BodyConcat(x: string, y: string)
    ensures Body(x + y) == Body(x) + Body(y)
  {
    hide *;
    if x == [] {
      BodyHead(' ', []);
      assert x + y == y;
    } else {
      BodyConcat(x[1..], y);
      BodyHead(x[0], x[1..] + y);
      BodyHead(x[0], x[1..]);
      assert x == [x[0]] + x[1..] && x + y == [x[0]] + (x[1..] + y);
    }
  }

  lemma {:induction false} BodiesMore(rows: seq<string>, k: nat)
    requires k < |rows|
    ensures Bodies(rows[..k + 1]) == Bodies(rows[..k]) + Body(rows[k])
  {
    if k == 0 {
      assert rows[..1][1..] == [] && rows[..0] == [];
    } else {
      BodiesMore(rows[1..], k - 1);
      assert rows[..k + 1][1..] == rows[1..][..k] && rows[..k][1..] == rows[1..][..k - 1];
    }
  }

  // What has been written, j characters into rank k.
  function Written(rows: seq<string>, k: nat, j: nat): string
    requires k < |rows| && j <= |rows[k]|
  {
    Bodies(rows[..k]) + Body(rows[k][..j])
  }

  lemma WrittenStarts(rows: seq<string>)
    requires rows != []
    ensures Written(rows, 0, 0) == []
  {
    assert rows[..0] == [] && rows[0][..0] == [];
  }

  lemma RankWritten(rows: seq<string>, k: nat)
    requires k < |rows|
    ensures Written(rows, k, |rows[k]|) == Bodies(rows[..k + 1])
    ensures k + 1 < |rows| ==> Written(rows, k + 1, 0) == Bodies(rows[..k + 1])
  {
    hide Body, Bodies;
    assert rows[k][..|rows[k]|] == rows[k];
    BodiesMore(rows, k);
    if k + 1 < |rows| {
      assert rows[k + 1][..0] == [];
      assert Body([]) == [] by { NoBody(); }
    }
  }

  lemma NoBody()
    ensures Body([]) == []
  {
  }

  lemma CodeWritten(rows: seq<string>, k: nat, j: nat)
    requires k < |rows| && j < |rows[k]|
    ensures Written(rows, k, j + 1) == Written(rows, k, j) + Code(rows[k][j])
  {
    hide Bodies, Code;
    var row := rows[k];
    assert row[..j + 1] == row[..j] + [row[j]];
    BodyConcat(row[..j], [row[j]]);
    assert Body([row[j]]) == Code(row[j]) by { assert [row[j]][1..] == []; }
  }

  method Encode(fen: string, ghost rows: seq<string>, ghost t: char) returns (out: string)
    requires Ranks(rows) && AllPlain(rows) && fen == Text(rows, t)
    ensures out == HexOf(rows, t)
  {
    hide Join, Plain, Code, Token, Written, Bodies, RankOk, AllPlain;
    var index := 0;
    ghost var k, j := 0, 0;
    out := [];
    TailBegins(rows, t);
    WrittenStarts(rows);
    assert fen[0..] == fen;
    while index < |fen|
      invariant 0 <= index <= |fen| && k < |rows| && j <= |rows[k]|
      invariant fen[index..] == Tail(rows, k, j, t)
      invariant out == Written(rows, k, j)
      decreases |fen| - index
    {
      TailStep(rows, k, j, t);
      assert fen[index] == fen[index..][0] && fen[index + 1..] == fen[index..][1..];
      if fen[index] == ' ' {
        assert j == |rows[k]|;
        RankWritten(rows, k);
        assert rows[..k + 1] == rows;
        if fen[index + 1] == 'b' {
          out := out + "1";
        }
        break;
      } else if fen[index] == '/' {
        RankWritten(rows, k);
        k, j := k + 1, 0;
      } else {
        CodeWritten(rows, k, j);
        out := WriteCode(out, fen[index]);
        j := j + 1;
      }
      index := index + 1;
    }
    out := Even(out);
  }

  // A piece gives one digit; a run gives '8' and one less than its length.
  method WriteCode(out: string, c: char) returns (more: string)
    ensures more == out + Code(c)
  {
    more := out + [HexOfChar(c)];
    if IsRun(c) {
      more := more + [(c as int - 1) as char];
    }
  }

  method DecodeKey(hex: string) returns (fen: string)
    ensures fen == Decode(hex, 0)
  {
    hide ReadToken, Decode;
    var index, sq := 0, 0;
    fen := [];
    assert hex[0..] == hex;
    while sq < 90
      invariant 0 <= sq && 0 <= index <= |hex| && fen + Decode(hex[index..], sq) == Decode(hex, 0)
      decreases 90 - sq
    {
      var r := ReadToken(hex[index..]);
      DecodeStep(fen, hex, index, sq);
      if sq != 0 && sq % 9 == 0 {
        fen := fen + "/";
      }
      fen := fen + [r.c];
      index := index + r.used;
      sq := sq + r.squares;
    }
    DecodeEnds(hex[index..], sq);
    fen := fen + " " + [if index < |hex| && hex[index] != '0' then 'b' else 'w'];
  }

  lemma DecodeStep(fen: string, hex: string, index: nat, sq: nat)
    requires index <= |hex| && sq < 90
    ensures var r := ReadToken(hex[index..]);
      var more := (if sq != 0 && sq % 9 == 0 then fen + "/" else fen) + [r.c];
      && index + r.used <= |hex|
      && fen + Decode(hex[index..], sq) == more + Decode(hex[index + r.used..], sq + r.squares)
  {
    hide ReadToken;
    var r := ReadToken(hex[index..]);
    assert hex[index..][r.used..] == hex[index + r.used..];
  }

  lemma DecodeEnds(h: string, sq: nat)
    requires sq >= 90
    ensures Decode(h, sq) == " " + [ReadTurn(h)]
  {
  }

  // ---- the key of a position ----

  function KeyOf(p: Pos): string { HexOf(RowList(p.board), TurnChar(p.turn)) }

  lemma {:induction false} RunTokens(cells: seq<Cell>, n: nat)
    requires n + |cells| <= 9
    ensures Tokens(RunText(cells, n)) && Widths(RunText(cells, n)) == n + |cells|
    decreases |cells|
  {
    PendingTokens(n);
    if cells != [] {
      RunTokens(cells[1..], if cells[0].Empty? then n + 1 else 0);
      if cells[0].Man? {
        var c, rest := [PieceChar(cells[0].side, cells[0].kind)], RunText(cells[1..], 0);
        PieceToken(cells[0].side, cells[0].kind);
        WidthsConcat(Pending(n) + c, rest);
        WidthsConcat(Pending(n), c);
        assert c[1..] == [];
      }
    }
  }

  lemma PendingTokens(n: nat)
    requires n <= 9
    ensures Tokens(Pending(n)) && Widths(Pending(n)) == n
  {
    if n > 0 {
      assert Pending(n)[1..] == [];
    }
  }

  lemma PieceToken(c: Side, kind: Kind)
    ensures Token(PieceChar(c, kind)) && Width(PieceChar(c, kind)) == 1
  {
  }

  lemma WidthsConcat(x: string, y: string)
    ensures Widths(x + y) == Widths(x) + Widths(y)
  {
    WidthsSplit(x + y, |x|);
    assert (x + y)[..|x|] == x && (x + y)[|x|..] == y;
  }

  lemma BoardRanks(b: Board)
    ensures Ranks(RowList(b))
  {
    hide Tokens, Widths, RunText;
    forall i | 0 <= i < 10
      ensures RankOk(RowList(b)[i])
    {
      RunTokens(RowCells(b, 9 - i), 0);
    }
  }

  // Without runs each character gives one digit.
  lemma {:induction false} PlainBody(row: string)
    requires forall i :: 0 <= i < |row| ==> !IsRun(row[i])
    ensures |Body(row)| == |row| && forall i :: 0 <= i < |row| ==> Body(row)[i] == HexOfChar(row[i])
  {
    hide HexOfChar;
    if row != [] {
      PlainBody(row[1..]);
      assert Body(row) == [HexOfChar(row[0])] + Body(row[1..]);
    }
  }

  lemma OneRun(x: string, k: nat, y: string)
    requires 2 <= k <= 9
    ensures Body(x + [Digit(k)] + y) == Body(x) + ['8', Digit(k - 1)] + Body(y)
  {
    BodyConcat(x + [Digit(k)], y);
    BodyConcat(x, [Digit(k)]);
    BodyHead(Digit(k), []);
    hide Body;
    assert [Digit(k)] + [] == [Digit(k)];
  }

  // The ranks of the first position of a game.
  lemma FirstRanks()
    ensures Body("rnbakabnr") == "653272356" && Body("RNBAKABNR") == "edbafabde" && Body("9") == "88"
    ensures Body("p1p1p1p1p") == "101010101" && Body("P1P1P1P1P") == "909090909"
    ensures Body("1c5c1") == "048440" && Body("1C5C1") == "0c84c0"
  {
    hide Body;
    PlainBody("rnbakabnr");
    PlainBody("RNBAKABNR");
    PlainBody("p1p1p1p1p");
    PlainBody("P1P1P1P1P");
    PlainBody("1c");
    PlainBody("c1");
    PlainBody("1C");
    PlainBody("C1");
    PlainBody("");
    OneRun("", 9, "");
    OneRun("1c", 5, "c1");
    OneRun("1C", 5, "C1");
    assert "" + [Digit(9)] + "" == "9" && "1c" + [Digit(5)] + "c1" == "1c5c1" && "1C" + [Digit(5)] + "C1" == "1C5C1";
  }

  lemma {:induction false} BodiesFrom(rows: seq<string>, k: nat)
    requires k < |rows|
    ensures Bodies(rows[k..]) == Body(rows[k]) + Bodies(rows[k + 1..])
  {
    hide Body;
    assert rows[k..][1..] == rows[k + 1..];
  }

  // Its key, with either side to move: the text above, and a 1 made even by a 0 for Black.
  lemma FirstKey(t: char)
    requires t == 'w' || t == 'b'
    ensures HexOf(["rnbakabnr", "9", "1c5c1", "p1p1p1p1p", "9", "9", "P1P1P1P1P", "1C5C1", "9", "RNBAKABNR"], t) ==
      "653272356" + "88" + "048440" + "101010101" + "88" + "88" + "909090909" + "0c84c0" + "88" + "edbafabde"
        + (if t == 'b' then "10" else "")
  {
    hide Body, Bodies, Even;
    var rows := ["rnbakabnr", "9", "1c5c1", "p1p1p1p1p", "9", "9", "P1P1P1P1P", "1C5C1", "9", "RNBAKABNR"];
    FirstRanks();
    TenRanks(rows);
    EvenBy(Bodies(rows), if t == 'b' then "1" else "");
  }

  lemma TenRanks(r: seq<string>)
    requires |r| == 10
    ensures Bodies(r) == Body(r[0]) + Body(r[1]) + Body(r[2]) + Body(r[3]) + Body(r[4]) + Body(r[5]) + Body(r[6])
      + Body(r[7]) + Body(r[8]) + Body(r[9])
  {
    hide Body, Bodies;
    FirstFive(r);
    FirstFive(r[5..]);
    assert r[5..][5..] == [];
    assert Bodies([]) == [] by { NoBodies(); }
  }

  lemma FirstFive(r: seq<string>)
    requires |r| >= 5
    ensures Bodies(r) == Body(r[0]) + Body(r[1]) + Body(r[2]) + Body(r[3]) + Body(r[4]) + Bodies(r[5..])
  {
    hide Body, Bodies;
    assert r[0..] == r;
    BodiesFrom(r, 0);
    BodiesFrom(r, 1);
    BodiesFrom(r, 2);
    BodiesFrom(r, 3);
    BodiesFrom(r, 4);
    FivePieces(Body(r[0]), Body(r[1]), Body(r[2]), Body(r[3]), Body(r[4]), Bodies(r[5..]));
  }

  lemma FivePieces(a: string, b: string, c: string, d: string, e: string, rest: string)
    ensures a + (b + (c + (d + (e + rest)))) == a + b + c + d + e + rest
  {
    Associate(a + b + c + d, e, rest);
    Associate(a + b + c, d, e + rest);
    Associate(a + b, c, d + (e + rest));
    Associate(a, b, c + (d + (e + rest)));
  }

  lemma NoBodies()
    ensures Bodies([]) == []
  {
  }

  lemma EvenBy(s: string, t: string)
    requires |s| % 2 == 0 && (t == "" || t == "1")
    ensures Even(s + t) == s + (if t == "1" then "10" else "")
  {
    if t == "1" {
      assert (s + t)[|s|] == '1';
      assert s + t + "0" == s + "10";
    } else {
      assert s + t == s;
    }
  }

  // Reading cells back from a rank.
  function CellsOfToken(c: char): seq<Cell> {
    if '1' <= c <= '9' then Empties(c as int - '0' as int) else [PieceOfChar(c)]
  }

  function CellsOf(row: string): seq<Cell> {
    if row == [] then [] else CellsOfToken(row[0]) + CellsOf(row[1..])
  }

  lemma {:induction false} CellsBack(cells: seq<Cell>, n: nat)
    requires n + |cells| <= 9
    ensures CellsOf(RunText(cells, n)) == Empties(n) + cells
    decreases |cells|
  {
    hide CellsOf, CellsOfToken, Pending, PieceChar;
    if cells == [] {
      PendingBack(n, "");
      assert Pending(n) + "" == Pending(n) && Empties(n) + [] == Empties(n);
      assert CellsOf("") == [] by { NoCells(); }
    } else if cells[0].Empty? {
      CellsBack(cells[1..], n + 1);
      assert Empties(n + 1) + cells[1..] == Empties(n) + cells;
    } else {
      CellsBack(cells[1..], 0);
      var c, rest := PieceChar(cells[0].side, cells[0].kind), RunText(cells[1..], 0);
      assert Empties(0) + cells[1..] == cells[1..];
      PieceBack(cells[0].side, cells[0].kind);
      TokenBack(c, rest);
      assert [cells[0]] + cells[1..] == cells;
      PendingBack(n, [c] + rest);
      assert Pending(n) + [c] + rest == Pending(n) + ([c] + rest);
    }
  }

  lemma NoCells()
    ensures CellsOf("") == []
  {
  }

  lemma TokenBack(c: char, rest: string)
    ensures CellsOf([c] + rest) == CellsOfToken(c) + CellsOf(rest)
  {
    assert ([c] + rest)[1..] == rest;
  }

  lemma PendingBack(n: nat, rest: string)
    requires n <= 9
    ensures CellsOf(Pending(n) + rest) == Empties(n) + CellsOf(rest)
  {
    if n > 0 {
      TokenBack(Digit(n), rest);
    } else {
      assert Pending(n) + rest == rest;
    }
  }

  lemma PieceBack(c: Side, kind: Kind)
    ensures CellsOfToken(PieceChar(c, kind)) == [Man(c, kind)]
  {
  }

  // A text has only one first rank: what comes before the first separator.
  function PlainLength(s: string): nat {
    if s == [] || s[0] == '/' || s[0] == ' ' then 0 else 1 + PlainLength(s[1..])
  }

  lemma {:induction false} PlainPrefix(x: string, u: string)
    requires Plain(x) && (u == [] || u[0] == '/' || u[0] == ' ')
    ensures PlainLength(x + u) == |x|
  {
    if x == [] {
      assert x + u == u;
    } else {
      PlainPrefix(x[1..], u);
      assert (x + u)[1..] == x[1..] + u;
    }
  }

  lemma FirstPlain(x: string, y: string, u: string, v: string)
    requires Plain(x) && Plain(y)
    requires (u == [] || u[0] == '/' || u[0] == ' ') && (v == [] || v[0] == '/' || v[0] == ' ')
    requires x + u == y + v
    ensures x == y && u == v
  {
    PlainPrefix(x, u);
    PlainPrefix(y, v);
    assert (x + u)[..|x|] == x && (y + v)[..|y|] == y;
    assert (x + u)[|x|..] == u && (y + v)[|y|..] == v;
  }

  lemma {:induction false} TextsDiffer(rows: seq<string>, rows': seq<string>, t: char, t': char)
    requires rows != [] && |rows| == |rows'| && AllPlain(rows) && AllPlain(rows') && Text(rows, t) == Text(rows', t')
    ensures rows == rows' && t == t'
    decreases |rows|
  {
    hide Plain;
    var u := (if |rows| == 1 then "" else "/" + Join(rows[1..])) + " " + [t];
    var v := (if |rows'| == 1 then "" else "/" + Join(rows'[1..])) + " " + [t'];
    assert Text(rows, t) == rows[0] + u && Text(rows', t') == rows'[0] + v;
    FirstPlain(rows[0], rows'[0], u, v);
    if |rows| == 1 {
      assert u[1] == t && v[1] == t';
    } else {
      assert u[1..] == Text(rows[1..], t) && v[1..] == Text(rows'[1..], t');
      TextsDiffer(rows[1..], rows'[1..], t, t');
      assert rows == [rows[0]] + rows[1..] && rows' == [rows'[0]] + rows'[1..];
    }
  }

  lemma RowListsDiffer(b: Board, a: Board)
    requires RowList(b) == RowList(a)
    ensures b == a
  {
    hide RunText, RowCells;
    forall s | OnBoard(s)
      ensures b[s] == a[s]
    {
      var r, i := s / 9, 8 - s % 9;
      assert RowList(b)[9 - r] == Row(b, r) && RowList(a)[9 - r] == Row(a, r);
      RowGivesCells(b, r, s);
      RowGivesCells(a, r, s);
    }
  }

  lemma RowGivesCells(b: Board, r: nat, s: int)
    requires OnBoard(s) && r == s / 9
    ensures CellsOf(Row(b, r)) == RowCells(b, r) && |RowCells(b, r)| == 9 && RowCells(b, r)[8 - s % 9] == b[s]
  {
    hide CellsOf, RunText;
    CellsBack(RowCells(b, r), 0);
    assert Empties(0) + RowCells(b, r) == RowCells(b, r);
    assert 9 * r + 8 - (8 - s % 9) == s;
  }

  // Different positions have different keys, and every key has even length.
  lemma KeyInjective(p: Pos, q: Pos)
    requires KeyOf(p) == KeyOf(q)
    ensures p == q
  {
    hide HexOf, Decode, Join, RowList;
    BoardRanks(p.board);
    BoardRanks(q.board);
    RoundTrip(RowList(p.board), TurnChar(p.turn));
    RoundTrip(RowList(q.board), TurnChar(q.turn));
    RowsPlain(p.board);
    RowsPlain(q.board);
    TextsDiffer(RowList(p.board), RowList(q.board), TurnChar(p.turn), TurnChar(q.turn));
    RowListsDiffer(p.board, q.board);
  }
}
