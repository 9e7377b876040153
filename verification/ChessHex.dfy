// The hexadecimal keys of chess positions: four fields, with escapes for the
// rook files of castling rights.
module ChessHex {
  import opened Fen
  import opened FenMirror
  import opened HexKey

  // A normalised four-field text.
  datatype Fields = Fields(ranks: seq<string>, side: char, castling: string, ep: string)

  function TextOf(f: Fields): string
    requires f.ranks != []
  {
    Join(f.ranks) + " " + [f.side] + " " + f.castling + " " + f.ep
  }

  // ---- the alphabets ----

  function BoardHex(c: char): char {
    match c
    case '1' => '0' case '2' => '1' case '3' => '2' case 'p' => '3' case 'n' => '4' case 'b' => '5' case 'r' => '6'
    case 'q' => '7' case 'k' => '9' case 'P' => 'a' case 'N' => 'b' case 'B' => 'c' case 'R' => 'd' case 'Q' => 'e'
    case 'K' => 'f' case _ => '8'
  }

  function BoardChar(h: char): char {
    match h
    case '0' => '1' case '1' => '2' case '2' => '3' case '3' => 'p' case '4' => 'n' case '5' => 'b' case '6' => 'r'
    case '7' => 'q' case '9' => 'k' case 'a' => 'P' case 'b' => 'N' case 'c' => 'B' case 'd' => 'R' case 'e' => 'Q'
    case 'f' => 'K' case _ => '?'
  }

  function ExtraHex(c: char): char {
    match c
    case '-' => '0' case 'K' => 'a' case 'Q' => 'b' case 'k' => 'c' case 'q' => 'd'
    case 'a' => '1' case 'b' => '2' case 'c' => '3' case 'd' => '4' case 'e' => '5' case 'f' => '6' case 'g' => '7'
    case 'h' => '8' case ' ' => '9'
    case _ => if 'B' <= c <= 'G' then 'e' else c
  }

  function ExtraChar(h: char): char {
    match h
    case '0' => '-' case 'a' => 'K' case 'b' => 'Q' case 'c' => 'k' case 'd' => 'q'
    case '1' => 'a' case '2' => 'b' case '3' => 'c' case '4' => 'd' case '5' => 'e' case '6' => 'f' case '7' => 'g'
    case '8' => 'h' case '9' => ' ' case _ => '?'
  }

  function Lower(c: char): char { if 'A' <= c <= 'Z' then 'a' + (c - 'A') else c }

  function Upper(c: char): char { if 'a' <= c <= 'z' then 'A' + (c - 'a') else c }

  // ---- the well-formed texts ----

  predicate LongRun(c: char) { '4' <= c <= '8' }

  predicate BoardToken(c: char) { LongRun(c) || (BoardHex(c) != '8' && BoardChar(BoardHex(c)) == c) }

  function Wide(c: char): nat { if '1' <= c <= '8' then c as int - '0' as int else 1 }

  function Widths8(row: string): nat { if row == [] then 0 else Wide(row[0]) + Widths8(row[1..]) }

  ghost predicate RankOk8(row: string) { Widths8(row) == 8 && forall i :: 0 <= i < |row| ==> BoardToken(row[i]) }

  // A castling token: a wing, or the file of the rook when an inner rook castles.
  predicate CastleToken(c: char) {
    c == '-' || c == 'K' || c == 'Q' || c == 'k' || c == 'q' || 'a' <= c <= 'h' || 'B' <= c <= 'G'
  }

  predicate EpOk(ep: string) { ep == "-" || (|ep| == 2 && 'a' <= ep[0] <= 'h' && '1' <= ep[1] <= '8') }

  ghost predicate WellFormed(f: Fields) {
    && |f.ranks| == 8 && (forall i :: 0 <= i < 8 ==> RankOk8(f.ranks[i]))
    && (f.side == 'w' || f.side == 'b')
    && f.castling != [] && (forall i :: 0 <= i < |f.castling| ==> CastleToken(f.castling[i]))
    && EpOk(f.ep)
  }

  // ---- coding ----

  function Code8(c: char): string { if LongRun(c) then ['8', c - 4 as char] else [BoardHex(c)] }

  function Body8(row: string): string { if row == [] then [] else Code8(row[0]) + Body8(row[1..]) }

  function Bodies8(rows: seq<string>): string { if rows == [] then [] else Body8(rows[0]) + Bodies8(rows[1..]) }

  function Escaped(c: char): string { if ExtraHex(c) == 'e' then ['e', ExtraHex(Lower(c))] else [ExtraHex(c)] }

  function Extras(s: string): string { if s == [] then [] else Escaped(s[0]) + Extras(s[1..]) }

  function Trailer(f: Fields): string { [if f.side == 'b' then '1' else '0'] + Extras(f.castling) + "9" + Extras(f.ep) }

  function ChessHexOf(f: Fields): string { Even(Bodies8(f.ranks) + Trailer(f)) }

  // The digits in order stand for these characters; 8 announces a run of 4 to 8, given by its excess over 4.
  lemma BoardAlphabet(i: nat)
    requires i < 16
    ensures var c, d := "123pnbrq?kPNBRQK"[i], "0123456789abcdef"[i];
      if i == 8 then forall k :: 4 <= k <= 8 ==> Code8(Digit(k)) == [d, Digit(k - 4)]
      else Code8(c) == [d] && BoardChar(d) == c
  {
  }

  // Castling and en passant: one digit each, and inner rooks, in capitals, by the digit of their file after an e.
  lemma ExtraAlphabet(i: nat)
    requires i < 14
    ensures var c, d := "-abcdefgh KQkq"[i], "0123456789abcd"[i]; Escaped(c) == [d] && ExtraChar(d) == c
    ensures 2 <= i <= 7 ==> Escaped("-ABCDEFGH"[i]) == ['e', "0123456789abcd"[i]]
  {
  }

  // ---- reading back ----

  datatype Read = Read(text: string, rest: string)

  // One token: its character, the digits used, the squares covered.
  function ReadToken8(h: string): (r: Reading)
    ensures r.used <= |h| && r.squares > 0
  {
    if h == [] then Reading(BoardChar('0'), 0, 1)
    else if h[0] == '8' then
      var d := if |h| > 1 && '0' <= h[1] <= '4' then h[1] as int - '0' as int else 0;
      Reading(('4' as int + d) as char, if |h| > 1 then 2 else 1, d + 4)
    else Reading(BoardChar(h[0]), 1, if h[0] == '1' then 2 else if h[0] == '2' then 3 else 1)
  }

  function DecodeBoard(h: string, sq: nat): Read
    decreases 64 - sq
  {
    if sq >= 64 then Read("", h)
    else
      var r := ReadToken8(h);
      var more := DecodeBoard(h[r.used..], sq + r.squares);
      Read((if sq != 0 && sq % 8 == 0 then "/" else "") + [r.c] + more.text, more.rest)
  }

  // Castling tokens up to and with the blank.
  function DecodeCastling(h: string): Read
    decreases |h|
  {
    if h == [] then Read("", "")
    else
      var escaped := h[0] == 'e' && |h| > 1;
      var c := if escaped then Upper(ExtraChar(h[1])) else ExtraChar(h[0]);
      var rest := if escaped then h[2..] else h[1..];
      if c == ' ' then Read(" ", rest)
      else
        var more := DecodeCastling(rest);
        Read([c] + more.text, more.rest)
  }

  function DecodeEp(h: string): string {
    if h == [] then "-"
    else if ExtraChar(h[0]) == '-' || |h| == 1 then [ExtraChar(h[0])]
    else [ExtraChar(h[0]), h[1]]
  }

  function DecodeTrailer(h: string): string {
    var side := if h != [] && h[0] != '0' then " b " else " w ";
    var castling := DecodeCastling(if h == [] then h else h[1..]);
    side + castling.text + DecodeEp(castling.rest)
  }

  function ChessDecode(h: string): string {
    var board := DecodeBoard(h, 0);
    board.text + DecodeTrailer(board.rest)
  }

  // ---- decoding what was coded ----

  lemma TokenBack8(h: string, c: char)
    requires BoardToken(c) && Code8(c) <= h
    ensures ReadToken8(h) == Reading(c, |Code8(c)|, Wide(c))
  {
    if LongRun(c) {
      assert Code8(c) == ['8', c - 4 as char];
      assert h[0] == '8' && h[1] == c - 4 as char;
    } else {
      assert h[0] == BoardHex(c);
    }
  }

  lemma {:induction false} WidthsMore8(row: string, j: nat)
    requires j < |row|
    ensures Widths8(row[..j + 1]) == Widths8(row[..j]) + Wide(row[j])
    decreases j
  {
    hide Wide;
    if j > 0 {
      WidthsMore8(row[1..], j - 1);
      assert row[..j + 1][1..] == row[1..][..j] && row[..j][1..] == row[1..][..j - 1];
    }
  }

  lemma {:induction false} WidthsSplit8(row: string, j: nat)
    requires j <= |row|
    ensures Widths8(row) == Widths8(row[..j]) + Widths8(row[j..])
    ensures j < |row| ==> Widths8(row[j..]) > 0
    ensures j > 0 ==> Widths8(row[..j]) > 0
  {
    if j == 0 {
      assert row[0..] == row && row[..0] == [];
    } else {
      WidthsSplit8(row[1..], j - 1);
      assert row[..j][0] == row[0];
      assert row[..j][1..] == row[1..][..j - 1] && row[1..][j - 1..] == row[j..];
    }
  }

  // The board part still to be written, j characters into rank k.
  function BoardTail(rows: seq<string>, k: nat, j: nat): string
    requires k < |rows| && j <= |rows[k]|
  {
    rows[k][j..] + (if k + 1 < |rows| then "/" + Join(rows[k + 1..]) else "")
  }

  function Coded(rows: seq<string>, k: nat, j: nat, tail: string): string
    requires k < |rows| && j <= |rows[k]|
  {
    Body8(rows[k][j..]) + Bodies8(rows[k + 1..]) + tail
  }

  ghost predicate Ranks8(rows: seq<string>) { |rows| == 8 && forall i :: 0 <= i < 8 ==> RankOk8(rows[i]) }

  lemma {:induction false} ReadsBoard(rows: seq<string>, k: nat, j: nat, tail: string)
    requires Ranks8(rows) && k < 8 && j <= |rows[k]|
    ensures DecodeBoard(Coded(rows, k, j, tail), 8 * k + Widths8(rows[k][..j]))
         == Read((if j == 0 && k > 0 then "/" else "") + BoardTail(rows, k, j), tail)
    decreases 8 - k, |rows[k]| - j
  {
    hide DecodeBoard, Coded, BoardTail, Widths8, RankOk8;
    if j < |rows[k]| {
      ReadsBoard(rows, k, j + 1, tail);
      TokenRead8(rows, k, j, tail);
    } else if k < 7 {
      NextRank8(rows, k, tail);
      ReadsBoard(rows, k + 1, 0, tail);
    } else {
      LastRank8(rows, tail);
    }
  }

  lemma LastRank8(rows: seq<string>, tail: string)
    requires Ranks8(rows)
    ensures var j := |rows[7]|;
      && j > 0 && Coded(rows, 7, j, tail) == tail && BoardTail(rows, 7, j) == "" && 8 * 7 + Widths8(rows[7][..j]) == 64
      && DecodeBoard(tail, 64) == Read("", tail)
  {
    assert RankOk8(rows[7]);
    var row, j := rows[7], |rows[7]|;
    assert row[..j] == row && row[j..] == [] && rows[8..] == [];
    assert [] + [] + tail == tail;
  }

  lemma NextRank8(rows: seq<string>, k: nat, tail: string)
    requires Ranks8(rows) && k < 7
    ensures var j := |rows[k]|;
      && j > 0 && Widths8(rows[k][..j]) == 8 && Widths8(rows[k + 1][..0]) == 0
      && Coded(rows, k, j, tail) == Coded(rows, k + 1, 0, tail) &&
        BoardTail(rows, k, j) == "/" + BoardTail(rows, k + 1, 0)
  {
    assert RankOk8(rows[k]);
    var j := |rows[k]|;
    assert rows[k][..j] == rows[k] && rows[k][j..] == [] && rows[k + 1][0..] == rows[k + 1];
    assert rows[k + 1..][0] == rows[k + 1] && rows[k + 1..][1..] == rows[k + 2..];
    JoinsOn(rows, k);
  }

  lemma JoinsOn(rows: seq<string>, k: nat)
    requires k + 1 < |rows|
    ensures BoardTail(rows, k, |rows[k]|) == "/" + Join(rows[k + 1..])
    ensures Join(rows[k + 1..]) == BoardTail(rows, k + 1, 0)
  {
    assert rows[k][|rows[k]|..] == [];
    assert rows[k + 1..][0] == rows[k + 1] && rows[k + 1..][1..] == rows[k + 2..] && rows[k + 1][0..] == rows[k + 1];
  }

  lemma TokenRead8(rows: seq<string>, k: nat, j: nat, tail: string)
    requires Ranks8(rows) && k < 8 && j < |rows[k]|
    requires DecodeBoard(Coded(rows, k, j + 1, tail), 8 * k + Widths8(rows[k][..j + 1]))
      == Read(BoardTail(rows, k, j + 1), tail)
    ensures DecodeBoard(Coded(rows, k, j, tail), 8 * k + Widths8(rows[k][..j]))
         == Read((if j == 0 && k > 0 then "/" else "") + BoardTail(rows, k, j), tail)
  {
    hide *;
    assert |rows| == 8 by { EightRanks(rows); }
    var row := rows[k];
    var c, sq, h := row[j], 8 * k + Widths8(row[..j]), Coded(rows, k, j, tail);
    AtToken(rows, k, j, tail);
    DecodeToken8(h, sq, c);
    var rest, next, t := Coded(rows, k, j + 1, tail), 8 * k + Widths8(row[..j + 1]), BoardTail(rows, k, j + 1);
    assert h[|Code8(c)|..] == rest && sq + Wide(c) == next;
    JoinRead(DecodeBoard(h, sq), DecodeBoard(rest, next), if j == 0 && k > 0 then "/" else "", c, t, tail);
  }

  lemma EightRanks(rows: seq<string>)
    requires Ranks8(rows)
    ensures |rows| == 8
  {
  }

  lemma JoinRead(all: Read, more: Read, slash: string, c: char, t: string, tail: string)
    requires all == Read(slash + [c] + more.text, more.rest) && more == Read(t, tail)
    ensures all == Read(slash + ([c] + t), tail)
  {
  }

  // The facts about the token at j of rank k.
  lemma AtToken(rows: seq<string>, k: nat, j: nat, tail: string)
    requires Ranks8(rows) && k < 8 && j < |rows[k]|
    ensures var row, h := rows[k], Coded(rows, k, j, tail);
      var c, sq := row[j], 8 * k + Widths8(row[..j]);
      && BoardToken(c) && Code8(c) <= h && h[|Code8(c)|..] == Coded(rows, k, j + 1, tail) && sq < 64
      && Widths8(row[..j + 1]) == Widths8(row[..j]) + Wide(c) &&
        BoardTail(rows, k, j) == [c] + BoardTail(rows, k, j + 1)
      && ((sq != 0 && sq % 8 == 0) <==> (j == 0 && k > 0))
  {
    hide Code8, Wide, Join, BoardToken;
    var row := rows[k];
    assert RankOk8(row);
    WidthsMore8(row, j);
    WidthsSplit8(row, j);
    CodedStep(rows, k, j, tail);
    assert row[..0] == [];
    EmptyWidth();
    hide Widths8, Coded, Body8, Bodies8;
  }

  lemma DecodeToken8(h: string, sq: nat, c: char)
    requires sq < 64 && BoardToken(c) && Code8(c) <= h
    ensures var more := DecodeBoard(h[|Code8(c)|..], sq + Wide(c));
      DecodeBoard(h, sq) == Read((if sq != 0 && sq % 8 == 0 then "/" else "") + [c] + more.text, more.rest)
  {
    TokenBack8(h, c);
    hide ReadToken8, Code8, Wide, BoardToken;
  }

  lemma EmptyWidth()
    ensures Widths8([]) == 0
  {
  }

  lemma CodedStep(rows: seq<string>, k: nat, j: nat, tail: string)
    requires k < |rows| && j < |rows[k]|
    ensures Coded(rows, k, j, tail) == Code8(rows[k][j]) + Coded(rows, k, j + 1, tail)
  {
    hide Code8;
    var row := rows[k];
    assert row[j..][0] == row[j] && row[j..][1..] == row[j + 1..];
  }

  lemma {:induction false} ReadsCastling(s: string, tail: string)
    requires forall i :: 0 <= i < |s| ==> CastleToken(s[i])
    ensures DecodeCastling(Extras(s) + "9" + tail) == Read(s + " ", tail)
  {
    if s == [] {
      assert [] + "9" + tail == "9" + tail && ("9" + tail)[1..] == tail;
    } else {
      ReadsCastling(s[1..], tail);
      var more := Extras(s[1..]) + "9" + tail;
      assert Extras(s) + "9" + tail == Escaped(s[0]) + more;
      CastlingStep(s[0], more);
      assert [s[0]] + (s[1..] + " ") == s + " ";
    }
  }

  lemma CastlingStep(c: char, more: string)
    requires CastleToken(c)
    ensures DecodeCastling(Escaped(c) + more) == Read([c] + DecodeCastling(more).text, DecodeCastling(more).rest)
  {
    var h := Escaped(c) + more;
    if ExtraHex(c) == 'e' {
      assert h[0] == 'e' && h[1] == ExtraHex(Lower(c)) && h[2..] == more;
      InnerFile(c);
    } else {
      assert h[0] == ExtraHex(c) && h[1..] == more;
      PlainToken(c);
    }
    hide ExtraHex, ExtraChar, Upper, Lower;
  }

  lemma InnerFile(c: char)
    requires CastleToken(c) && ExtraHex(c) == 'e'
    ensures Upper(ExtraChar(ExtraHex(Lower(c)))) == c && c != ' '
  {
    assert 'B' <= c <= 'G';
  }

  lemma PlainToken(c: char)
    requires CastleToken(c) && ExtraHex(c) != 'e'
    ensures ExtraChar(ExtraHex(c)) == c && c != ' '
  {
    assert c == '-' || c == 'K' || c == 'Q' || c == 'k' || c == 'q' || 'a' <= c <= 'h';
  }

  // The last field, whole, without its final 0, or with one more.
  lemma ReadsEp(ep: string)
    requires EpOk(ep)
    ensures Extras(ep) == (if ep == "-" then "0" else [ExtraHex(ep[0]), ep[1]]) && DecodeEp(Extras(ep)) == ep
    ensures ep != "-" ==> DecodeEp(Extras(ep) + "0") == ep
    ensures ep == "-" ==> DecodeEp("") == ep
  {
    if ep == "-" {
      ExtrasHead('-', []);
      assert "-" == ['-'] + [];
    } else {
      FileToken(ep[0]);
      ExtrasPair(ep);
      assert Escaped(ep[1]) == [ep[1]];
      hide Extras, ExtraHex, ExtraChar, Escaped;
      assert ep == [ep[0], ep[1]];
      assert (Extras(ep) + "0")[0] == ExtraHex(ep[0]) && (Extras(ep) + "0")[1] == ep[1];
    }
  }

  lemma ExtrasPair(s: string)
    requires |s| == 2
    ensures Extras(s) == Escaped(s[0]) + Escaped(s[1])
  {
    hide Escaped;
    assert Extras(s[1..][1..]) == [];
    assert Escaped(s[1]) + [] == Escaped(s[1]);
    assert Extras(s[1..]) == Escaped(s[1]);
  }

  lemma FileToken(c: char)
    requires 'a' <= c <= 'h'
    ensures ExtraHex(c) != 'e' && ExtraChar(ExtraHex(c)) == c && ExtraChar(ExtraHex(c)) != '-'
    ensures Escaped(c) == [ExtraHex(c)]
  {
  }

  // What making the length even does to a code that ends in the last field.
  lemma EvenEnd(x: string, ep: string) returns (end: string)
    requires EpOk(ep)
    ensures Even(x + Extras(ep)) == x + end && DecodeEp(end) == ep
  {
    ReadsEp(ep);
    var s := x + Extras(ep);
    if |s| % 2 == 0 {
      end := Extras(ep);
    } else if ep == "-" {
      assert s[|s| - 1] == '0' && s[..|s| - 1] == x;
      end := "";
      assert x + end == x;
    } else {
      assert s[|s| - 1] == ep[1] && ep[1] != '0';
      end := Extras(ep) + "0";
      assert s + "0" == x + end;
    }
  }

  // decode(encode(f)) == f for every normalised text.
  lemma ChessRoundTrip(f: Fields)
    requires WellFormed(f)
    ensures ChessDecode(ChessHexOf(f)) == TextOf(f)
    ensures |ChessHexOf(f)| % 2 == 0
  {
    hide Join, DecodeBoard, Bodies8, Extras, Widths8, RankOk8, Body8, DecodeCastling, DecodeEp, EpOk, Even;
    var side := if f.side == 'b' then '1' else '0';
    var x := Bodies8(f.ranks) + [side] + Extras(f.castling) + "9";
    assert Bodies8(f.ranks) + Trailer(f) == x + Extras(f.ep);
    var end := EvenEnd(x, f.ep);
    EvenLength(x + Extras(f.ep));
    var tail := [side] + (Extras(f.castling) + "9" + end);
    assert x + end == Bodies8(f.ranks) + tail;
    BoardBegins(f.ranks, tail);
    ReadsBoard(f.ranks, 0, 0, tail);
    ReadsCastling(f.castling, end);
    assert tail[1..] == Extras(f.castling) + "9" + end;
    assert DecodeTrailer(tail) == (if f.side == 'b' then " b " else " w ") + (f.castling + " ") + f.ep;
    Reassociate(Join(f.ranks), f.side, f.castling, f.ep);
  }

  lemma BoardBegins(rows: seq<string>, tail: string)
    requires Ranks8(rows)
    ensures Coded(rows, 0, 0, tail) == Bodies8(rows) + tail && BoardTail(rows, 0, 0) == Join(rows)
    ensures Widths8(rows[0][..0]) == 0
  {
    assert rows[0][0..] == rows[0];
    hide Body8;
  }

  lemma Reassociate(board: string, side: char, castling: string, ep: string)
    ensures board + ((" " + [side] + " ") + (castling + " ") + ep) == board + " " + [side] + " " + castling + " " + ep
  {
  }

  // Different texts have different keys.
  lemma ChessKeysDiffer(f: Fields, g: Fields)
    requires WellFormed(f) && WellFormed(g) && ChessHexOf(f) == ChessHexOf(g)
    ensures TextOf(f) == TextOf(g)
  {
    hide ChessHexOf, ChessDecode;
    ChessRoundTrip(f);
    ChessRoundTrip(g);
  }

  // ---- the loops ----

  lemma ExtrasHead(c: char, rest: string)
    ensures Extras([c] + rest) == Escaped(c) + Extras(rest) && Extras([]) == []
  {
    hide Escaped;
    assert ([c] + rest)[1..] == rest;
  }

  lemma {:induction false} ExtrasConcat(x: string, y: string)
    ensures Extras(x + y) == Extras(x) + Extras(y)
  {
    hide *;
    if x == [] {
      ExtrasHead(' ', []);
      assert x + y == y;
    } else {
      ExtrasConcat(x[1..], y);
      ExtrasHead(x[0], x[1..] + y);
      ExtrasHead(x[0], x[1..]);
      assert x == [x[0]] + x[1..] && x + y == [x[0]] + (x[1..] + y);
    }
  }

  lemma BodyHead8(c: char, rest: string)
    ensures Body8([c] + rest) == Code8(c) + Body8(rest) && Body8([]) == []
  {
    hide Code8;
    assert ([c] + rest)[1..] == rest;
  }

  lemma {:induction false} BodyConcat8(x: string, y: string)
    ensures Body8(x + y) == Body8(x) + Body8(y)
  {
    hide *;
    if x == [] {
      BodyHead8(' ', []);
      assert x + y == y;
    } else {
      BodyConcat8(x[1..], y);
      BodyHead8(x[0], x[1..] + y);
      BodyHead8(x[0], x[1..]);
      assert x == [x[0]] + x[1..] && x + y == [x[0]] + (x[1..] + y);
    }
  }

  lemma {:induction false} BodiesMore8(rows: seq<string>, k: nat)
    requires k < |rows|
    ensures Bodies8(rows[..k + 1]) == Bodies8(rows[..k]) + Body8(rows[k])
  {
    hide Body8;
    if k == 0 {
      assert rows[..1][1..] == [] && rows[..0] == [];
    } else {
      BodiesMore8(rows[1..], k - 1);
      assert rows[..k + 1][1..] == rows[1..][..k] && rows[..k][1..] == rows[1..][..k - 1];
    }
  }

  function Written8(rows: seq<string>, k: nat, j: nat): string
    requires k < |rows| && j <= |rows[k]|
  {
    Bodies8(rows[..k]) + Body8(rows[k][..j])
  }

  lemma CodeWritten8(rows: seq<string>, k: nat, j: nat)
    requires k < |rows| && j < |rows[k]|
    ensures Written8(rows, k, j + 1) == Written8(rows, k, j) + Code8(rows[k][j])
  {
    hide Bodies8, Code8;
    var row := rows[k];
    assert row[..j + 1] == row[..j] + [row[j]];
    BodyConcat8(row[..j], [row[j]]);
    assert Body8([row[j]]) == Code8(row[j]) by { assert [row[j]][1..] == []; }
  }

  lemma RankWritten8(rows: seq<string>, k: nat)
    requires k < |rows|
    ensures Written8(rows, k, |rows[k]|) == Bodies8(rows[..k + 1])
    ensures k + 1 < |rows| ==> Written8(rows, k + 1, 0) == Bodies8(rows[..k + 1])
    ensures Written8(rows, 0, 0) == []
  {
    hide Bodies8;
    assert rows[k][..|rows[k]|] == rows[k];
    BodiesMore8(rows, k);
    if k + 1 < |rows| {
      assert rows[k + 1][..0] == [];
    }
    assert rows[..0] == [] && rows[0][..0] == [];
    assert Bodies8([]) == [] by { NoBodies8(); }
  }

  lemma NoBodies8()
    ensures Bodies8([]) == []
  {
  }

  lemma TokenPlain(c: char)
    requires BoardToken(c)
    ensures c != '/' && c != ' '
  {
  }

  // The head of the board part still to come, before a blank.
  lemma BoardHead(rows: seq<string>, k: nat, j: nat, after: string)
    requires Ranks8(rows) && k < 8 && j <= |rows[k]| && after != [] && after[0] == ' '
    ensures var s := BoardTail(rows, k, j) + after;
      && s != []
      && (j < |rows[k]| ==>
            s[0] == rows[k][j] && s[0] != '/' && s[0] != ' ' && s[1..] == BoardTail(rows, k, j + 1) + after)
      && (j == |rows[k]| && k < 7 ==> s[0] == '/' && s[1..] == BoardTail(rows, k + 1, 0) + after)
      && (j == |rows[k]| && k == 7 ==> s == after)
  {
    hide Join, BoardToken;
    if j < |rows[k]| {
      assert RankOk8(rows[k]);
      TokenPlain(rows[k][j]);
      assert rows[k][j..][1..] == rows[k][j + 1..];
    } else if k < 7 {
      JoinsOn(rows, k);
    } else {
      assert rows[k][j..] == [];
    }
  }

  method WriteCode8(out: string, c: char) returns (more: string)
    ensures more == out + Code8(c)
  {
    more := out + [BoardHex(c)];
    if '4' <= c <= '8' {
      LongRunHex(c);
      more := more + [c - 4 as char];
    }
  }

  lemma LongRunHex(c: char)
    requires LongRun(c)
    ensures BoardHex(c) == '8'
  {
  }

  function AfterBoard(f: Fields): string { " " + [f.side] + " " + (f.castling + " " + f.ep) }

  // The board part: everything up to the blank.
  method EncodeBoard(fen: string, ghost f: Fields) returns (out: string, index: nat)
    requires WellFormed(f) && fen == Join(f.ranks) + AfterBoard(f)
    ensures out == Bodies8(f.ranks) && index <= |fen| && fen[index..] == AfterBoard(f)
  {
    hide Join, BoardToken, Code8, Written8, BoardTail, RankOk8, Bodies8, EpOk;
    ghost var rows, after := f.ranks, AfterBoard(f);
    index := 0;
    ghost var k, j := 0, 0;
    out := [];
    RankWritten8(rows, 0);
    BoardBegins(rows, []);
    assert fen[0..] == fen;
    while fen[index] != ' '
      invariant 0 <= index < |fen| && k < 8 && j <= |rows[k]|
      invariant fen[index..] == BoardTail(rows, k, j) + after && out == Written8(rows, k, j)
      decreases |fen| - index
    {
      BoardHead(rows, k, j, after);
      assert fen[index] == fen[index..][0] && fen[index + 1..] == fen[index..][1..];
      if fen[index] == '/' {
        RankWritten8(rows, k);
        k, j := k + 1, 0;
      } else {
        CodeWritten8(rows, k, j);
        out := WriteCode8(out, fen[index]);
        j := j + 1;
      }
      index := index + 1;
      BoardHead(rows, k, j, after);
    }
    BoardHead(rows, k, j, after);
    assert fen[index] == fen[index..][0];
    RankWritten8(rows, k);
    assert rows[..8] == rows;
  }

  // Castling and en passant fields, escapes included.
  method EncodeExtras(fen: string, start: nat, board: string) returns (out: string)
    requires start <= |fen|
    ensures out == board + Extras(fen[start..])
  {
    hide Extras, ExtraHex, Lower;
    out := board;
    var index := start;
    assert fen[start..start] == [];
    NoExtras();
    while index < |fen|
      invariant start <= index <= |fen| && out == board + Extras(fen[start..index])
    {
      var c := fen[index];
      ExtraMore(fen[start..index + 1], index - start);
      assert fen[start..index + 1][..index - start] == fen[start..index];
      assert fen[start..index + 1][..index - start + 1] == fen[start..index + 1];
      out := out + [ExtraHex(c)];
      if ExtraHex(c) == 'e' {
        out := out + [ExtraHex(Lower(c))];
      }
      index := index + 1;
    }
    assert fen[start..index] == fen[start..];
  }

  method EncodeChess(fen: string, ghost f: Fields) returns (out: string)
    requires WellFormed(f) && fen == TextOf(f)
    ensures out == ChessHexOf(f)
  {
    hide Join, Bodies8, Extras, RankOk8, EpOk, AfterBoard, Even;
    Separate(f);
    var index;
    out, index := EncodeBoard(fen, f);
    Parts(f, fen, index);
    out := out + [if fen[index + 1] == 'b' then '1' else '0'];
    out := EncodeExtras(fen, index + 3, out);
    ExtrasConcat(f.castling + " ", f.ep);
    ExtrasConcat(f.castling, " ");
    BlankCode();
    assert Extras(f.castling) + "9" + Extras(f.ep) == Extras(fen[index + 3..]);
    assert out == Bodies8(f.ranks) + Trailer(f);
    out := Even(out);
  }

  lemma Parts(f: Fields, fen: string, index: nat)
    requires index <= |fen| && fen[index..] == AfterBoard(f)
    ensures index + 3 <= |fen| && fen[index + 1] == f.side && fen[index + 3..] == f.castling + " " + f.ep
  {
    var s := fen[index..];
    assert s[1] == f.side && s[3..] == f.castling + " " + f.ep;
    assert fen[index..][1] == fen[index + 1] && fen[index..][3..] == fen[index + 3..];
  }

  lemma Separate(f: Fields)
    requires f.ranks != []
    ensures TextOf(f) == Join(f.ranks) + AfterBoard(f)
  {
    hide Join;
  }

  lemma NoExtras()
    ensures Extras([]) == []
  {
  }

  lemma ExtraMore(s: string, i: nat)
    requires i < |s|
    ensures Extras(s[..i + 1]) == Extras(s[..i]) + Escaped(s[i])
  {
    hide Escaped;
    assert s[..i + 1] == s[..i] + [s[i]];
    ExtrasConcat(s[..i], [s[i]]);
    assert Extras([s[i]]) == Escaped(s[i]) by { assert [s[i]][1..] == []; }
  }

  lemma BlankCode()
    ensures Extras(" ") == "9"
  {
    assert " "[1..] == [];
  }

  // ---- and back ----

  method DecodeBoardPart(hex: string) returns (fen: string, index: nat)
    ensures index <= |hex| && DecodeBoard(hex, 0) == Read(fen, hex[index..])
  {
    hide ReadToken8, DecodeBoard;
    index, fen := 0, [];
    var sq := 0;
    assert hex[0..] == hex;
    while sq < 64
      invariant 0 <= sq && index <= |hex|
      invariant DecodeBoard(hex, 0)
        == Read(fen + DecodeBoard(hex[index..], sq).text, DecodeBoard(hex[index..], sq).rest)
      decreases 64 - sq
    {
      var r := ReadToken8(hex[index..]);
      DecodeStep8(fen, hex, index, sq);
      if sq != 0 && sq % 8 == 0 {
        fen := fen + "/";
      }
      fen := fen + [r.c];
      index := index + r.used;
      sq := sq + r.squares;
    }
    DecodeEnds8(hex[index..], sq);
  }

  lemma DecodeStep8(fen: string, hex: string, index: nat, sq: nat)
    requires index <= |hex| && sq < 64
    ensures var r := ReadToken8(hex[index..]);
      var more := (if sq != 0 && sq % 8 == 0 then fen + "/" else fen) + [r.c];
      && index + r.used <= |hex|
      && fen + DecodeBoard(hex[index..], sq).text == more + DecodeBoard(hex[index + r.used..], sq + r.squares).text
      && DecodeBoard(hex[index..], sq).rest == DecodeBoard(hex[index + r.used..], sq + r.squares).rest
  {
    hide ReadToken8;
    var r := ReadToken8(hex[index..]);
    assert hex[index..][r.used..] == hex[index + r.used..];
  }

  lemma DecodeEnds8(h: string, sq: nat)
    requires sq >= 64
    ensures DecodeBoard(h, sq) == Read("", h)
  {
  }

  // Castling tokens until a blank has been written.
  method DecodeCastlingPart(hex: string, start: nat) returns (text: string, index: nat)
    requires start <= |hex|
    ensures index <= |hex| && DecodeCastling(hex[start..]) == Read(text, hex[index..])
  {
    hide ExtraChar, Upper, DecodeCastling;
    text, index := [], start;
    var blank := false;
    NoCastling();
    while index < |hex| && !blank
      invariant start <= index <= |hex|
      invariant var more := if blank then Read("", hex[index..]) else DecodeCastling(hex[index..]);
        DecodeCastling(hex[start..]) == Read(text + more.text, more.rest)
      decreases |hex| - index
    {
      CastlingRead(hex, index);
      var c;
      if hex[index] == 'e' && index + 1 < |hex| {
        c := Upper(ExtraChar(hex[index + 1]));
        index := index + 2;
      } else {
        c := ExtraChar(hex[index]);
        index := index + 1;
      }
      ghost var more := if c == ' ' then Read("", hex[index..]) else DecodeCastling(hex[index..]);
      Associate(text, [c], more.text);
      text := text + [c];
      blank := c == ' ';
    }
    assert text + "" == text;
    assert !blank ==> hex[index..] == [];
  }

  lemma NoCastling()
    ensures DecodeCastling([]) == Read("", "")
  {
  }

  method DecodeChess(hex: string) returns (fen: string)
    ensures fen == ChessDecode(hex)
  {
    hide DecodeBoard, DecodeCastling, DecodeEp;
    var index;
    fen, index := DecodeBoardPart(hex);
    ghost var tail := hex[index..];
    var side := if index < |hex| && hex[index] != '0' then " b " else " w ";
    if index < |hex| {
      assert tail[0] == hex[index] && tail[1..] == hex[index + 1..];
      index := index + 1;
    }
    var castling;
    castling, index := DecodeCastlingPart(hex, index);
    var ep := DecodeEp(hex[index..]);
    fen := fen + (side + castling + ep);
  }

  lemma CastlingRead(hex: string, index: nat)
    requires index < |hex|
    ensures var escaped := hex[index] == 'e' && index + 1 < |hex|;
      var c := if escaped then Upper(ExtraChar(hex[index + 1])) else ExtraChar(hex[index]);
      var rest := if escaped then hex[index + 2..] else hex[index + 1..];
      DecodeCastling(hex[index..]) == if c == ' ' then Read(" ", rest)
        else Read([c] + DecodeCastling(rest).text, DecodeCastling(rest).rest)
  {
    hide ExtraChar, Upper;
    var h := hex[index..];
    assert h[0] == hex[index] && h[1..] == hex[index + 1..];
    if |h| > 1 {
      assert h[1] == hex[index + 1] && h[2..] == hex[index + 2..];
    }
  }
}
