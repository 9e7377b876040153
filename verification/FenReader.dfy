// Reading a FEN text into a position.
module FenReader {
  import opened Geometry
  import opened Rules
  import opened Attacks
  import opened Bitboards
  import opened Engine
  import opened Symmetry
  import opened Fen
  import opened Options

  predicate IsDigit(c: char) { '0' <= c <= '9' }

  predicate IsAlpha(c: char) { 'a' <= c <= 'z' || 'A' <= c <= 'Z' }

  function DigitValue(c: char): nat
    requires IsDigit(c)
  {
    c as int - '0' as int
  }

  // How many pieces of a kind a side may have.
  function Ration(kind: Kind): nat {
    match kind
    case King => 1
    case Pawn => 5
    case _ => 2
  }

  ghost predicate Rationed(b: Board) { forall c: Side, kind: Kind :: |Of(b, c, kind)| <= Ration(kind) }

  // One king, five pawns and two of each other kind at the most.
  ghost predicate WithinNumbers(b: Board) {
    forall c: Side ::
      && |Of(b, c, King)| <= 1 && |Of(b, c, Pawn)| <= 5 && |Of(b, c, Advisor)| <= 2 && |Of(b, c, Bishop)| <= 2
      && |Of(b, c, Rook)| <= 2 && |Of(b, c, Knight)| <= 2 && |Of(b, c, Cannon)| <= 2
  }

  lemma RationsAre(b: Board)
    ensures Rationed(b) <==> WithinNumbers(b)
  {
    hide Of;
    if WithinNumbers(b) {
      forall c: Side, kind: Kind
        ensures |Of(b, c, kind)| <= Ration(kind)
      {
      }
    }
  }

  ghost predicate PointsOk(b: Board) { forall s :: OnBoard(s) && b[s].Man? ==> PointOk(b[s].side, b[s].kind, s) }

  // What the reader accepts: pieces on their points, in their numbers, two kings.
  ghost predicate Acceptable(b: Board) { Placed(b) && Rationed(b) }

  // ---- putting a piece on an empty square ----

  function PutBits(p: seq<set<int>>, c: Side, kind: Kind, s: int): seq<set<int>>
    requires |p| == 16
  {
    var q := p[Slot(c, kind) := p[Slot(c, kind)] + {s}];
    q[SideSlot(c) := q[SideSlot(c)] + {s}]
  }

  function PutCounts(n: seq<int>, c: Side, kind: Kind): seq<int>
    requires |n| == 16
  {
    var m := n[Slot(c, kind) := n[Slot(c, kind)] + 1];
    m[SideSlot(c) := m[SideSlot(c)] + 1]
  }

  lemma SetsAfterPut(b: Board, s: int, m: Cell, c: Side, kind: Kind)
    requires OnBoard(s) && b[s].Empty? && m.Man?
    ensures Of(b[s := m], c, kind) == (if m == Man(c, kind) then Of(b, c, kind) + {s} else Of(b, c, kind))
    ensures Men(b[s := m], c) == (if m.side == c then Men(b, c) + {s} else Men(b, c))
    ensures s !in Of(b, c, kind) && s !in Men(b, c) && s !in Occ(b) && Occ(b[s := m]) == Occ(b) + {s}
  {
  }

  lemma BitsAfterPut(p: seq<set<int>>, b: Board, s: int, c: Side, kind: Kind)
    requires OnBoard(s) && b[s].Empty? && Bits(p, b)
    ensures Bits(PutBits(p, c, kind, s), b[s := Man(c, kind)])
  {
    hide Of, Men, Occ;
    var a, q := b[s := Man(c, kind)], PutBits(p, c, kind, s);
    forall d: Side, k: Kind {:trigger Slot(d, k)}
      ensures q[Slot(d, k)] == Of(a, d, k)
    {
      SetsAfterPut(b, s, Man(c, kind), d, k);
      SlotsDiffer(d, k, c, kind);
    }
    forall d: Side {:trigger SideSlot(d)}
      ensures q[SideSlot(d)] == Men(a, d)
    {
      SetsAfterPut(b, s, Man(c, kind), d, kind);
    }
  }

  lemma CountsAfterPut(n: seq<int>, b: Board, s: int, c: Side, kind: Kind)
    requires OnBoard(s) && b[s].Empty? && Counts(n, b)
    ensures Counts(PutCounts(n, c, kind), b[s := Man(c, kind)])
  {
    hide Of, Men, Occ;
    var a, m := b[s := Man(c, kind)], PutCounts(n, c, kind);
    forall d: Side, k: Kind {:trigger Slot(d, k)}
      ensures m[Slot(d, k)] == |Of(a, d, k)|
    {
      SizesAfterPut(b, s, Man(c, kind), d, k);
      SlotsDiffer(d, k, c, kind);
    }
    forall d: Side {:trigger SideSlot(d)}
      ensures m[SideSlot(d)] == |Men(a, d)|
    {
      SizesAfterPut(b, s, Man(c, kind), d, kind);
    }
  }

  lemma SizesAfterPut(b: Board, s: int, m: Cell, c: Side, kind: Kind)
    requires OnBoard(s) && b[s].Empty? && m.Man?
    ensures |Of(b[s := m], c, kind)| == |Of(b, c, kind)| + (if m == Man(c, kind) then 1 else 0)
    ensures |Men(b[s := m], c)| == |Men(b, c)| + (if m.side == c then 1 else 0)
  {
    hide Of, Men, Occ;
    SetsAfterPut(b, s, m, c, kind);
  }

  // What holds of the board read so far, down to square sq.
  ghost predicate SoFar(b: Board, sq: int) {
    PointsOk(b) && Rationed(b) && forall s :: OnBoard(s) && s <= sq ==> b[s].Empty?
  }

  lemma PutSoFar(b: Board, sq: int, c: Side, kind: Kind)
    requires OnBoard(sq) && SoFar(b, sq) && PointOk(c, kind, sq) && |Of(b, c, kind)| < Ration(kind)
    ensures SoFar(b[sq := Man(c, kind)], sq - 1)
  {
    hide Of, PointOk;
    var a := b[sq := Man(c, kind)];
    forall d: Side, k: Kind
      ensures |Of(a, d, k)| <= Ration(k)
    {
      SetsAfterPut(b, sq, Man(c, kind), d, k);
    }
  }

  // Kings counted: at most one each, and the test at the end asks for one.
  lemma KingFound(b: Board, c: Side)
    requires PointsOk(b) && Rationed(b) && |Of(b, c, King)| != 0
    ensures exists k :: KingPlaced(b, c, k)
  {
    hide PointOk;
    OneMember(Of(b, c, King));
    var k := Element(Of(b, c, King));
    assert PointOk(c, King, k);
    PalacePoint(c, k);
    forall s | Has(b, s, c, King)
      ensures s == k
    {
      assert s in Of(b, c, King);
    }
    assert KingPlaced(b, c, k);
  }

  lemma PalacePoint(c: Side, k: int)
    requires PointOk(c, King, k)
    ensures Palace(k, c)
  {
  }

  lemma KingCounted(b: Board, c: Side)
    requires Placed(b)
    ensures |Of(b, c, King)| != 0
  {
    var k :| KingPlaced(b, c, k);
    assert k in Of(b, c, King);
  }

  // ---- the text still to be read ----

  // j cells of rank r are read; nine means that a slash is due, or the end.
  predicate Place(r: int, j: int) { 0 <= r < 10 && 0 <= j <= 9 }

  // Empty cells ahead in the rank.
  function EmptyRun(b: Board, r: nat, j: nat): (k: nat)
    requires Place(r, j)
    ensures k <= 9 - j
  {
    LeadingEmpties(RowCells(b, r)[j..])
  }

  lemma EmptyRunIs(b: Board, r: nat, j: nat)
    requires Place(r, j) && j < 9
    ensures EmptyRun(b, r, j) == 0 <==> b[9 * r + 8 - j].Man?
    ensures forall s :: 9 * r + 8 - j - EmptyRun(b, r, j) < s <= 9 * r + 8 - j ==> b[s].Empty?
  {
    var cells, k, q := RowCells(b, r)[j..], EmptyRun(b, r, j), 9 * r + 8 - j;
    assert cells[0] == b[q];
    if k > 0 {
      assert cells[..k][0] == cells[0];
    }
    forall s | q - k < s <= q
      ensures b[s].Empty?
    {
      assert cells[q - s] == b[s];
      assert cells[..k][q - s] == cells[q - s];
    }
  }

  lemma RunSplits(cells: seq<Cell>, k: nat)
    requires |cells| <= 9 && k <= |cells| && cells[..k] == Empties(k) && (k < |cells| ==> cells[k].Man?)
    ensures RunText(cells, 0) == Pending(k) + RunText(cells[k..], 0)
  {
    hide RunText, Pending, PieceChar, Empties;
    if k == |cells| {
      assert cells[..k] == cells && cells[k..] == [] && Empties(k) + [] == cells;
      RunHead(k, [], 0);
      NoRun(k);
    } else {
      HeadText(cells, k);
      PieceHead(cells[k..]);
      assert cells[k..][1..] == cells[k + 1..];
      Associate(Pending(k), [PieceChar(cells[k].side, cells[k].kind)], RunText(cells[k + 1..], 0));
    }
  }

  lemma PieceHead(cells: seq<Cell>)
    requires 0 < |cells| <= 9 && cells[0].Man?
    ensures RunText(cells, 0) == [PieceChar(cells[0].side, cells[0].kind)] + RunText(cells[1..], 0)
  {
    hide PieceChar;
    NothingPending();
  }

  lemma NothingPending()
    ensures Pending(0) == []
  {
  }

  lemma NoRun(k: nat)
    requires k <= 9
    ensures RunText([], k) == Pending(k) == Pending(k) + RunText([], 0)
  {
  }

  lemma SlashNext(b: Board, r: nat)
    requires 0 < r < 10
    ensures Rest(b, r, 9, 0) == "/" + Rest(b, r - 1, 0, 0)
  {
    RestNext(b, r, 0);
    hide Rest;
    NothingPending();
  }

  lemma PieceNext(b: Board, r: nat, j: nat)
    requires Place(r, j) && j < 9 && b[9 * r + 8 - j].Man?
    ensures var m := b[9 * r + 8 - j];
      Rest(b, r, j, 0) == [PieceChar(m.side, m.kind)] + Rest(b, r, j + 1, 0)
  {
    RestStep(b, r, j, 0);
    hide Rest, PieceChar;
    NothingPending();
  }

  lemma RunNext(b: Board, r: nat, j: nat)
    requires Place(r, j) && j < 9 && b[9 * r + 8 - j].Empty?
    ensures var k := EmptyRun(b, r, j);
      0 < k <= 9 - j && Rest(b, r, j, 0) == [Digit(k)] + Rest(b, r, j + k, 0)
  {
    hide RunText, Digit, RowsDown, LeadingEmpties;
    EmptyRunIs(b, r, j);
    var cells, k := RowCells(b, r)[j..], EmptyRun(b, r, j);
    RunSplits(cells, k);
    assert cells[k..] == RowCells(b, r)[j + k..];
    Associate(Pending(k), RunText(cells[k..], 0), if r == 0 then "" else "/" + RowsDown(b, r - 1));
  }

  lemma TextEnds(b: Board)
    ensures Rest(b, 0, 9, 0) == ""
  {
    assert RowCells(b, 0)[9..] == [];
  }

  lemma PieceLetter(c: Side, kind: Kind)
    ensures var l := PieceChar(c, kind); IsAlpha(l) && !IsDigit(l) && PieceOfChar(l) == Man(c, kind)
  {
  }

  lemma DigitChar(k: nat)
    requires k <= 9
    ensures IsDigit(Digit(k)) && DigitValue(Digit(k)) == k
  {
  }

  // ---- the reader ----

  // j cells of rank r are read, and the board so far is q's there.
  ghost predicate Reading(fen: string, i: nat, b: Board, q: Pos, r: int, j: int) {
    && i <= |fen| && Place(r, j)
    && fen[i..] == Rest(q.board, r, j, 0) + (" " + [TurnChar(q.turn)])
    && forall s :: 9 * r + 8 - j < s < 90 ==> b[s] == q.board[s]
  }

  lemma ReadingStarts(fen: string, b: Board, q: Pos)
    requires fen == FenOf(q)
    ensures Reading(fen, 0, b, q, 9, 0)
  {
    hide RunText;
    assert RowCells(q.board, 9)[0..] == RowCells(q.board, 9);
    assert Rest(q.board, 9, 0, 0) == RowsDown(q.board, 9);
    assert fen[0..] == fen;
    Associate(RowsDown(q.board, 9), " ", [TurnChar(q.turn)]);
  }

  lemma Head(x: string, rest: string, s: string, tail: string, i: nat)
    requires i <= |s| && s[i..] == x + rest + tail && |x| == 1
    ensures i < |s| && s[i] == x[0] && s[i + 1..] == rest + tail
  {
    assert s[i..][0] == x[0];
    assert s[i..][1..] == rest + tail;
  }

  // One character of the text of q.
  lemma ReadingStep(fen: string, i: nat, b: Board, q: Pos, r: int, j: int)
    requires Reading(fen, i, b, q, r, j) && (r != 0 || j != 9)
    ensures i < |fen|
    ensures j == 9 ==> fen[i] == '/' && Reading(fen, i + 1, b, q, r - 1, 0)
    ensures j < 9 && q.board[9 * r + 8 - j].Man? ==> ReadsPiece(fen, i, b, q, r, j)
    ensures j < 9 && q.board[9 * r + 8 - j].Empty? ==> ReadsRun(fen, i, b, q, r, j)
  {
    hide Rest, EmptyRun, PieceChar, PieceOfChar, Digit;
    var tail := " " + [TurnChar(q.turn)];
    if j == 9 {
      SlashNext(q.board, r);
      Head("/", Rest(q.board, r - 1, 0, 0), fen, tail, i);
    } else if q.board[9 * r + 8 - j].Man? {
      var m := q.board[9 * r + 8 - j];
      PieceNext(q.board, r, j);
      Head([PieceChar(m.side, m.kind)], Rest(q.board, r, j + 1, 0), fen, tail, i);
      PieceLetter(m.side, m.kind);
    } else {
      var k := EmptyRun(q.board, r, j);
      RunNext(q.board, r, j);
      Head([Digit(k)], Rest(q.board, r, j + k, 0), fen, tail, i);
      DigitChar(k);
    }
  }

  ghost predicate ReadsPiece(fen: string, i: nat, b: Board, q: Pos, r: int, j: int)
    requires i < |fen| && Place(r, j) && j < 9
  {
    var s := 9 * r + 8 - j;
    && IsAlpha(fen[i]) && !IsDigit(fen[i]) && PieceOfChar(fen[i]) == q.board[s]
    && Reading(fen, i + 1, b[s := q.board[s]], q, r, j + 1)
  }

  ghost predicate ReadsRun(fen: string, i: nat, b: Board, q: Pos, r: int, j: int)
    requires i < |fen| && Place(r, j) && j < 9
  {
    var k := EmptyRun(q.board, r, j);
    && IsDigit(fen[i]) && DigitValue(fen[i]) == k
    && fen[i + 1..] == Rest(q.board, r, j + k, 0) + (" " + [TurnChar(q.turn)])
  }

  // The empty cells passed over are empty in the board read so far.
  lemma RunRead(fen: string, i: nat, b: Board, q: Pos, r: int, j: int)
    requires i < |fen| && Reading(fen, i, b, q, r, j) && j < 9 && ReadsRun(fen, i, b, q, r, j)
    requires q.board[9 * r + 8 - j].Empty? && SoFar(b, 9 * r + 8 - j)
    ensures Reading(fen, i + 1, b, q, r, j + DigitValue(fen[i]))
  {
    hide Rest, EmptyRun;
    EmptyRunIs(q.board, r, j);
  }

  // A piece turned down shows that the whole position is not acceptable.
  lemma TurnedDown(b: Board, q: Board, sq: int, c: Side, kind: Kind)
    requires OnBoard(sq) && q[sq] == Man(c, kind) && SoFar(b, sq) && forall s :: sq < s < 90 ==> b[s] == q[s]
    requires !PointOk(c, kind, sq) || |Of(b, c, kind)| >= Ration(kind)
    ensures !Acceptable(q)
  {
    hide PointOk;
    if Rationed(q) && PointsOk(q) {
      var x := Of(b, c, kind) + {sq};
      assert x <= Of(q, c, kind);
      SubsetSize(x, Of(q, c, kind));
      assert false;
    }
  }

  method PutPiece(p: Position, sq: int, c: Side, kind: Kind)
    requires p.Agrees() && OnBoard(sq) && p.Board()[sq].Empty?
    modifies p`blockers, p.square, p.pieces, p.number
    ensures p.Agrees() && p.Board() == old(p.Board())[sq := Man(c, kind)]
  {
    hide Men, Of, Occ, Bits, Counts;
    ghost var b := p.Board();
    var i, j := Slot(c, kind), SideSlot(c);
    BitsAfterPut(p.pieces[..], b, sq, c, kind);
    CountsAfterPut(p.number[..], b, sq, c, kind);
    SetsAfterPut(b, sq, Man(c, kind), c, kind);
    p.square[sq] := Man(c, kind);
    p.number[i] := p.number[i] + 1;
    p.number[j] := p.number[j] + 1;
    p.pieces[i] := p.pieces[i] + {sq};
    p.pieces[j] := p.pieces[j] + {sq};
    p.blockers := p.blockers + {sq};
    assert p.pieces[..] == PutBits(old(p.pieces[..]), c, kind, sq);
    assert p.number[..] == PutCounts(old(p.number[..]), c, kind);
  }

  // The side to move: the first letter that names one.
  function TurnLetter(c: char): seq<Side> {
    if c == 'W' || c == 'w' || c == 'R' || c == 'r' then [White] else if c == 'B' || c == 'b' then [Black] else []
  }

  function TurnOf(s: string): seq<Side> {
    if s == [] then [] else if TurnLetter(s[0]) != [] then TurnLetter(s[0]) else TurnOf(s[1..])
  }

  method ReadTurn(fen: string, start: nat) returns (turn: seq<Side>)
    requires start <= |fen|
    ensures turn == TurnOf(fen[start..])
  {
    var i := start;
    turn := [];
    while i < |fen|
      invariant start <= i <= |fen| && turn == [] && TurnOf(fen[start..]) == TurnOf(fen[i..])
    {
      assert fen[i..][0] == fen[i] && fen[i..][1..] == fen[i + 1..];
      turn := TurnLetter(fen[i]);
      if turn != [] {
        return;
      }
      i := i + 1;
    }
  }

  predicate NamesWhite(c: char) { c == 'w' || c == 'W' || c == 'r' || c == 'R' }

  predicate NamesBlack(c: char) { c == 'b' || c == 'B' }

  // c's is the first letter that names a side.
  ghost predicate NamedFirst(s: string, c: Side, k: nat) {
    && k < |s| && (if c.White? then NamesWhite(s[k]) else NamesBlack(s[k]))
    && forall j :: 0 <= j < k ==> !NamesWhite(s[j]) && !NamesBlack(s[j])
  }

  // It is the turn of the side named first, W and R naming White, B Black; or nobody's if none is named.
  lemma {:induction false} TurnIsNamed(s: string, c: Side)
    ensures TurnOf(s) == [c] <==> exists k: nat :: NamedFirst(s, c, k)
  {
    if s != [] && TurnLetter(s[0]) == [] {
      TurnIsNamed(s[1..], c);
      if k: nat :| NamedFirst(s[1..], c, k) {
        NamedLater(s, c, k + 1);
      }
      if k: nat :| NamedFirst(s, c, k) {
        NamedLater(s, c, k);
      }
    } else if s != [] && TurnLetter(s[0]) == [c] {
      assert NamedFirst(s, c, 0);
    }
  }

  lemma NamedLater(s: string, c: Side, k: nat)
    requires s != [] && TurnLetter(s[0]) == [] && k > 0
    ensures NamedFirst(s, c, k) <==> NamedFirst(s[1..], c, k - 1)
  {
    if NamedFirst(s, c, k) {
      forall j | 0 <= j < k - 1
        ensures !NamesWhite(s[1..][j]) && !NamesBlack(s[1..][j])
      {
        assert s[1..][j] == s[j + 1];
      }
    }
    if NamedFirst(s[1..], c, k - 1) {
      forall j | 0 <= j < k
        ensures !NamesWhite(s[j]) && !NamesBlack(s[j])
      {
        assert j > 0 ==> s[j] == s[1..][j - 1];
      }
    }
  }

  lemma TurnRead(c: Side)
    ensures TurnOf(" " + [TurnChar(c)]) == [c]
  {
    assert (" " + [TurnChar(c)])[1..] == [TurnChar(c)];
  }

  predicate Allowed(count: int, c: Side, kind: Kind, sq: int) { PointOk(c, kind, sq) && count < Ration(kind) }

  // ---- what a text says, any text ----

  // The board once the reader stops, the place in the text, and the square reached.
  datatype Scan = Scan(board: Board, at: nat, sq: int)

  // Reading on at square sq with board b: a digit skips squares, a letter fills
  // one or, if it names no piece, skips it; a piece out of place or over its
  // ration ends it.
  ghost function ReadFrom(fen: string, i: nat, b: Board, sq: int): Option<Scan>
    requires i <= |fen| && sq < 90
    decreases |fen| - i
  {
    if i == |fen| || sq < 0 then Some(Scan(b, i, sq))
    else
      var c, m := fen[i], PieceOfChar(fen[i]);
      if IsDigit(c) then ReadFrom(fen, i + 1, b, sq - DigitValue(c))
      else if !IsAlpha(c) then ReadFrom(fen, i + 1, b, sq)
      else if m.Empty? then ReadFrom(fen, i + 1, b, sq - 1)
      else if Allowed(|Of(b, m.side, m.kind)|, m.side, m.kind, sq) then ReadFrom(fen, i + 1, b[sq := m], sq - 1)
      else None
  }

  function NoMen(): Board { seq(90, _ => Empty) }

  // The position a text stands for: ninety squares, a side to move, two kings.
  ghost function ReadText(fen: string): Option<Pos> {
    var scan := ReadFrom(fen, 0, NoMen(), 89);
    if scan.None? || scan.value.sq != -1 || scan.value.at > |fen| then None
    else
      var b, turn := scan.value.board, TurnOf(fen[scan.value.at..]);
      if turn == [] || Of(b, White, King) == {} || Of(b, Black, King) == {} then None else Some(Pos(b, turn[0]))
  }

  function FirstNames(fen: string): string { seq(|fen|, i requires 0 <= i < |fen| => FirstName(fen[i])) }

  // The board reads the same with E, G and H written as B, A and N, whatever the text.
  lemma {:induction false} SecondNamesRead(fen: string, i: nat, b: Board, sq: int)
    requires i <= |fen| && sq < 90
    ensures ReadFrom(FirstNames(fen), i, b, sq) == ReadFrom(fen, i, b, sq)
    decreases |fen| - i
  {
    hide Of, PieceOfChar, Allowed;
    if i < |fen| && sq >= 0 {
      var c, m := fen[i], PieceOfChar(fen[i]);
      SecondNames(c);
      assert FirstNames(fen)[i] == FirstName(c);
      assert IsDigit(FirstName(c)) == IsDigit(c) && IsAlpha(FirstName(c)) == IsAlpha(c);
      hide FirstName, FirstNames;
      if IsDigit(c) {
        SecondNamesRead(fen, i + 1, b, sq - DigitValue(c));
      } else if !IsAlpha(c) {
        SecondNamesRead(fen, i + 1, b, sq);
      } else if m.Empty? {
        SecondNamesRead(fen, i + 1, b, sq - 1);
      } else {
        SecondNamesRead(fen, i + 1, b[sq := m], sq - 1);
      }
    }
  }

  // A letter that names no piece reads as one empty square, and a slash as anything else but letters and digits.
  predicate ReadsAs(c: char, d: char) {
    (IsAlpha(c) && PieceOfChar(c).Empty? && d == '1') || (!IsAlpha(c) && !IsDigit(c) && !IsAlpha(d) && !IsDigit(d))
  }

  lemma {:induction false} ReadsAlike(fen: string, k: nat, d: char, i: nat, b: Board, sq: int)
    requires k < |fen| && ReadsAs(fen[k], d) && i <= |fen| && sq < 90
    ensures ReadFrom(fen[k := d], i, b, sq) == ReadFrom(fen, i, b, sq)
    decreases |fen| - i
  {
    hide Of, PieceOfChar, Allowed;
    if i < |fen| && sq >= 0 {
      var c, m := fen[i], PieceOfChar(fen[i]);
      assert IsDigit('1') && DigitValue('1') == 1 && !(IsAlpha(c) && IsDigit(c));
      if IsDigit(c) {
        ReadsAlike(fen, k, d, i + 1, b, sq - DigitValue(c));
      } else if !IsAlpha(c) {
        ReadsAlike(fen, k, d, i + 1, b, sq);
      } else if m.Empty? {
        ReadsAlike(fen, k, d, i + 1, b, sq - 1);
      } else {
        ReadsAlike(fen, k, d, i + 1, b[sq := m], sq - 1);
      }
    }
  }

  // ---- the text of a position stands for it ----

  // The reader got to the end of q's text, or turned it down rightly.
  ghost predicate ReadTo(fen: string, q: Pos, scan: Option<Scan>) {
    if scan.None? then !Acceptable(q.board)
    else
      && scan.value.board == q.board && scan.value.sq == -1 && scan.value.at <= |fen|
      && fen[scan.value.at..] == " " + [TurnChar(q.turn)]
  }

  // From any point of the text of q it does.
  lemma {:induction false} ReadsOn(fen: string, i: nat, b: Board, q: Pos, r: int, j: int)
    requires i <= |fen| && Place(r, j) && Reading(fen, i, b, q, r, j) && SoFar(b, 9 * r + 8 - j)
    ensures ReadTo(fen, q, ReadFrom(fen, i, b, 9 * r + 8 - j))
    decreases |fen| - i
  {
    hide Rest, Of, PointOk, SoFar, Reading, ReadsRun, ReadsPiece, ReadTo, ReadFrom, PieceOfChar;
    var sq := 9 * r + 8 - j;
    if sq < 0 {
      ReadingEnds(fen, i, b, q, r, j);
      EndRead(fen, i, b, q);
    } else {
      ReadingStep(fen, i, b, q, r, j);
      SlashIsNeither();
      WhatIsRead(fen, i, b, q, r, j);
      var c := fen[i];
      OneRead(fen, i, b, sq);
      if IsDigit(c) {
        var k := DigitValue(c);
        RunRead(fen, i, b, q, r, j);
        InRank(fen, i + 1, b, q, r, j + k);
        SoFarLess(b, sq, sq - k);
        ReadsOn(fen, i + 1, b, q, r, j + k);
      } else if IsAlpha(c) {
        PieceReadsOn(fen, i, b, q, r, j);
      } else {
        InRank(fen, i + 1, b, q, r - 1, 0);
        ReadsOn(fen, i + 1, b, q, r - 1, 0);
      }
    }
  }

  lemma {:induction false} PieceReadsOn(fen: string, i: nat, b: Board, q: Pos, r: int, j: int)
    requires Place(r, j) && i < |fen| && j < 9 && Reading(fen, i, b, q, r, j) && SoFar(b, 9 * r + 8 - j)
    requires var sq := 9 * r + 8 - j;
      && IsAlpha(fen[i]) && !IsDigit(fen[i]) && q.board[sq].Man? && PieceOfChar(fen[i]) == q.board[sq]
      && Reading(fen, i + 1, b[sq := q.board[sq]], q, r, j + 1)
    ensures ReadTo(fen, q, ReadFrom(fen, i, b, 9 * r + 8 - j))
    decreases |fen| - i, 0
  {
    hide Rest, Of, PointOk, SoFar, Reading, ReadTo, ReadFrom, PieceOfChar;
    var sq := 9 * r + 8 - j;
    var m := q.board[sq];
    OneRead(fen, i, b, sq);
    if Allowed(|Of(b, m.side, m.kind)|, m.side, m.kind, sq) {
      PutSoFar(b, sq, m.side, m.kind);
      ReadsOn(fen, i + 1, b[sq := m], q, r, j + 1);
    } else {
      ReadAbove(fen, i, b, q, r, j);
      TurnedDown(b, q.board, sq, m.side, m.kind);
      NoneRead(fen, q);
    }
  }

  lemma EndRead(fen: string, i: nat, b: Board, q: Pos)
    requires i <= |fen| && b == q.board && fen[i..] == " " + [TurnChar(q.turn)]
    ensures ReadTo(fen, q, ReadFrom(fen, i, b, -1))
  {
  }

  lemma NoneRead(fen: string, q: Pos)
    requires !Acceptable(q.board)
    ensures ReadTo(fen, q, None)
  {
  }

  // One character, whatever the text.
  lemma OneRead(fen: string, i: nat, b: Board, sq: int)
    requires i < |fen| && OnBoard(sq)
    ensures var c, m := fen[i], PieceOfChar(fen[i]);
      ReadFrom(fen, i, b, sq) ==
        if IsDigit(c) then ReadFrom(fen, i + 1, b, sq - DigitValue(c))
        else if !IsAlpha(c) then ReadFrom(fen, i + 1, b, sq)
        else if m.Empty? then ReadFrom(fen, i + 1, b, sq - 1)
        else if Allowed(|Of(b, m.side, m.kind)|, m.side, m.kind, sq) then ReadFrom(fen, i + 1, b[sq := m], sq - 1)
        else None
  {
    hide Of, PieceOfChar, Allowed;
  }

  // The text of a position is accepted iff the position is acceptable, and stands for it.
  lemma ReadsBack(q: Pos)
    ensures ReadText(FenOf(q)) == if Acceptable(q.board) then Some(q) else None
    ensures ReadText(FenOf(q)).Some? <==> Placed(q.board) && WithinNumbers(q.board)
  {
    RationsAre(q.board);
    hide FenOf, Of, PointsOk, KingPlaced, Reading, SoFar;
    var fen := FenOf(q);
    ReadingStarts(fen, NoMen(), q);
    NothingRead();
    ReadsOn(fen, 0, NoMen(), q, 9, 0);
    TurnRead(q.turn);
    ReadKeeps(fen, 0, NoMen(), 89);
    var scan := ReadFrom(fen, 0, NoMen(), 89);
    if scan.Some? {
      AcceptedBoard(q.board);
    }
  }

  // A rationed board on its points is acceptable once it has both kings.
  lemma AcceptedBoard(b: Board)
    requires PointsOk(b) && Rationed(b)
    ensures Acceptable(b) <==> Of(b, White, King) != {} && Of(b, Black, King) != {}
  {
    hide Of, KingPlaced;
    if Of(b, White, King) != {} && Of(b, Black, King) != {} {
      KingFound(b, White);
      KingFound(b, Black);
      BoardPlaced(b);
    }
    if Placed(b) {
      KingCounted(b, White);
      KingCounted(b, Black);
    }
  }

  lemma {:induction false} ReadKeeps(fen: string, i: nat, b: Board, sq: int)
    requires i <= |fen| && sq < 90 && SoFar(b, sq)
    ensures var scan := ReadFrom(fen, i, b, sq); scan.Some? ==> PointsOk(scan.value.board) && Rationed(scan.value.board)
    ensures var scan := ReadFrom(fen, i, b, sq); scan.Some? ==> scan.value.at <= |fen|
    decreases |fen| - i
  {
    hide Of, PointOk, SoFar, PointsOk, Rationed, PieceOfChar;
    SoFarIs(b, sq);
    if i < |fen| && sq >= 0 {
      var c, m := fen[i], PieceOfChar(fen[i]);
      if IsDigit(c) {
        SoFarLess(b, sq, sq - DigitValue(c));
        ReadKeeps(fen, i + 1, b, sq - DigitValue(c));
      } else if !IsAlpha(c) {
        ReadKeeps(fen, i + 1, b, sq);
      } else if m.Empty? {
        SoFarLess(b, sq, sq - 1);
        ReadKeeps(fen, i + 1, b, sq - 1);
      } else if Allowed(|Of(b, m.side, m.kind)|, m.side, m.kind, sq) {
        PutSoFar(b, sq, m.side, m.kind);
        ReadKeeps(fen, i + 1, b[sq := m], sq - 1);
      }
    }
  }

  // ---- the loops ----

  // The board part of the text, square by square from 89 down.
  method ReadBoard(p: Position, fen: string) returns (ok: bool, i: nat, sq: int)
    requires p.Agrees() && p.Board() == NoMen()
    modifies p`blockers, p.square, p.pieces, p.number
    ensures p.Agrees() && i <= |fen|
    ensures ReadFrom(fen, 0, NoMen(), 89) == if ok then Some(Scan(p.Board(), i, sq)) else None
    ensures ok ==> PointsOk(p.Board()) && Rationed(p.Board())
  {
    hide Of, Men, Occ, Bits, Counts, PointOk, SoFar, PieceOfChar;
    ok, i, sq := true, 0, 89;
    NothingRead();
    while i < |fen| && sq >= 0
      invariant i <= |fen| && sq < 90 && ok && p.Agrees() && SoFar(p.Board(), sq)
      invariant ReadFrom(fen, 0, NoMen(), 89) == ReadFrom(fen, i, p.Board(), sq)
      decreases |fen| - i
    {
      var c := fen[i];
      if IsDigit(c) {
        SoFarLess(p.Board(), sq, sq - DigitValue(c));
        sq := sq - DigitValue(c);
      } else if IsAlpha(c) {
        var m := PieceOfChar(c);
        if m.Man? {
          CountIs(p.number[..], p.Board(), m.side, m.kind);
          if !Allowed(p.number[Slot(m.side, m.kind)], m.side, m.kind, sq) {
            ok := false;
            return;
          }
          PutSoFar(p.Board(), sq, m.side, m.kind);
          EmptyBelow(p.Board(), sq);
          PutPiece(p, sq, m.side, m.kind);
        } else {
          SoFarLess(p.Board(), sq, sq - 1);
        }
        sq := sq - 1;
      }
      i := i + 1;
    }
    SoFarIs(p.Board(), sq);
  }

  lemma NothingRead()
    ensures SoFar(NoMen(), 89)
  {
    forall c: Side, kind: Kind
      ensures Of(NoMen(), c, kind) == {}
    {
    }
  }

  lemma SlashIsNeither()
    ensures !IsDigit('/') && !IsAlpha('/')
  {
  }

  lemma InRank(fen: string, i: nat, b: Board, q: Pos, r: int, j: int)
    requires Reading(fen, i, b, q, r, j)
    ensures Place(r, j)
  {
  }

  // A digit, a letter or a slash tells what the square of q is.
  lemma WhatIsRead(fen: string, i: nat, b: Board, q: Pos, r: int, j: int)
    requires Place(r, j) && i < |fen|
    requires j == 9 ==> fen[i] == '/'
    requires j < 9 && q.board[9 * r + 8 - j].Man? ==> ReadsPiece(fen, i, b, q, r, j)
    requires j < 9 && q.board[9 * r + 8 - j].Empty? ==> ReadsRun(fen, i, b, q, r, j)
    ensures IsDigit(fen[i]) ==> j < 9 && q.board[9 * r + 8 - j].Empty?
    ensures IsAlpha(fen[i]) ==> j < 9 && q.board[9 * r + 8 - j].Man? && PieceOfChar(fen[i]) == q.board[9 * r + 8 - j]
                                && Reading(fen, i + 1, b[9 * r + 8 - j := PieceOfChar(fen[i])], q, r, j + 1)
    ensures !IsDigit(fen[i]) && !IsAlpha(fen[i]) ==> j == 9
  {
    hide Rest, Reading, EmptyRun;
  }

  lemma SoFarLess(b: Board, sq: int, less: int)
    requires SoFar(b, sq) && less <= sq
    ensures SoFar(b, less)
  {
  }

  lemma SoFarIs(b: Board, sq: int)
    requires SoFar(b, sq)
    ensures PointsOk(b) && Rationed(b)
  {
  }

  lemma EmptyBelow(b: Board, sq: int)
    requires SoFar(b, sq) && OnBoard(sq)
    ensures b[sq].Empty?
  {
  }

  lemma CountIs(n: seq<int>, b: Board, c: Side, kind: Kind)
    requires Counts(n, b)
    ensures n[Slot(c, kind)] == |Of(b, c, kind)|
  {
  }

  lemma ReadAbove(fen: string, i: nat, b: Board, q: Pos, r: int, j: int)
    requires Reading(fen, i, b, q, r, j)
    ensures forall s :: 9 * r + 8 - j < s < 90 ==> b[s] == q.board[s]
  {
  }

  lemma ReadingEnds(fen: string, i: nat, b: Board, q: Pos, r: int, j: int)
    requires Reading(fen, i, b, q, r, j) && 9 * r + 8 - j < 0
    ensures 9 * r + 8 - j == -1 && b == q.board && fen[i..] == " " + [TurnChar(q.turn)]
  {
    TextEnds(q.board);
    hide Rest;
  }

  // Any text is read as the position it stands for, or turned down if there is
  // none; an accepted position keeps all the invariants.
  method FromFen(p: Position, fen: string) returns (ok: bool)
    requires p.Agrees() && p.Board() == NoMen() && p.stack == []
    modifies p`blockers, p`turn, p.square, p.pieces, p.number
    ensures p.Agrees() && (ok ==> p.Valid() && Rationed(p.Board()) && WithinNumbers(p.Board()))
    ensures ReadText(fen) == if ok then Some(Pos(p.Board(), p.turn)) else None
  {
    hide Bits, Of, Men, Occ, PointsOk, KingPlaced, Counts, ReadFrom, WithinNumbers;
    var i, sq;
    ok, i, sq := ReadBoard(p, fen);
    if !ok {
      return;
    }
    var turn := [];
    if sq == -1 {
      turn := ReadTurn(fen, i);
    }
    ghost var b := p.Board();
    RationsAre(b);
    CountIs(p.number[..], b, White, King);
    CountIs(p.number[..], b, Black, King);
    var whites, blacks := p.number[Slot(White, King)], p.number[Slot(Black, King)];
    ok := turn != [] && whites != 0 && blacks != 0;
    AcceptedBoard(b);
    if ok {
      p.turn := turn[0];
    }
  }

  lemma BoardPlaced(b: Board)
    requires PointsOk(b) && (exists k :: KingPlaced(b, White, k)) && (exists k :: KingPlaced(b, Black, k))
    ensures Placed(b)
  {
  }
}
