// The line being searched and the verdicts on its loops: how the line is kept in a
// table, how a loop is found and read back, and what verdicts do to scores.
module Loops {
  import opened Geometry
  import opened Symmetry
  import opened MoveText
  import opened Options

  type Scores = map<string, int>

  // What the search asks of the rest of the system: the stored scores and the
  // moves to follow at a point in time, which scores are final, making a move,
  // the score backed up from the replies, whether a side is mated, and the
  // adjudication of a loop (0 none, 1 draw, 2 and 3 a ban).
  datatype Book = Book(known: (Pos, nat) -> Scores, follow: (Pos, nat) -> seq<string>, final: (Pos, string) -> bool,
                       make: (Pos, string) -> Pos, backUp: (Scores, nat) -> int, mated: Pos -> bool,
                       rule: (Pos, seq<string>) -> int)

  ghost predicate ShortMoves(book: Book) {
    forall p: Pos, t: nat, i: nat :: i < |book.follow(p, t)| ==> |book.follow(p, t)[i]| <= 4
  }

  // How the search went on from a position of the line.
  datatype Step = Step(fen: Pos, move: string)

  type Table = map<Pos, Step>

  type Verdicts = map<Pos, map<string, int>>

  // An expanded position and the value of the counter on entry.
  datatype Expansion = Expansion(pos: Pos, at: nat)

  // ---- mirrored positions are one position ----

  ghost predicate Related(p: Pos, q: Pos) { exists g: Mirror :: q == Image(g, p) }

  lemma RelatedSymmetric(p: Pos, q: Pos)
    ensures Related(p, q) <==> Related(q, p)
  {
    hide Image;
    if g: Mirror :| q == Image(g, p) {
      GroupLaws(g, g, p);
      assert p == Image(g, q);
    }
    if g: Mirror :| p == Image(g, q) {
      GroupLaws(g, g, q);
      assert q == Image(g, p);
    }
  }

  lemma RelatedTransitive(p: Pos, q: Pos, r: Pos)
    requires Related(p, q) && Related(q, r)
    ensures Related(p, r)
  {
    hide Image;
    var g: Mirror :| q == Image(g, p);
    var h: Mirror :| r == Image(h, q);
    ImagesCompose(h, g, p);
    assert r == Image(Then(h, g), p);
  }

  lemma RelatedReflexive(p: Pos)
    ensures Related(p, p)
  {
    GroupLaws(ID, ID, p);
    assert p == Image(ID, p);
  }

  ghost predicate Unrelated(path: seq<Pos>) {
    forall i, j :: 0 <= i < j < |path| ==> !Related(path[i], path[j])
  }

  ghost predicate Apart(path: seq<Pos>, p: Pos) {
    forall i :: 0 <= i < |path| ==> !Related(path[i], p)
  }

  // ---- the line being searched ----

  function NextOn(path: seq<Pos>, row: Pos, i: nat): Pos
    requires i < |path|
  {
    if i + 1 < |path| then path[i + 1] else row
  }

  ghost predicate Linked(history: Table, book: Book, path: seq<Pos>, row: Pos, i: nat)
    requires i < |path|
  {
    var p := path[i];
    p in history && history[p].fen == NextOn(path, row, i) == book.make(p, history[p].move) && |history[p].move| <= 4
  }

  // The table is a simple chain: pairwise unrelated positions, each linked to
  // the next by its move, the last to the position at hand.
  ghost predicate Chained(history: Table, book: Book, path: seq<Pos>, row: Pos) {
    && Unrelated(path)
    && (forall p :: p in history <==> p in path)
    && (forall i :: 0 <= i < |path| ==> Linked(history, book, path, row, i))
  }

  lemma ChainGrows(history: Table, book: Book, path: seq<Pos>, row: Pos, key: string)
    requires Chained(history, book, path, row) && Apart(path, row) && |key| <= 4
    ensures var next := book.make(row, key); Chained(history[row := Step(next, key)], book, path + [row], next)
    ensures row !in history
  {
    hide Image;
    var next := book.make(row, key);
    var h, more := history[row := Step(next, key)], path + [row];
    if row in history {
      var i :| 0 <= i < |path| && path[i] == row;
      RelatedReflexive(row);
      assert false;
    }
    forall i, j | 0 <= i < j < |more|
      ensures !Related(more[i], more[j])
    {
      assert more[i] == path[i];
      if j < |path| {
        assert more[j] == path[j];
      }
    }
    forall i | 0 <= i < |more|
      ensures Linked(h, book, more, next, i)
    {
      if i < |path| {
        assert Linked(history, book, path, row, i);
        assert path[i] in history && path[i] != row;
      }
    }
    forall p
      ensures p in h <==> p in more
    {
      assert p in more <==> p in path || p == row;
    }
  }

  // The first image of the position that the table holds.
  method FindLoop(history: Table, row: Pos, ghost path: seq<Pos>) returns (start: Option<Pos>, ghost j: nat)
    requires forall p :: p in history <==> p in path
    ensures start.None? ==> Apart(path, row)
    ensures start.Some? ==> j < |path| && path[j] == start.value && Related(start.value, row)
  {
    hide Image;
    var hasLR := Image(LR, row) != row;
    j := 0;
    start := None;
    if row in history {
      start := Some(row);
    } else if Image(BW, row) in history {
      start := Some(Image(BW, row));
    } else if hasLR && Image(LR, row) in history {
      start := Some(Image(LR, row));
    } else if hasLR && Image(LRBW, row) in history {
      start := Some(Image(LRBW, row));
    } else {
      NoImage(history, row, path);
    }
    if start.Some? {
      RelatedReflexive(row);
      RelatedSymmetric(row, start.value);
      j :| 0 <= j < |path| && path[j] == start.value;
    }
  }

  lemma FourImages(p: Pos, g: Mirror)
    ensures Image(g, p) == p || Image(g, p) == Image(BW, p)
         || (Image(LR, p) != p && (Image(g, p) == Image(LR, p) || Image(g, p) == Image(LRBW, p)))
  {
    hide Image;
    GroupLaws(BW, LR, p);
    GroupLaws(LR, LR, p);
  }

  lemma NoImage(history: Table, row: Pos, path: seq<Pos>)
    requires forall p :: p in history <==> p in path
    requires row !in history && Image(BW, row) !in history
    requires Image(LR, row) != row ==> Image(LR, row) !in history && Image(LRBW, row) !in history
    ensures Apart(path, row)
  {
    hide Image;
    forall i | 0 <= i < |path|
      ensures !Related(path[i], row)
    {
      if Related(path[i], row) {
        RelatedSymmetric(path[i], row);
        var g: Mirror :| path[i] == Image(g, row);
        FourImages(row, g);
      }
    }
  }

  // ---- loops ----

  function PlayLine(book: Book, p: Pos, moves: seq<string>): Pos
    decreases |moves|
  {
    if moves == [] then p else PlayLine(book, book.make(p, moves[0]), moves[1..])
  }

  lemma {:induction false} PlayMore(book: Book, p: Pos, moves: seq<string>, m: string)
    ensures PlayLine(book, p, moves + [m]) == book.make(PlayLine(book, p, moves), m)
    decreases |moves|
  {
    if moves == [] {
      assert [m][1..] == [];
    } else {
      PlayMore(book, book.make(p, moves[0]), moves[1..], m);
      assert (moves + [m])[1..] == moves[1..] + [m];
    }
  }

  predicate IsImage(p: Pos, row: Pos) {
    p == row || p == Image(BW, row) || (Image(LR, row) != row && (p == Image(LR, row) || p == Image(LRBW, row)))
  }

  // The moves of the line from its j-th position on.
  function LoopLine(history: Table, path: seq<Pos>, j: nat): seq<string>
    requires j <= |path|
  {
    seq(|path| - j, i requires 0 <= i < |path| - j => if path[j + i] in history then history[path[j + i]].move else "")
  }

  // The moves from the earlier equivalent position to the one at hand.
  method WalkLoop(history: Table, book: Book, row: Pos, start: Pos, ghost path: seq<Pos>, ghost j: nat)
    returns (moves: seq<string>)
    requires Chained(history, book, path, row) && j < |path| && path[j] == start && Related(start, row)
    ensures moves == LoopLine(history, path, j) && start in history && moves != [] && moves[0] == history[start].move
    ensures PlayLine(book, start, moves) == row
  {
    hide Image, Chained;
    ChainIs(history, book, path, row);
    var fen := start;
    ghost var i := j;
    moves := [];
    while true
      invariant j <= i < |path| && fen == path[i] && |moves| == i - j
      invariant forall x :: 0 <= x < i - j ==> path[j + x] in history && moves[x] == history[path[j + x]].move
      invariant PlayLine(book, start, moves) == fen
      decreases |path| - i
    {
      assert Linked(history, book, path, row, i);
      PlayMore(book, start, moves, history[fen].move);
      moves := moves + [history[fen].move];
      fen := history[fen].fen;
      i := i + 1;
      if fen !in history {
        assert i == |path|;
        break;
      }
      if IsImage(fen, row) {
        if i < |path| {
          NotImage(path, row, j, i);
        }
        break;
      }
    }
  }

  lemma ChainIs(history: Table, book: Book, path: seq<Pos>, row: Pos)
    requires Chained(history, book, path, row)
    ensures Unrelated(path) && (forall p :: p in history <==> p in path)
    ensures forall i :: 0 <= i < |path| ==> Linked(history, book, path, row, i)
  {
  }

  lemma NotImage(path: seq<Pos>, row: Pos, j: nat, i: nat)
    requires Unrelated(path) && j < i < |path| && Related(path[j], row)
    ensures !IsImage(path[i], row)
  {
    hide Image;
    if IsImage(path[i], row) {
      RelatedReflexive(row);
      assert Related(row, path[i]);
      RelatedTransitive(path[j], row, path[i]);
    }
  }

  // ---- verdicts ----

  // Verdicts hang on positions of the line only.
  ghost predicate OnPath(loops: Verdicts, path: seq<Pos>) {
    forall p :: p in loops ==> p in path && loops[p] != map[] && ShortKeys(loops[p])
  }

  ghost predicate ShortKeys(entries: map<string, int>) { forall k :: k in entries ==> |k| <= 4 }

  function EntriesAt(loops: Verdicts, p: Pos): map<string, int> { if p in loops then loops[p] else map[] }

  // Entries with their moves mirrored.
  ghost function Turned(g: Mirror, entries: map<string, int>): map<string, int> {
    map k | k in (set x | x in entries :: MirrorText(g, x)) && MirrorText(g, k) in entries :: entries[MirrorText(g, k)]
  }

  lemma TurnedFrom(g: Mirror, entries: map<string, int>, k: string)
    ensures k in Turned(g, entries) <==> MirrorText(g, k) in entries
  {
    hide MirrorText;
    TextsCompose(g, g, k);
  }

  method AddTurned(info: map<string, int>, g: Mirror, entries: map<string, int>) returns (more: map<string, int>)
    requires ShortKeys(entries)
    ensures more == info + Turned(g, entries)
  {
    hide MirrorText, Turned;
    var left := entries.Keys;
    ghost var done: map<string, int> := map[];
    more := info;
    assert Turned(g, map[]) == map[] by { NothingTurned(g); }
    while left != {}
      invariant left <= entries.Keys && done == map x | x in entries && x !in left :: entries[x]
      invariant more == info + Turned(g, done)
      decreases left
    {
      var k :| k in left;
      var turned := GetMirrorMove(g, k);
      TurnedMore(g, done, k, entries[k]);
      left := left - {k};
      more := more[turned := entries[k]];
      done := done[k := entries[k]];
    }
    assert done == entries;
  }

  lemma NothingTurned(g: Mirror)
    ensures Turned(g, map[]) == map[]
  {
  }

  lemma TurnedMore(g: Mirror, entries: map<string, int>, k: string, v: int)
    requires k !in entries
    ensures Turned(g, entries[k := v]) == Turned(g, entries)[MirrorText(g, k) := v]
  {
    hide MirrorText;
    var a, b := Turned(g, entries[k := v]), Turned(g, entries)[MirrorText(g, k) := v];
    forall x
      ensures x in a <==> x in b
      ensures x in a && x in b ==> a[x] == b[x]
    {
      TextsCompose(g, g, x);
      TextsCompose(g, g, k);
      TurnedFrom(g, entries, x);
      TurnedFrom(g, entries[k := v], x);
    }
  }

  // The verdicts that hang on any image of the position, mirrored to it.
  ghost function InfoOf(loops: Verdicts, row: Pos): map<string, int> {
    var own := EntriesAt(loops, row) + Turned(BW, EntriesAt(loops, Image(BW, row)));
    if Image(LR, row) == row then own
    else own + Turned(LR, EntriesAt(loops, Image(LR, row))) + Turned(LRBW, EntriesAt(loops, Image(LRBW, row)))
  }

  method AddIfStored(info: map<string, int>, g: Mirror, loops: Verdicts, p: Pos, ghost path: seq<Pos>)
    returns (more: map<string, int>)
    requires OnPath(loops, path)
    ensures more == info + Turned(g, EntriesAt(loops, p))
  {
    hide Turned;
    more := info;
    if p in loops {
      more := AddTurned(info, g, loops[p]);
    } else {
      NothingTurned(g);
    }
  }

  method Collect(loops: Verdicts, row: Pos, ghost path: seq<Pos>) returns (info: map<string, int>)
    requires OnPath(loops, path)
    ensures info == InfoOf(loops, row)
    ensures row in loops ==> info != map[]
  {
    hide Image, Turned;
    var hasLR := Image(LR, row) != row;
    info := EntriesAt(loops, row);
    ghost var own := info;
    info := AddIfStored(info, BW, loops, Image(BW, row), path);
    if hasLR {
      info := AddIfStored(info, LR, loops, Image(LR, row), path);
      info := AddIfStored(info, LRBW, loops, Image(LRBW, row), path);
    }
    if row in loops {
      assert own != map[];
      ghost var k :| k in own;
      assert k in info;
    }
  }

  // At most one image of the position carries verdicts, so none is overwritten.
  lemma OneCarrier(loops: Verdicts, path: seq<Pos>, row: Pos, p: Pos, q: Pos)
    requires OnPath(loops, path) && Unrelated(path) && p in loops && q in loops && Related(p, row) && Related(q, row)
    ensures p == q
  {
    hide Image;
    RelatedSymmetric(q, row);
    RelatedTransitive(p, row, q);
    RelatedSymmetric(p, q);
    var i :| 0 <= i < |path| && path[i] == p;
    var j :| 0 <= j < |path| && path[j] == q;
  }

  // The image of the position under g carries verdict v on the image of the move; a position equal to its left-right
  // mirror is looked for as it is and with the sides exchanged only.
  ghost predicate Carries(loops: Verdicts, row: Pos, g: Mirror, k: string, v: int) {
    var entries := EntriesAt(loops, Image(g, row));
    (g.swapFiles ==> Image(LR, row) != row) && MirrorText(g, k) in entries && entries[MirrorText(g, k)] == v
  }

  // The verdicts on the moves of a position are exactly those that its images carry.
  lemma InfoIs(loops: Verdicts, path: seq<Pos>, row: Pos, k: string, v: int)
    requires OnPath(loops, path) && Unrelated(path)
    ensures k in InfoOf(loops, row) && InfoOf(loops, row)[k] == v <==> exists g: Mirror :: Carries(loops, row, g, k, v)
  {
    hide Image, MirrorText;
    TextsCompose(ID, ID, k);
    GroupLaws(ID, ID, row);
    TurnedFrom(BW, EntriesAt(loops, Image(BW, row)), k);
    TurnedFrom(LR, EntriesAt(loops, Image(LR, row)), k);
    TurnedFrom(LRBW, EntriesAt(loops, Image(LRBW, row)), k);
    if k in InfoOf(loops, row) && InfoOf(loops, row)[k] == v {
      var g := CarrierOf(loops, row, k, v);
    }
    if g: Mirror :| Carries(loops, row, g, k, v) {
      OtherImages(loops, path, row, g);
      assert g == ID || g == BW || g == LR || g == LRBW;
    }
  }

  lemma CarrierOf(loops: Verdicts, row: Pos, k: string, v: int) returns (g: Mirror)
    requires k in InfoOf(loops, row) && InfoOf(loops, row)[k] == v
    ensures Carries(loops, row, g, k, v)
  {
    hide Image, MirrorText;
    TextsCompose(ID, ID, k);
    GroupLaws(ID, ID, row);
    TurnedFrom(BW, EntriesAt(loops, Image(BW, row)), k);
    TurnedFrom(LR, EntriesAt(loops, Image(LR, row)), k);
    TurnedFrom(LRBW, EntriesAt(loops, Image(LRBW, row)), k);
    g := if Carries(loops, row, LRBW, k, v) then LRBW else if Carries(loops, row, LR, k, v) then LR
         else if Carries(loops, row, BW, k, v) then BW else ID;
  }

  // If one image carries verdicts, the others looked for do not.
  lemma OtherImages(loops: Verdicts, path: seq<Pos>, row: Pos, g: Mirror)
    requires OnPath(loops, path) && Unrelated(path) && Image(g, row) in loops
    requires g.swapFiles ==> Image(LR, row) != row
    ensures forall h: Mirror :: h != g && (h.swapFiles ==> Image(LR, row) != row) ==> Image(h, row) !in loops
  {
    hide Image;
    forall h: Mirror | h != g && (h.swapFiles ==> Image(LR, row) != row) && Image(h, row) in loops
      ensures false
    {
      RelatedSymmetric(Image(g, row), row);
      RelatedSymmetric(Image(h, row), row);
      assert Related(row, Image(g, row)) && Related(row, Image(h, row));
      OneCarrier(loops, path, row, Image(g, row), Image(h, row));
      ImagesDiffer(row, g, h);
    }
  }

  lemma ImagesDiffer(row: Pos, g: Mirror, h: Mirror)
    requires g != h && Image(g, row) == Image(h, row)
    ensures Image(LR, row) == row && g.swapFiles != h.swapFiles
  {
    assert SideOf(g, row.turn) == SideOf(h, row.turn);
    assert g.swapSides == h.swapSides;
    hide Image;
    GroupLaws(g, g, row);
    ImagesCompose(g, h, row);
    assert Then(g, h) == LR;
  }

  // One verdict more hangs on a move, the others as before.
  ghost predicate Hangs(was: Verdicts, now: Verdicts, p: Pos, k: string, v: int) {
    && k in EntriesAt(now, p) && EntriesAt(now, p)[k] == v
    && (forall q :: q != p ==> EntriesAt(now, q) == EntriesAt(was, q))
    && (forall x :: x != k ==> (x in EntriesAt(now, p) <==> x in EntriesAt(was, p)))
    && (forall x :: x != k && x in EntriesAt(was, p) ==> EntriesAt(now, p)[x] == EntriesAt(was, p)[x])
  }

  // A verdict on a loop hangs on its first move.
  function Judged(loops: Verdicts, book: Book, start: Pos, line: seq<string>): Verdicts {
    if line != [] && book.rule(start, line) > 0
    then loops[start := EntriesAt(loops, start)[line[0] := book.rule(start, line)]] else loops
  }

  // ---- what verdicts do to scores ----

  ghost predicate IsMax(moves: Scores, b: int) {
    (exists k :: k in moves && moves[k] == b) && forall k :: k in moves ==> moves[k] <= b
  }

  method MaxScore(moves: Scores) returns (b: int)
    requires moves != map[]
    ensures IsMax(moves, b)
  {
    var left := moves.Keys;
    var first :| first in left;
    b := moves[first];
    while left != {}
      invariant left <= moves.Keys && (exists k :: k in moves && moves[k] == b)
      invariant forall k :: k in moves && k !in left ==> moves[k] <= b
      decreases left
    {
      var k :| k in left;
      if moves[k] > b {
        b := moves[k];
      }
      left := left - {k};
    }
  }

  predicate Drawing(info: map<string, int>, k: string) { k in info && info[k] == 1 }

  predicate Banned(info: map<string, int>, k: string) { k in info && info[k] == 2 }

  predicate OpponentBanned(info: map<string, int>, k: string) { k in info && info[k] == 3 }

  // Within a loop, a drawing move that scores best is set to 0.
  ghost predicate DrawsSettled(moves: Scores, info: map<string, int>, out: Scores) {
    out.Keys == moves.Keys
    && forall k :: k in moves ==> out[k] == if Drawing(info, k) && IsMax(moves, moves[k]) then 0 else moves[k]
  }

  // A banned move is given the best score of the permitted ones, if there are any.
  ghost predicate BansSettled(moves: Scores, info: map<string, int>, out: Scores) {
    && out.Keys == moves.Keys
    && (forall k :: k in moves && !Banned(info, k) ==> out[k] == moves[k])
    && (forall k :: k in moves && Banned(info, k) ==>
          if exists x :: x in moves && !Banned(info, x) then IsMax(Permitted(moves, info), out[k])
            else out[k] == moves[k])
  }

  function Permitted(moves: Scores, info: map<string, int>): Scores {
    map k | k in moves && !Banned(info, k) :: moves[k]
  }

  lemma AllBanned(moves: Scores, info: map<string, int>)
    requires Permitted(moves, info) == map[]
    ensures forall k :: k in moves ==> Banned(info, k)
  {
    forall k | k in moves
      ensures Banned(info, k)
    {
      assert k in Permitted(moves, info) <==> !Banned(info, k);
    }
  }

  method SettleDraws(moves: Scores, info: map<string, int>, isLoop: bool) returns (out: Scores)
    ensures if isLoop then DrawsSettled(moves, info, out) else out == moves
  {
    out := moves;
    if isLoop && moves != map[] {
      var best := MaxScore(moves);
      out := map k | k in moves :: if Drawing(info, k) && moves[k] == best then 0 else moves[k];
    }
  }

  method SettleBans(moves: Scores, info: map<string, int>, isLoop: bool) returns (out: Scores, check: Option<int>)
    ensures if isLoop then BansSettled(moves, info, out) else out == moves
    ensures check == CheckOf(moves.Keys, info)
  {
    out, check := moves, None;
    var permitted := Permitted(moves, info);
    if exists k :: k in info && Banned(info, k) {
      if permitted != map[] {
        ghost var some :| some in permitted;
        assert some in moves && !Banned(info, some);
        if isLoop {
          var best := MaxScore(permitted);
          out := map k | k in moves :: if Banned(info, k) then best else moves[k];
        }
      } else {
        AllBanned(moves, info);
        check := Some(3);
      }
    }
    if exists k :: k in info && OpponentBanned(info, k) {
      check := Some(2);
    }
  }

  // What goes up to the move that led here.
  ghost function CheckOf(keys: set<string>, info: map<string, int>): Option<int> {
    if exists k :: OpponentBanned(info, k) then Some(2)
    else if (exists k :: Banned(info, k)) && forall k :: k in keys ==> Banned(info, k) then Some(3)
    else None
  }

  // The scores once the verdicts on the position are taken into account.
  ghost predicate Settled(known: Scores, info: map<string, int>, isLoop: bool, moves: Scores, check: Option<int>) {
    if info == map[] then moves == known && check == None
    else
      && check == CheckOf(known.Keys, info)
      && if isLoop then exists mid :: DrawsSettled(known, info, mid) && BansSettled(mid, info, moves)
        else moves == known
  }

  method Settle(known: Scores, info: map<string, int>, isLoop: bool) returns (moves: Scores, check: Option<int>)
    requires info != map[]
    ensures Settled(known, info, isLoop, moves, check)
  {
    hide Banned, OpponentBanned, CheckOf;
    moves := SettleDraws(known, info, isLoop);
    ghost var mid := moves;
    moves, check := SettleBans(moves, info, isLoop);
    assert mid.Keys == known.Keys;
  }

  // The settled scores as a function.
  ghost function MaxOf(moves: Scores): int {
    if exists b :: IsMax(moves, b) then var b :| IsMax(moves, b); b else 0
  }

  ghost function DrawnScores(moves: Scores, info: map<string, int>): Scores {
    map k | k in moves :: if Drawing(info, k) && IsMax(moves, moves[k]) then 0 else moves[k]
  }

  ghost function BannedScores(moves: Scores, info: map<string, int>): Scores {
    map k | k in moves ::
      if Banned(info, k) && Permitted(moves, info) != map[] then MaxOf(Permitted(moves, info)) else moves[k]
  }

  ghost function SettledScores(known: Scores, info: map<string, int>): Scores {
    BannedScores(DrawnScores(known, info), info)
  }

  lemma MaxUnique(moves: Scores, b: int)
    requires IsMax(moves, b)
    ensures MaxOf(moves) == b
  {
    var c := MaxOf(moves);
    var k :| k in moves && moves[k] == b;
    var x :| x in moves && moves[x] == c;
  }

  lemma BannedIs(moves: Scores, info: map<string, int>, out: Scores)
    requires BansSettled(moves, info, out)
    ensures out == BannedScores(moves, info)
  {
    hide IsMax, Banned;
    var p := Permitted(moves, info);
    assert p != map[] <==> exists x :: x in moves && !Banned(info, x) by {
      if x :| x in moves && !Banned(info, x) {
        assert x in p;
      }
      if p != map[] {
        var x :| x in p;
      }
    }
    forall k | k in moves && Banned(info, k) && p != map[]
      ensures out[k] == MaxOf(p)
    {
      MaxUnique(p, out[k]);
    }
  }

  lemma SettledIs(known: Scores, info: map<string, int>, isLoop: bool, moves: Scores, check: Option<int>)
    requires Settled(known, info, isLoop, moves, check)
    ensures moves == (if isLoop then SettledScores(known, info) else known) && check == CheckOf(known.Keys, info)
  {
    hide IsMax, BannedScores, DrawnScores, DrawsSettled, BansSettled;
    if info == map[] {
      NothingSettled(known);
    } else if isLoop {
      var mid :| DrawsSettled(known, info, mid) && BansSettled(mid, info, moves);
      DrawnIs(known, info, mid);
      BannedIs(mid, info, moves);
    }
  }

  lemma NothingSettled(known: Scores)
    ensures SettledScores(known, map[]) == known && CheckOf(known.Keys, map[]) == None
  {
    assert DrawnScores(known, map[]) == known;
  }

  lemma DrawnIs(moves: Scores, info: map<string, int>, out: Scores)
    requires DrawsSettled(moves, info, out)
    ensures out == DrawnScores(moves, info)
  {
  }

  // ---- what that means, in the numbers of the verdicts ----

  // Whom a verdict on a move of side c bans: 2 the side that makes it, 3 the other.
  function Bans(c: Side, v: int): Option<Side> {
    if v == 2 then Some(c) else if v == 3 then Some(c.Other()) else None
  }

  ghost predicate BannedHere(info: map<string, int>, c: Side, who: Side, k: string) {
    k in info && Bans(c, info[k]) == Some(who)
  }

  // The move that led here was the other side's. What goes up to it bans the same side as here: that other side if
  // a verdict bans it, else the side to move if all its moves are banned.
  lemma SameSideGoesUp(keys: set<string>, info: map<string, int>, c: Side)
    ensures var check := CheckOf(keys, info);
      (if check.Some? then Bans(c.Other(), check.value) else None) ==
        if exists k :: BannedHere(info, c, c.Other(), k) then Some(c.Other())
        else if (exists k :: BannedHere(info, c, c, k)) && forall k :: k in keys ==>
          BannedHere(info, c, c, k) then Some(c)
        else None
  {
    forall k
      ensures BannedHere(info, c, c, k) <==> Banned(info, k)
      ensures BannedHere(info, c, c.Other(), k) <==> OpponentBanned(info, k)
    {
    }
    hide BannedHere, Banned, OpponentBanned;
  }

  // The score of a move once draws are settled: 0 if its verdict is 1 and no other scores better.
  ghost function Drawn(known: Scores, info: map<string, int>, k: string): int
    requires k in known
  {
    if k in info && info[k] == 1 && (forall x :: x in known ==> known[x] <= known[k]) then 0 else known[k]
  }

  ghost predicate FreeMove(known: Scores, info: map<string, int>, x: string) {
    x in known && !(x in info && info[x] == 2)
  }

  // A move with verdict 2 gets the best score of the moves without one, if there are any.
  lemma SettledValues(known: Scores, info: map<string, int>, k: string)
    requires k in known
    ensures k in SettledScores(known, info)
    ensures var v := SettledScores(known, info)[k];
      if !FreeMove(known, info, k) && exists x :: FreeMove(known, info, x) then
        (exists x :: FreeMove(known, info, x) && v == Drawn(known, info, x)) &&
          forall x :: FreeMove(known, info, x) ==> Drawn(known, info, x) <= v
      else v == Drawn(known, info, k)
  {
    hide IsMax;
    var mid := DrawnScores(known, info);
    DrawnValues(known, info);
    if !FreeMove(known, info, k) && exists x :: FreeMove(known, info, x) {
      var p := Permitted(mid, info);
      var x :| FreeMove(known, info, x);
      assert x in p;
      PermittedValues(known, info, mid, p);
    } else {
      NonePermitted(known, info, mid);
    }
  }

  lemma NonePermitted(known: Scores, info: map<string, int>, mid: Scores)
    requires mid.Keys == known.Keys
    ensures (exists x :: FreeMove(known, info, x)) <==> Permitted(mid, info) != map[]
    ensures forall k :: k in known ==> (FreeMove(known, info, k) <==> !Banned(info, k))
  {
    var p := Permitted(mid, info);
    forall k | k in known
      ensures FreeMove(known, info, k) <==> k in p
    {
    }
    if p != map[] {
      var x :| x in p;
    }
  }

  lemma DrawnValues(known: Scores, info: map<string, int>)
    ensures DrawnScores(known, info).Keys == known.Keys
    ensures forall k :: k in known ==> DrawnScores(known, info)[k] == Drawn(known, info, k)
  {
  }

  lemma PermittedValues(known: Scores, info: map<string, int>, mid: Scores, p: Scores)
    requires mid.Keys == known.Keys && forall k :: k in known ==> mid[k] == Drawn(known, info, k)
    requires p == Permitted(mid, info) && p != map[]
    ensures exists x :: FreeMove(known, info, x) && MaxOf(p) == Drawn(known, info, x)
    ensures forall x :: FreeMove(known, info, x) ==> Drawn(known, info, x) <= MaxOf(p)
  {
    hide Drawn, MaxOf;
    MaxThere(p);
    var b := MaxOf(p);
    forall x
      ensures x in p <==> FreeMove(known, info, x)
    {
    }
    var x :| x in p && p[x] == b;
    assert FreeMove(known, info, x) && b == Drawn(known, info, x);
    forall y | FreeMove(known, info, y)
      ensures Drawn(known, info, y) <= b
    {
      assert p[y] <= b;
    }
  }

  lemma {:induction false} MaxThere(moves: Scores)
    requires moves != map[]
    ensures IsMax(moves, MaxOf(moves))
    decreases |moves|
  {
    var k :| k in moves;
    var rest := moves - {k};
    if rest == map[] {
      forall x | x in moves
        ensures x == k
      {
        assert x != k ==> x in rest;
      }
      assert IsMax(moves, moves[k]);
    } else {
      MaxThere(rest);
      var b := MaxOf(rest);
      var x :| x in rest && rest[x] == b;
      assert IsMax(moves, if moves[k] > b then moves[k] else b) by {
        assert moves[x] == b;
        assert forall y :: y in moves && y != k ==> y in rest;
      }
    }
  }

  // ---- small facts about the tables ----

  lemma NothingToSettle(moves: Scores, isLoop: bool)
    ensures Settled(moves, map[], isLoop, moves, None)
  {
  }

  lemma OnceMore(path: seq<Pos>, row: Pos, j: nat)
    requires j < |path| && Related(path[j], row)
    ensures !Apart(path, row)
  {
  }

  lemma PathLonger(loops: Verdicts, path: seq<Pos>, row: Pos)
    requires OnPath(loops, path)
    ensures OnPath(loops, path + [row])
  {
  }

  lemma PathHolds(history: Table, book: Book, path: seq<Pos>, row: Pos)
    requires Chained(history, book, path, row)
    ensures forall p :: p in history <==> p in path
  {
  }

  lemma VerdictHangs(loops: Verdicts, path: seq<Pos>, p: Pos, key: string, v: int)
    requires OnPath(loops, path) && p in path && |key| <= 4
    ensures OnPath(loops[p := EntriesAt(loops, p)[key := v]], path)
  {
    var entries := EntriesAt(loops, p)[key := v];
    assert key in entries;
    forall k | k in entries
      ensures |k| <= 4
    {
      if k != key {
        assert ShortKeys(loops[p]);
      }
    }
  }

  lemma NoneHere(loops: Verdicts, path: seq<Pos>, row: Pos)
    requires OnPath(loops, path + [row]) && row !in loops
    ensures OnPath(loops, path)
  {
  }

  lemma ForgetsNothing(loops: Verdicts, path: seq<Pos>, row: Pos, g: Mirror)
    requires OnPath(loops, path + [row]) && Apart(path, row) && row !in loops
    ensures loops - {Image(g, row)} == loops
  {
    hide Image;
    var p := Image(g, row);
    if p in loops {
      var i :| 0 <= i < |path| && path[i] == p;
      assert Related(row, p);
      RelatedSymmetric(row, p);
    }
  }
}
