// The score store: one record per orbit of the mirror group, kept under the
// least key of the orbit, with moves renamed on the way in and out.
module Store {
  import opened Options
  import opened Geometry
  import opened Symmetry
  import opened MoveText
  import opened Fen
  import opened FenMirror
  import opened HexKey

  // Where a position is stored: the key, which image has it, and whether the
  // position differs from its left-right mirror.
  datatype Spot = Spot(key: string, index: nat, hasLR: bool)

  // Four images are listed, or two when the position is its own mirror.
  type Place = s: Spot | s.index < (if s.hasLR then 4 else 2) witness Spot("", 0, true)

  datatype Entry = Entry(move: string, score: int)

  // The images in the order in which their keys are listed.
  function MirrorAt(i: nat): Mirror {
    if i == 0 then ID else if i == 1 then BW else if i == 2 then LR else LRBW
  }

  function KeysOf(p: Pos): (keys: seq<string>)
    ensures keys != []
  {
    if Image(LR, p) != p then [KeyOf(p), KeyOf(Image(BW, p)), KeyOf(Image(LR, p)), KeyOf(Image(LRBW, p))]
    else [KeyOf(p), KeyOf(Image(BW, p))]
  }

  ghost predicate AtMost(k: string, keys: seq<string>) {
    forall j :: 0 <= j < |keys| ==> !Less(keys[j], k)
  }

  // Sorting the keys and taking the first: the least key and its index.
  function LeastIndex(keys: seq<string>): (i: nat)
    requires keys != []
    ensures i < |keys| && AtMost(keys[i], keys)
  {
    LessTotal(keys[0], keys[0]);
    if |keys| == 1 then 0
    else
      var n := |keys| - 1;
      var i := LeastIndex(keys[..n]);
      LeastOfMore(keys, i);
      if Less(keys[n], keys[i]) then n else i
  }

  lemma LeastOfMore(keys: seq<string>, i: nat)
    requires |keys| > 1 && i < |keys| - 1 && AtMost(keys[i], keys[..|keys| - 1])
    ensures AtMost(if Less(keys[|keys| - 1], keys[i]) then keys[|keys| - 1] else keys[i], keys)
  {
    var n := |keys| - 1;
    LessTotal(keys[n], keys[n]);
    forall j | 0 <= j < n
      ensures !Less(keys[j], keys[i]) && !(Less(keys[n], keys[i]) && Less(keys[j], keys[n]))
    {
      assert keys[..n][j] == keys[j];
      if Less(keys[n], keys[i]) && Less(keys[j], keys[n]) {
        LessTransitive(keys[j], keys[n], keys[i]);
      }
    }
  }

  function PlaceOf(p: Pos): Place {
    var i := LeastIndex(KeysOf(p));
    Spot(KeysOf(p)[i], i, Image(LR, p) != p)
  }

  // A square's name points at its cell in the text: the letter counts columns from the left,
  // the digit ranks from below.
  lemma NamedCell(p: Pos, s: int)
    requires OnBoard(s)
    ensures FenOf(p) == Text(RowList(p.board), TurnChar(p.turn)) && |SquareText(s)| == 2
    ensures var x, y := SquareText(s)[0] as int - 'a' as int, '9' as int - SquareText(s)[1] as int;
      && 0 <= x < 9 && 0 <= y < 10
      && |CellsOf(RowList(p.board)[y])| == 9 && CellsOf(RowList(p.board)[y])[x] == p.board[s]
  {
    hide CellsOf, RunText;
    FenIsText(p);
    var cells := RowCells(p.board, Rank(s));
    CellsBack(cells, 0);
    assert Empties(0) + cells == cells;
  }

  method KeyOfFen(fen: string, ghost p: Pos) returns (key: string)
    requires fen == FenOf(p)
    ensures key == KeyOf(p)
  {
    hide Join, RowList, HexOf;
    FenIsText(p);
    RowsPlain(p.board);
    BoardRanks(p.board);
    key := Encode(fen, RowList(p.board), TurnChar(p.turn));
  }

  lemma FenInjective(p: Pos, q: Pos)
    requires FenOf(p) == FenOf(q)
    ensures p == q
  {
    hide Join, RowList;
    FenIsText(p);
    FenIsText(q);
    RowsPlain(p.board);
    RowsPlain(q.board);
    TextsDiffer(RowList(p.board), RowList(q.board), TurnChar(p.turn), TurnChar(q.turn));
    RowListsDiffer(p.board, q.board);
  }

  // From the text of a position to its place: mirror the text, code the images,
  // take the least.
  method Locate(row: string, ghost p: Pos) returns (place: Place)
    requires row == FenOf(p)
    ensures place == PlaceOf(p)
    ensures place.key == KeyOf(Image(MirrorAt(place.index), p)) && (place.hasLR <==> Image(LR, p) != p)
    ensures forall g: Mirror :: NotAfter(place.key, KeyOf(Image(g, p)))
  {
    hide FenOf, KeyOf, Image, LeastIndex, NotAfter;
    LeastOfOrbit(p, ID);
    forall g: Mirror
      ensures NotAfter(PlaceOf(p).key, KeyOf(Image(g, p)))
    {
      LeastOfOrbit(p, g);
    }
    var lrFen := LRFen(row, p);
    var bwFen := BWFen(row, false, p);
    var hasLR := row != lrFen;
    if Image(LR, p) != p && FenOf(Image(LR, p)) == FenOf(p) {
      FenInjective(Image(LR, p), p);
    }
    var key, bwKey := "", "";
    key := KeyOfFen(row, p);
    bwKey := KeyOfFen(bwFen, Image(BW, p));
    var keys := [key, bwKey];
    if hasLR {
      GroupLaws(LR, BW, p);
      var lrbwFen := LRFen(bwFen, Image(BW, p));
      var lrKey := KeyOfFen(lrFen, Image(LR, p));
      var lrbwKey := KeyOfFen(lrbwFen, Image(LRBW, p));
      keys := [key, bwKey, lrKey, lrbwKey];
    }
    var i := LeastIndex(keys);
    assert keys == KeysOf(p);
    place := Spot(keys[i], i, hasLR);
  }

  // ---- one place for each orbit ----

  lemma KeyAt(p: Pos, i: nat)
    requires i < |KeysOf(p)|
    ensures KeysOf(p)[i] == KeyOf(Image(MirrorAt(i), p))
  {
    hide KeyOf, Image;
    GroupLaws(ID, ID, p);
  }

  lemma KeyListed(p: Pos, g: Mirror) returns (i: nat)
    ensures i < |KeysOf(p)| && KeyOf(Image(g, p)) == KeysOf(p)[i]
    ensures g == MirrorAt(i) || (Image(LR, p) == p && g == Then(LR, MirrorAt(i)))
  {
    hide KeyOf, Image;
    GroupLaws(BW, LR, p);
    GroupLaws(LR, LR, p);
    i := if g.swapSides then 1 else 0;
    if g.swapFiles {
      if Image(LR, p) != p {
        i := i + 2;
      }
    }
  }

  // The key of an orbit is at most that of every member, and is that of one.
  lemma LeastOfOrbit(p: Pos, g: Mirror)
    ensures PlaceOf(p).key == KeyOf(Image(MirrorAt(PlaceOf(p).index), p))
    ensures NotAfter(PlaceOf(p).key, KeyOf(Image(g, p)))
  {
    hide KeyOf, Image, KeysOf, Less, LeastIndex, NotAfter;
    var keys := KeysOf(p);
    var i := LeastIndex(keys);
    KeyAt(p, i);
    var j := KeyListed(p, g);
    assert AtMost(keys[i], keys);
    NotLess(keys[j], keys[i]);
  }

  lemma OneLeast(a: string, b: string)
    requires NotAfter(a, b) && NotAfter(b, a)
    ensures a == b
  {
    hide Less, Precedes;
    LessTotal(a, b);
    LessIs(a, b);
    LessIs(b, a);
  }

  lemma SymmetryOfImage(p: Pos, g: Mirror)
    ensures Image(LR, Image(g, p)) == Image(g, p) <==> Image(LR, p) == p
  {
    hide BoardOf;
    GroupLaws(LR, g, p);
    GroupLaws(g, g, p);
    GroupLaws(g, g, Image(LR, p));
    hide Image;
  }

  // All images of a position are stored at one key.
  lemma SamePlace(p: Pos, g: Mirror)
    ensures PlaceOf(Image(g, p)).key == PlaceOf(p).key
    ensures PlaceOf(Image(g, p)).hasLR == PlaceOf(p).hasLR
  {
    hide KeyOf, Image, KeysOf, Less, LeastIndex, NotAfter;
    var q := Image(g, p);
    SymmetryOfImage(p, g);
    var i, j := PlaceOf(p).index, PlaceOf(q).index;
    ImagesCompose(MirrorAt(j), g, p);
    ImagesCompose(MirrorAt(i), g, q);
    GroupLaws(g, g, p);
    LeastOfOrbit(p, Then(MirrorAt(j), g));
    LeastOfOrbit(q, Then(MirrorAt(i), g));
    OneLeast(PlaceOf(p).key, PlaceOf(q).key);
  }

  // Positions stored at one key are images of one another.
  lemma OneOrbit(p: Pos, q: Pos) returns (g: Mirror)
    requires PlaceOf(p).key == PlaceOf(q).key
    ensures q == Image(g, p)
  {
    hide KeyOf, Image, KeysOf, Less, LeastIndex, PlaceOf;
    var i, j := MirrorAt(PlaceOf(p).index), MirrorAt(PlaceOf(q).index);
    LeastOfOrbit(p, ID);
    LeastOfOrbit(q, ID);
    KeyInjective(Image(i, p), Image(j, q));
    GroupLaws(j, j, q);
    ImagesCompose(j, i, p);
    g := Then(j, i);
  }

  // ---- renaming moves ----

  // The four-character limit of the extension applies to moves it mirrors.
  function Moved(g: Mirror, m: string): string {
    if g == ID then m else MirrorText(g, if |m| > 4 then m[..4] else m)
  }

  // The field of a move, and the move of a field: both directions rename alike.
  function Renamed(place: Place, m: string): string {
    var g := MirrorAt(place.index);
    if place.hasLR then Moved(g, m) else Least(Moved(g, m), Moved(Then(LR, g), m))
  }

  lemma MovedIsMirror(g: Mirror, m: string)
    requires |m| <= 4
    ensures Moved(g, m) == MirrorText(g, m) && |Moved(g, m)| == |m|
  {
    TextsCompose(g, ID, m);
  }

  lemma Stabiliser(h: Mirror, p: Pos)
    requires Image(h, p) == p
    ensures h == ID || (h == LR && Image(LR, p) == p)
  {
  }

  // Every image of a position gives a move the same field.
  lemma FieldsAgree(p: Pos, g: Mirror, m: string)
    requires |m| <= 4
    ensures Renamed(PlaceOf(Image(g, p)), MirrorText(g, m)) == Renamed(PlaceOf(p), m)
  {
    hide KeyOf, Image, KeysOf, Less, LeastIndex, PlaceOf, MirrorText, Moved;
    var q := Image(g, p);
    var i, j := MirrorAt(PlaceOf(p).index), MirrorAt(PlaceOf(q).index);
    assert PlaceOf(p).hasLR == (Image(LR, p) != p) && PlaceOf(q).hasLR == PlaceOf(p).hasLR by {
      SamePlace(p, g);
      PlaceLR(p);
    }
    assert Then(j, g) == i || (Image(LR, p) == p && Then(j, g) == Then(LR, i)) by {
      SamePlace(p, g);
      LeastOfOrbit(p, ID);
      LeastOfOrbit(q, ID);
      KeyInjective(Image(i, p), Image(j, q));
      ImagesCompose(j, g, p);
      ImagesCompose(i, Then(j, g), p);
      GroupLaws(i, i, p);
      Stabiliser(Then(i, Then(j, g)), p);
    }
    RenamedTwice(j, g, m);
    RenamedTwice(Then(LR, j), g, m);
    LeastSwaps(Moved(i, m), Moved(Then(LR, i), m));
    assert Then(LR, Then(LR, i)) == i;
    assert Then(Then(LR, j), g) == Then(LR, Then(j, g));
  }

  lemma PlaceLR(p: Pos)
    ensures PlaceOf(p).hasLR == (Image(LR, p) != p)
  {
  }

  lemma RenamedTwice(g: Mirror, h: Mirror, m: string)
    requires |m| <= 4
    ensures |MirrorText(h, m)| <= 4 && Moved(g, MirrorText(h, m)) == Moved(Then(g, h), m)
  {
    MovedIsMirror(h, m);
    MovedIsMirror(g, MirrorText(h, m));
    MovedIsMirror(Then(g, h), m);
    TextsCompose(g, h, m);
  }

  // The name of a move in the results: on a board equal to its left-right
  // mirror a move and its mirror are one move, named by the lesser text.
  function NameOf(hasLR: bool, m: string): string { if hasLR then m else Least(m, MirrorText(LR, m)) }

  // Renaming a field gives back the name of the move written there.
  lemma NamesBack(place: Place, m: string)
    requires |m| <= 4
    ensures |Renamed(place, m)| <= 4 && Renamed(place, Renamed(place, m)) == NameOf(place.hasLR, m)
    ensures place.hasLR ==> Renamed(place, Renamed(place, m)) == m
    ensures !place.hasLR ==> Lesser(Renamed(place, Renamed(place, m)), m, MirrorText(LR, m))
  {
    LeastIs(m, MirrorText(LR, m));
    hide Lesser;
    hide MirrorText, Less, Moved;
    var g := MirrorAt(place.index);
    var h := Then(LR, g);
    MovedIsMirror(g, m);
    MovedIsMirror(h, m);
    RenamedTwice(g, g, m);
    RenamedTwice(h, g, m);
    RenamedTwice(g, h, m);
    RenamedTwice(h, h, m);
    MovedIsMirror(ID, m);
    MovedIsMirror(LR, m);
    TextsCompose(ID, ID, m);
    LeastSwaps(m, MirrorText(LR, m));
  }

  // Two moves share a field exactly when they share a name.
  lemma FieldsDiffer(place: Place, m: string, n: string)
    requires |m| <= 4 && |n| <= 4
    ensures Renamed(place, m) == Renamed(place, n) <==> NameOf(place.hasLR, m) == NameOf(place.hasLR, n)
  {
    NamesBack(place, m);
    NamesBack(place, n);
    NameSuffices(place, m);
    NameSuffices(place, n);
  }

  lemma NameSuffices(place: Place, m: string)
    requires |m| <= 4
    ensures Renamed(place, NameOf(place.hasLR, m)) == Renamed(place, m)
  {
    hide MirrorText, Less, Moved;
    var g := MirrorAt(place.index);
    var h := Then(LR, g);
    RenamedTwice(g, LR, m);
    RenamedTwice(h, LR, m);
    LeastSwaps(Moved(g, m), Moved(h, m));
    assert Then(g, LR) == h && Then(h, LR) == g;
  }

  // The field 'a0a0' names no move of a piece: the two squares of a move differ.
  lemma ReservedField(place: Place, f: int, t: int)
    requires OnBoard(f) && OnBoard(t) && f != t
    ensures Renamed(place, TextOf(f, t)) != "a0a0" && NameOf(place.hasLR, TextOf(f, t)) != "ply"
  {
    hide SqOf, Less, SquareText, Moved;
    var g := MirrorAt(place.index);
    NotReserved(g, f, t);
    NotReserved(Then(LR, g), f, t);
    TextMirrors(LR, f, t);
    FourLetters(f, t);
    FourLetters(SqOf(LR, f), SqOf(LR, t));
  }

  lemma FourLetters(f: int, t: int)
    requires OnBoard(f) && OnBoard(t)
    ensures |TextOf(f, t)| == 4
  {
  }

  lemma NotReserved(g: Mirror, f: int, t: int)
    requires OnBoard(f) && OnBoard(t) && f != t
    ensures Moved(g, TextOf(f, t)) != "a0a0"
  {
    hide SqOf, MirrorText;
    FourLetters(f, t);
    MovedIsMirror(g, TextOf(f, t));
    TextMirrors(g, f, t);
    SqMoves(g, f);
    SqMoves(g, t);
    assert "a0a0" == TextOf(8, 8);
    if TextOf(SqOf(g, f), SqOf(g, t)) == TextOf(8, 8) {
      TextInjective(SqOf(g, f), SqOf(g, t), 8, 8);
    }
  }

  // ---- the records ----

  type Doc = map<string, int>

  type Db = map<string, Doc>

  function DocAt(db: Db, key: string): Doc { if key in db then db[key] else map[] }

  // What the store holds for a move of a position.
  function Score(db: Db, p: Pos, m: string): Option<int> {
    var doc, f := DocAt(db, PlaceOf(p).key), Renamed(PlaceOf(p), m);
    if f in doc then Some(doc[f]) else None
  }

  ghost predicate IsMove(m: string) { exists f, t :: OnBoard(f) && OnBoard(t) && f != t && m == TextOf(f, t) }

  ghost predicate IsField(place: Place, f: string) { f == "a0a0" || exists m :: IsMove(m) && f == Renamed(place, m) }

  // Every record holds fields of moves, and perhaps the reserved one.
  ghost predicate Clean(db: Db) {
    forall p: Pos, f: string :: f in DocAt(db, PlaceOf(p).key) ==> IsField(PlaceOf(p), f)
  }

  function Fields(place: Place, updates: seq<Entry>): Doc {
    if updates == [] then map[]
    else
      var last := updates[|updates| - 1];
      Fields(place, updates[..|updates| - 1])[Renamed(place, last.move) := last.score]
  }

  function Merged(db: Db, key: string, fields: Doc): Db {
    if fields == map[] then db else db[key := DocAt(db, key) + fields]
  }

  method Rename(place: Place, m: string) returns (r: string)
    ensures r == Renamed(place, m)
    ensures var g := MirrorAt(place.index);
      if place.hasLR then r == Moved(g, m) else Lesser(r, Moved(g, m), Moved(Then(LR, g), m))
  {
    var g := MirrorAt(place.index);
    r := m;
    if place.index != 0 {
      r := GetMirrorMove(g, m);
    }
    if !place.hasLR {
      var twin := GetMirrorMove(Then(LR, g), m);
      LeastIs(r, twin);
      r := Least(r, twin);
    }
  }

  // How a field reads: its name, its value for the side to move, and whether
  // the score is final.
  function ReadName(place: Place, f: string): string { if f == "a0a0" then "ply" else Renamed(place, f) }

  function ReadValue(f: string, v: int): int { if f == "a0a0" then v else if v == -30001 then 0 else -v }

  predicate Final(f: string, v: int) { f != "a0a0" && Abs(v) >= 30000 }

  ghost predicate Reads(doc: Doc, place: Place, name: string, value: int) {
    exists f :: f in doc && ReadName(place, f) == name && ReadValue(f, doc[f]) == value
  }

  ghost predicate ReadsFinal(doc: Doc, place: Place, name: string) {
    exists f :: f in doc && ReadName(place, f) == name && Final(f, doc[f])
  }

  // Every field is read, and nothing else is.
  ghost predicate ReadFrom(doc: Doc, place: Place, moves: map<string, int>, finals: set<string>) {
    && (forall f :: f in doc ==> ReadName(place, f) in moves)
    && (forall name :: name in moves ==> Reads(doc, place, name, moves[name]))
    && (forall name :: name in finals <==> ReadsFinal(doc, place, name))
  }

  function Without(doc: Doc, f: string): Doc { map x | x in doc && x != f :: doc[x] }

  lemma ReadMore(doc: Doc, f: string, place: Place, moves: map<string, int>, finals: set<string>)
    requires f in doc && ReadFrom(Without(doc, f), place, moves, finals)
    ensures ReadFrom(doc, place, moves[ReadName(place, f) := ReadValue(f, doc[f])],
                     if Final(f, doc[f]) then finals + {ReadName(place, f)} else finals)
  {
    hide ReadName, ReadValue, Final;
    var rest, name, value := Without(doc, f), ReadName(place, f), ReadValue(f, doc[f]);
    var moves' := moves[name := value];
    var finals' := if Final(f, doc[f]) then finals + {name} else finals;
    forall n | n in moves'
      ensures Reads(doc, place, n, moves'[n])
    {
      if n != name {
        assert Reads(rest, place, n, moves[n]);
        var x :| x in rest && ReadName(place, x) == n && ReadValue(x, rest[x]) == moves[n];
        assert x in doc && doc[x] == rest[x];
      }
    }
    forall n
      ensures n in finals' <==> ReadsFinal(doc, place, n)
    {
      if n in finals {
        assert ReadsFinal(rest, place, n);
        var x :| x in rest && ReadName(place, x) == n && Final(x, rest[x]);
        assert x in doc && doc[x] == rest[x];
      }
      if ReadsFinal(doc, place, n) {
        var x :| x in doc && ReadName(place, x) == n && Final(x, doc[x]);
        if x != f {
          assert x in rest && rest[x] == doc[x];
          assert ReadsFinal(rest, place, n);
        }
      }
    }
  }

  class ScoreStore {
    var db: Db

    constructor ()
      ensures db == map[]
    {
      db := map[];
    }

    method ScoreExists(place: Place, move: string) returns (r: bool)
      ensures r == (Renamed(place, move) in DocAt(db, place.key))
    {
      var f := Rename(place, move);
      r := f in DocAt(db, place.key);
    }

    method UpdateScore(place: Place, updates: seq<Entry>)
      modifies this
      ensures db == Merged(old(db), place.key, Fields(place, updates))
    {
      hide Renamed;
      var fields: Doc := map[];
      for i := 0 to |updates|
        invariant fields == Fields(place, updates[..i]) && db == old(db)
      {
        assert updates[..i + 1][..i] == updates[..i];
        var f := Rename(place, updates[i].move);
        fields := fields[f := updates[i].score];
      }
      assert updates[..|updates|] == updates;
      if fields != map[] {
        db := db[place.key := DocAt(db, place.key) + fields];
      }
    }

    // The reserved field of the record holds the packed ply.
    method UpdatePly(place: Place, packed: int)
      modifies this
      ensures db == Merged(old(db), place.key, map["a0a0" := packed])
    {
      db := db[place.key := DocAt(db, place.key) + map["a0a0" := packed]];
      assert "a0a0" in map["a0a0" := packed];
    }

    method GetAllScores(place: Place) returns (moves: map<string, int>, finals: set<string>)
      ensures ReadFrom(DocAt(db, place.key), place, moves, finals)
    {
      hide ReadFrom, Renamed;
      var doc := DocAt(db, place.key);
      var done: Doc, left := map[], doc.Keys;
      moves, finals := map[], {};
      assert ReadFrom(map[], place, map[], {}) by { NothingRead(place); }
      while left != {}
        invariant left <= doc.Keys && done.Keys == doc.Keys - left
        invariant forall f :: f in done ==> done[f] == doc[f]
        invariant ReadFrom(done, place, moves, finals)
        decreases left
      {
        var f :| f in left;
        var item := doc[f];
        assert Without(done[f := item], f) == done;
        ReadMore(done[f := item], f, place, moves, finals);
        done := done[f := item];
        left := left - {f};
        if f == "a0a0" {
          moves := moves["ply" := item];
        } else {
          var name := Rename(place, f);
          if Abs(item) >= 30000 {
            finals := finals + {name};
          }
          moves := moves[name := if item == -30001 then 0 else -item];
        }
      }
      assert done == doc;
    }
  }

  lemma NothingRead(place: Place)
    ensures ReadFrom(map[], place, map[], {})
  {
  }
}
