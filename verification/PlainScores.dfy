// The store refines a plain map from positions and moves to scores.
module PlainScores {
  import opened Geometry
  import opened Symmetry
  import opened MoveText
  import opened Options
  import opened Store

  // The last score that a list of updates gives a move, by its name.
  function LastFor(hasLR: bool, updates: seq<Entry>, m: string): Option<int> {
    if updates == [] then None
    else
      var n := |updates| - 1;
      if NameOf(hasLR, updates[n].move) == NameOf(hasLR, m) then Some(updates[n].score)
      else LastFor(hasLR, updates[..n], m)
  }

  ghost predicate Moves(updates: seq<Entry>) { forall i :: 0 <= i < |updates| ==> IsMove(updates[i].move) }

  function After(db: Db, p: Pos, updates: seq<Entry>): Db {
    Merged(db, PlaceOf(p).key, Fields(PlaceOf(p), updates))
  }

  lemma MoveIsShort(m: string)
    requires IsMove(m)
    ensures |m| == 4
  {
  }

  lemma MirroredMove(g: Mirror, m: string)
    requires IsMove(m)
    ensures IsMove(MirrorText(g, m))
  {
    hide TextOf, SqOf, MirrorText;
    var f, t :| OnBoard(f) && OnBoard(t) && f != t && m == TextOf(f, t);
    TextMirrors(g, f, t);
    SqMoves(g, f);
    SqMoves(g, t);
  }

  lemma {:induction false} FieldsHold(place: Place, updates: seq<Entry>, m: string)
    requires Moves(updates) && |m| <= 4
    ensures LastFor(place.hasLR, updates, m) ==
      if Renamed(place, m) in Fields(place, updates) then Some(Fields(place, updates)[Renamed(place, m)]) else None
  {
    hide Renamed, NameOf, IsMove;
    if updates != [] {
      var n := |updates| - 1;
      MoveIsShort(updates[n].move);
      FieldsDiffer(place, m, updates[n].move);
      FieldsHold(place, updates[..n], m);
    }
  }

  // All images of a position show the same scores at mirrored moves.
  lemma ScoreOfImage(db: Db, p: Pos, g: Mirror, m: string)
    requires |m| <= 4
    ensures Score(db, Image(g, p), MirrorText(g, m)) == Score(db, p, m)
  {
    hide Image, Renamed, PlaceOf, MirrorText;
    SamePlace(p, g);
    FieldsAgree(p, g, m);
  }

  // A score written at a position shows at the mirrored move of every image;
  // moves not written keep their scores.
  lemma WritesShow(db: Db, p: Pos, updates: seq<Entry>, g: Mirror, m: string)
    requires Moves(updates) && |m| <= 4
    ensures var written := LastFor(PlaceOf(p).hasLR, updates, m);
      Score(After(db, p, updates), Image(g, p), MirrorText(g, m)) == if written.Some? then written else Score(db, p, m)
  {
    hide Image, Renamed, PlaceOf, MirrorText, NameOf;
    ScoreOfImage(After(db, p, updates), p, g, m);
    FieldsHold(PlaceOf(p), updates, m);
  }

  // Positions that are not images of the written one are unaffected.
  lemma OthersKeepScores(db: Db, p: Pos, updates: seq<Entry>, q: Pos, m: string)
    requires forall g: Mirror :: q != Image(g, p)
    ensures Score(After(db, p, updates), q, m) == Score(db, q, m)
  {
    hide Image, Renamed, PlaceOf;
    if PlaceOf(q).key == PlaceOf(p).key {
      var g := OneOrbit(p, q);
    }
  }

  // Updates keep the records clean.
  lemma {:induction false} FieldsAreFields(place: Place, updates: seq<Entry>, f: string)
    requires Moves(updates) && f in Fields(place, updates)
    ensures IsField(place, f)
  {
    hide Renamed, IsMove;
    var n := |updates| - 1;
    if f != Renamed(place, updates[n].move) {
      FieldsAreFields(place, updates[..n], f);
    }
  }

  lemma FieldOfImage(p: Pos, g: Mirror, f: string)
    requires IsField(PlaceOf(p), f)
    ensures IsField(PlaceOf(Image(g, p)), f)
  {
    hide Renamed, PlaceOf, IsMove, Image, MirrorText;
    if f != "a0a0" {
      var m :| IsMove(m) && f == Renamed(PlaceOf(p), m);
      MoveIsShort(m);
      MirroredMove(g, m);
      FieldsAgree(p, g, m);
    }
  }

  lemma StaysClean(db: Db, p: Pos, updates: seq<Entry>)
    requires Clean(db) && Moves(updates)
    ensures Clean(After(db, p, updates)) && Clean(map[])
  {
    hide Renamed, PlaceOf, IsMove, Image, IsField;
    forall q: Pos, f: string | f in DocAt(After(db, p, updates), PlaceOf(q).key)
      ensures IsField(PlaceOf(q), f)
    {
      if PlaceOf(q).key == PlaceOf(p).key && f in Fields(PlaceOf(p), updates) {
        FieldsAreFields(PlaceOf(p), updates, f);
        var g := OneOrbit(p, q);
        FieldOfImage(p, g, f);
      } else {
        assert f in DocAt(db, PlaceOf(q).key);
      }
    }
  }

  // ---- reading ----

  lemma OneFieldPerName(place: Place, m: string, f: string)
    requires IsMove(m) && IsField(place, f) && ReadName(place, f) == NameOf(place.hasLR, m)
    ensures f == Renamed(place, m) && f != "a0a0"
  {
    hide Renamed, NameOf, TextOf;
    MoveIsShort(m);
    var a, b :| OnBoard(a) && OnBoard(b) && a != b && m == TextOf(a, b);
    ReservedField(place, a, b);
    var n :| IsMove(n) && f == Renamed(place, n);
    MoveIsShort(n);
    NamesBack(place, n);
    FieldsDiffer(place, m, n);
  }

  lemma FieldReads(place: Place, m: string)
    requires IsMove(m)
    ensures Renamed(place, m) != "a0a0" && ReadName(place, Renamed(place, m)) == NameOf(place.hasLR, m)
  {
    hide Renamed, NameOf, TextOf;
    var a, b :| OnBoard(a) && OnBoard(b) && a != b && m == TextOf(a, b);
    ReservedField(place, a, b);
    MoveIsShort(m);
    NamesBack(place, m);
  }

  // What is read is the plain map, negated: -30001 reads as a final 0.
  lemma ReadsScores(db: Db, p: Pos, moves: map<string, int>, finals: set<string>, m: string)
    requires Clean(db) && IsMove(m) && ReadFrom(DocAt(db, PlaceOf(p).key), PlaceOf(p), moves, finals)
    ensures var name, score := NameOf(PlaceOf(p).hasLR, m), Score(db, p, m);
      if score.None? then name !in moves && name !in finals
      else name in moves && moves[name] == (if score.value == -30001 then 0 else -score.value)
           && (name in finals <==> Abs(score.value) >= 30000)
  {
    hide Renamed, NameOf, PlaceOf, IsMove, ReadName, IsField;
    var place, doc := PlaceOf(p), DocAt(db, PlaceOf(p).key);
    var name, f := NameOf(place.hasLR, m), Renamed(place, m);
    FieldReads(place, m);
    forall x | x in doc && ReadName(place, x) == name
      ensures x == f
    {
      OneFieldPerName(place, m, x);
    }
    if name in moves {
      assert Reads(doc, place, name, moves[name]);
    }
    if f in doc && Final(f, doc[f]) {
      assert ReadsFinal(doc, place, name);
    }
  }

  // Write one score at a position, read it through any image.
  lemma WriteThenRead(db: Db, p: Pos, g: Mirror, m: string, v: int, moves: map<string, int>, finals: set<string>)
    requires Clean(db) && IsMove(m)
    requires var q := Image(g, p);
      ReadFrom(DocAt(After(db, p, [Entry(m, v)]), PlaceOf(q).key), PlaceOf(q), moves, finals)
    ensures var name := NameOf(Image(LR, p) != p, MirrorText(g, m));
      name in moves && moves[name] == (if v == -30001 then 0 else -v) && (name in finals <==> Abs(v) >= 30000)
    ensures forall n :: IsMove(n) && NameOf(Image(LR, p) != p, n) != NameOf(Image(LR, p) != p, m) ==>
                          Score(After(db, p, [Entry(m, v)]), Image(g, p), MirrorText(g, n)) == Score(db, p, n)
  {
    hide Renamed, NameOf, IsMove, ReadName, IsField, ReadFrom, Image, MirrorText, PlaceOf, Fields;
    var updates := [Entry(m, v)];
    assert PlaceOf(p).hasLR == PlaceOf(Image(g, p)).hasLR == (Image(LR, p) != p) by {
      SamePlace(p, g);
      PlaceLR(p);
    }
    MoveIsShort(m);
    StaysClean(db, p, updates);
    WritesShow(db, p, updates, g, m);
    MirroredMove(g, m);
    ReadsScores(After(db, p, updates), Image(g, p), moves, finals, MirrorText(g, m));
    forall n | IsMove(n) && NameOf(Image(LR, p) != p, n) != NameOf(Image(LR, p) != p, m)
      ensures Score(After(db, p, updates), Image(g, p), MirrorText(g, n)) == Score(db, p, n)
    {
      MoveIsShort(n);
      WritesShow(db, p, updates, g, n);
    }
  }

  // Writing the reserved field changes no score, and only that field reads as the ply.
  lemma PlyKeepsScores(db: Db, p: Pos, packed: int, q: Pos, m: string)
    requires Clean(db) && IsMove(m)
    ensures var db' := Merged(db, PlaceOf(p).key, map["a0a0" := packed]);
      Score(db', q, m) == Score(db, q, m) && Clean(db')
  {
    hide Renamed, PlaceOf, IsMove, NameOf;
    FieldReads(PlaceOf(q), m);
    var db' := Merged(db, PlaceOf(p).key, map["a0a0" := packed]);
    forall x: Pos, f: string | f in DocAt(db', PlaceOf(x).key)
      ensures IsField(PlaceOf(x), f)
    {
      if f != "a0a0" {
        assert f in DocAt(db, PlaceOf(x).key);
      }
    }
  }

  lemma PlyReads(db: Db, p: Pos, moves: map<string, int>, finals: set<string>)
    requires Clean(db) && ReadFrom(DocAt(db, PlaceOf(p).key), PlaceOf(p), moves, finals)
    ensures var doc := DocAt(db, PlaceOf(p).key);
      if "a0a0" in doc then "ply" in moves && moves["ply"] == doc["a0a0"] else "ply" !in moves
  {
    hide Renamed, PlaceOf, IsMove, NameOf, IsField;
    var place, doc := PlaceOf(p), DocAt(db, PlaceOf(p).key);
    forall f | f in doc && ReadName(place, f) == "ply"
      ensures f == "a0a0"
    {
      assert IsField(place, f);
      if f != "a0a0" {
        FieldIsNoPly(place, f);
      }
    }
    if "ply" in moves {
      assert Reads(doc, place, "ply", moves["ply"]);
    }
    if "a0a0" in doc {
      assert ReadName(place, "a0a0") in moves;
    }
  }

  lemma FieldIsNoPly(place: Place, f: string)
    requires IsField(place, f) && f != "a0a0"
    ensures ReadName(place, f) != "ply"
  {
    hide Renamed, NameOf, TextOf, MirrorText;
    var m :| IsMove(m) && f == Renamed(place, m);
    FieldReads(place, m);
    var a, b :| OnBoard(a) && OnBoard(b) && a != b && m == TextOf(a, b);
    ReservedField(place, a, b);
  }
}
