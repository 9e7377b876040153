// The book search: a recursion over positions that keeps the line being
// searched, the loop verdicts found and the positions finished in shared tables.
module Search {
  import opened Geometry
  import opened Symmetry
  import opened Options
  import opened Loops

  // Mate scores move one step towards zero on the way up; banned moves go.
  function Aged(moves: Scores, ban: set<string>): Scores {
    map k | k in moves && k !in ban ::
      if moves[k] < -10000 then moves[k] + 1 else if moves[k] > 10000 then moves[k] - 1 else moves[k]
  }

  // Score by score: beyond ten thousand either way it loses one, the others stay.
  ghost predicate AgedTo(v: int, w: int) {
    if -10000 <= v <= 10000 then w == v else Abs(w) == Abs(v) - 1 && (w > 0 <==> v > 0)
  }

  lemma AgedScores(moves: Scores, ban: set<string>)
    ensures Aged(moves, ban).Keys == moves.Keys - ban
    ensures forall k :: k in moves && k !in ban ==> AgedTo(moves[k], Aged(moves, ban)[k])
  {
  }

  // ---- what a search computes ----

  // The tables that outlive a call, the budget used and the time.
  datatype State = State(loops: Verdicts, finished: set<Pos>, counter: nat, clock: nat)

  // How a position is treated: its stored scores are taken as they are, it closes a loop
  // with the j-th position of the line, or its moves are followed one after the other.
  datatype Tree = Stored | Looped(j: nat) | Grown(branches: Branches)

  // The moves followed so far, the last one outermost: a final one, or one with its own search.
  datatype Branches = Unopened | Final(before: Branches) | Followed(before: Branches, tree: Tree)

  // The scores of the moves, the tables, and the verdict passed up.
  datatype Outcome = Outcome(moves: Scores, state: State, check: Option<int>)

  // The position and the moves made on the line that leads to it.
  datatype Node = Node(path: seq<Pos>, made: seq<string>, row: Pos)

  function Down(book: Book, at: Node, key: string): Node {
    Node(at.path + [at.row], at.made + [key], book.make(at.row, key))
  }

  function Size(branches: Branches): nat { if branches.Unopened? then 0 else 1 + Size(branches.before) }

  function KeyAt(keys: seq<string>, i: nat): string { if i < |keys| then keys[i] else "" }

  // The score of a followed move: the negated backed-up score of its replies, or a win if there are none.
  function Scored(book: Book, row: Pos, key: string, moves: Scores, replies: Scores, clock: nat): Scores {
    if replies != map[] then moves[key := -book.backUp(replies, clock)]
    else if book.mated(book.make(row, key)) then moves[key := 30000]
    else moves
  }

  // A verdict passed up hangs on the move that led down.
  function Recorded(loops: Verdicts, row: Pos, key: string, check: Option<int>): Verdicts {
    if check.Some? then loops[row := EntriesAt(loops, row)[key := check.value]] else loops
  }

  lemma RecordedHangs(loops: Verdicts, row: Pos, key: string, v: int)
    ensures Hangs(loops, Recorded(loops, row, key, Some(v)), row, key, v)
  {
  }

  ghost function Ran(book: Book, at: Node, s: State, tree: Tree): Outcome
    decreases tree
  {
    var known := book.known(at.row, s.clock + 1);
    match tree
    case Stored => Outcome(known, s.(clock := s.clock + 1), None)
    case Looped(j) =>
      var loops := if j < |at.path| && j <= |at.made| then Judged(s.loops, book, at.path[j], at.made[j..]) else s.loops;
      var info := InfoOf(loops, at.row);
      Outcome(SettledScores(known, info), s.(loops := loops, clock := s.clock + 1), CheckOf(known.Keys, info))
    case Grown(branches) =>
      var g := Grew(book, at, s.(clock := s.clock + 2), book.follow(at.row, s.clock + 2), known, branches);
      var info := InfoOf(g.state.loops, at.row);
      Outcome(g.moves, if info == map[] then g.state.(finished := g.state.finished + {at.row})
                       else g.state.(loops := g.state.loops - {at.row}), CheckOf(g.moves.Keys, info))
  }

  ghost function Grew(book: Book, at: Node, s: State, keys: seq<string>, known: Scores, branches: Branches): Outcome
    decreases branches
  {
    if branches.Unopened? then Outcome(known, s, None)
    else
      var g := Grew(book, at, s, keys, known, branches.before);
      var key, next := KeyAt(keys, Size(branches.before)), g.state.(counter := g.state.counter + 1);
      if branches.Final? then Outcome(g.moves, next, None)
      else
        var out := Ran(book, Down(book, at, key), next, branches.tree);
        Outcome(Scored(book, at.row, key, g.moves, Aged(out.moves, {}), out.state.clock),
                out.state.(loops := Recorded(out.state.loops, at.row, key, out.check)), None)
  }

  predicate Finished(finished: set<Pos>, row: Pos) {
    || row in finished || Image(BW, row) in finished
    || (Image(LR, row) != row && (Image(LR, row) in finished || Image(LRBW, row) in finished))
  }

  // Finished is finished up to mirrors.
  lemma FinishedIs(finished: set<Pos>, row: Pos)
    ensures Finished(finished, row) <==> exists p :: p in finished && Related(row, p)
  {
    hide Image;
    GroupLaws(BW, LR, row);
    if p :| p in finished && Related(row, p) {
      var g: Mirror :| p == Image(g, row);
      assert g == ID || g == BW || g == LR || g == LRBW;
      if Image(LR, row) == row && g == LRBW {
        assert p == Image(BW, row);
      }
    }
    assert row in finished ==> Related(row, row) by {
      RelatedReflexive(row);
    }
    assert Related(row, Image(BW, row)) && Related(row, Image(LR, row)) && Related(row, Image(LRBW, row));
  }

  // The tree is the one the search goes through: it stops when the budget is used up or the
  // position is finished, closes a loop with an image on the line, and else follows all moves.
  ghost predicate Fits(book: Book, limit: nat, at: Node, s: State, tree: Tree)
    decreases tree
  {
    var stop := s.counter >= limit || Finished(s.finished, at.row);
    var keys := book.follow(at.row, s.clock + 2);
    match tree
    case Stored => stop
    case Looped(j) => !stop && j < |at.path| && Related(at.path[j], at.row)
    case Grown(branches) =>
      && !stop && Apart(at.path, at.row) && Size(branches) == |keys|
      && FitsAll(book, limit, at, s.(clock := s.clock + 2), keys, book.known(at.row, s.clock + 1), branches)
  }

  ghost predicate FitsAll(book: Book, limit: nat, at: Node, s: State, keys: seq<string>, known: Scores,
                          branches: Branches)
    decreases branches
  {
    branches.Unopened? ||
    (var g := Grew(book, at, s, keys, known, branches.before);
     var key := KeyAt(keys, Size(branches.before));
     && FitsAll(book, limit, at, s, keys, known, branches.before)
     && Size(branches.before) < |keys|
     && (branches.Final? <==> book.final(at.row, key))
     && (branches.Followed? ==>
           Fits(book, limit, Down(book, at, key), g.state.(counter := g.state.counter + 1), branches.tree)))
  }

  // From state s the search at this place ends with this outcome.
  ghost predicate Runs(book: Book, limit: nat, at: Node, s: State, tree: Tree, out: Outcome) {
    Fits(book, limit, at, s, tree) && out == Ran(book, at, s, tree)
  }

  // Following the first moves of keys has led from s and the known scores to these.
  ghost predicate Grows(book: Book, limit: nat, at: Node, s: State, keys: seq<string>, known: Scores,
                        branches: Branches, moves: Scores, t: State) {
    FitsAll(book, limit, at, s, keys, known, branches) &&
      Grew(book, at, s, keys, known, branches) == Outcome(moves, t, None)
  }

  // There is one such tree, so the outcome is a function of what the search starts from.
  lemma {:induction false} OneRun(book: Book, limit: nat, at: Node, s: State, tree: Tree, other: Tree)
    requires Unrelated(at.path) && Fits(book, limit, at, s, tree) && Fits(book, limit, at, s, other)
    ensures tree == other
    decreases tree
  {
    hide Related, Finished, Apart;
    match tree
    case Stored =>
    case Looped(j) =>
      LoopsOnce(at, j, if other.Looped? then other.j else j);
      if other.Grown? {
        OnceMore(at.path, at.row, j);
      }
    case Grown(branches) =>
      if other.Looped? {
        OnceMore(at.path, at.row, other.j);
      } else {
        var keys, known := book.follow(at.row, s.clock + 2), book.known(at.row, s.clock + 1);
        OneGrowth(book, limit, at, s.(clock := s.clock + 2), keys, known, branches, other.branches);
      }
  }

  lemma LoopsOnce(at: Node, i: nat, j: nat)
    requires Unrelated(at.path) && i < |at.path| && Related(at.path[i], at.row)
    requires j < |at.path| && Related(at.path[j], at.row)
    ensures i == j
  {
    hide Related;
    RelatedSymmetric(at.path[i], at.row);
    RelatedSymmetric(at.path[j], at.row);
    RelatedTransitive(at.path[i], at.row, at.path[j]);
    RelatedTransitive(at.path[j], at.row, at.path[i]);
  }

  lemma {:induction false} OneGrowth(book: Book, limit: nat, at: Node, s: State, keys: seq<string>, known: Scores,
                                     branches: Branches, other: Branches)
    requires Unrelated(at.path) && Apart(at.path, at.row) && Size(branches) == Size(other)
    requires FitsAll(book, limit, at, s, keys, known, branches) && FitsAll(book, limit, at, s, keys, known, other)
    ensures branches == other
    decreases branches
  {
    if branches.Unopened? {
    } else {
      OneGrowth(book, limit, at, s, keys, known, branches.before, other.before);
      if branches.Followed? {
        var g := Grew(book, at, s, keys, known, branches.before);
        var key := KeyAt(keys, Size(branches.before));
        LongerUnrelated(at.path, at.row);
        OneRun(book, limit, Down(book, at, key), g.state.(counter := g.state.counter + 1), branches.tree, other.tree);
      }
    }
  }

  lemma LongerUnrelated(path: seq<Pos>, row: Pos)
    requires Unrelated(path) && Apart(path, row)
    ensures Unrelated(path + [row])
  {
  }

  // A score changes only for a move that was followed: to the negated backed-up score of what
  // the search below it returned, or to a win if it returned nothing and the reply is mated.
  ghost predicate Revised(book: Book, limit: nat, at: Node, k: string, v: int) {
    exists t: State, tree: Tree, out: Outcome ::
      Runs(book, limit, Down(book, at, k), t, tree, out) && RevisedTo(book, at.row, k, out, v)
  }

  ghost predicate RevisedTo(book: Book, row: Pos, k: string, out: Outcome, v: int) {
    var replies := Aged(out.moves, {});
    if replies != map[] then v == -book.backUp(replies, out.state.clock)
      else book.mated(book.make(row, k)) && v == 30000
  }

  ghost predicate RevisedOnly(book: Book, limit: nat, at: Node, keys: seq<string>, known: Scores, moves: Scores) {
    && (forall k :: k in known ==> k in moves)
    && (forall k :: k in moves ==>
          || (k in known && moves[k] == known[k])
          || (k in keys && !book.final(at.row, k) && Revised(book, limit, at, k, moves[k])))
  }

  lemma {:induction false} ScoresFrom(book: Book, limit: nat, at: Node, s: State, keys: seq<string>, known: Scores,
                                      branches: Branches)
    requires FitsAll(book, limit, at, s, keys, known, branches)
    ensures RevisedOnly(book, limit, at, keys, known, Grew(book, at, s, keys, known, branches).moves)
    decreases branches
  {
    hide RevisedOnly, Ran, Fits, Scored;
    if branches.Unopened? {
      NothingRevised(book, limit, at, keys, known);
    } else {
      ScoresFrom(book, limit, at, s, keys, known, branches.before);
      if branches.Followed? {
        var g := Grew(book, at, s, keys, known, branches.before);
        var key, next := KeyAt(keys, Size(branches.before)), g.state.(counter := g.state.counter + 1);
        var out := Ran(book, Down(book, at, key), next, branches.tree);
        OneRevised(book, limit, at, keys, known, g.moves, key, next, branches.tree, out);
      }
    }
  }

  lemma NothingRevised(book: Book, limit: nat, at: Node, keys: seq<string>, known: Scores)
    ensures RevisedOnly(book, limit, at, keys, known, known)
  {
  }

  lemma OneRevised(book: Book, limit: nat, at: Node, keys: seq<string>, known: Scores, moves: Scores, key: string,
                   t: State, tree: Tree, out: Outcome)
    requires RevisedOnly(book, limit, at, keys, known, moves) && key in keys && !book.final(at.row, key)
    requires Runs(book, limit, Down(book, at, key), t, tree, out)
    ensures RevisedOnly(book, limit, at, keys, known,
      Scored(book, at.row, key, moves, Aged(out.moves, {}), out.state.clock))
  {
    hide Runs, Aged;
    var more := Scored(book, at.row, key, moves, Aged(out.moves, {}), out.state.clock);
    if more != moves {
      assert RevisedTo(book, at.row, key, out, more[key]);
      assert Revised(book, limit, at, key, more[key]);
    }
  }

  // Backing up keeps a mate score that is the best.
  ghost predicate BacksMates(book: Book) {
    forall m: Scores, t: nat, b: int :: IsMax(m, b) && Abs(b) >= 10000 ==> book.backUp(m, t) == b
  }

  // A run, a move of the position that scores best in it, and that score.
  datatype Rung = Rung(at: Node, start: State, tree: Tree, out: Outcome, key: string, best: int)

  // Each run is the one below the best move of the run before, whose score comes from it.
  ghost predicate Ladder(book: Book, limit: nat, rungs: seq<Rung>) {
    && (forall i :: 0 <= i < |rungs| ==>
          Runs(book, limit, rungs[i].at, rungs[i].start, rungs[i].tree, rungs[i].out)
          && IsMax(rungs[i].out.moves, rungs[i].best))
    && (forall i :: 0 < i < |rungs| ==> Below(book, rungs[i - 1], rungs[i]))
  }

  ghost predicate Below(book: Book, upper: Rung, lower: Rung) {
    lower.at == Down(book, upper.at, upper.key) && RevisedTo(book, upper.at.row, upper.key, lower.out, upper.best)
  }

  // A mate found some plies below comes up as many nearer to zero, for the one side and the other in turn.
  lemma {:induction false} MatesComeNearer(book: Book, limit: nat, rungs: seq<Rung>)
    requires BacksMates(book) && rungs != [] && Ladder(book, limit, rungs)
    requires Abs(rungs[|rungs| - 1].best) >= 10000 + |rungs|
    ensures var n, top, mate := |rungs| - 1, rungs[0].best, rungs[|rungs| - 1].best;
      Abs(top) == Abs(mate) - n && (top > 0 <==> (mate > 0 <==> n % 2 == 0))
  {
    hide Runs, BacksMates;
    var n := |rungs| - 1;
    if n > 0 {
      MatesComeNearer(book, limit, rungs[1..]);
      assert Below(book, rungs[0], rungs[1]);
      MateStep(book, rungs[0], rungs[1]);
    }
  }

  lemma MateStep(book: Book, upper: Rung, lower: Rung)
    requires BacksMates(book) && Below(book, upper, lower) && IsMax(lower.out.moves, lower.best)
    requires Abs(lower.best) > 10000
    ensures Abs(upper.best) == Abs(lower.best) - 1 && (upper.best > 0 <==> lower.best < 0)
  {
    hide BacksMates, Down;
    var moves, b := lower.out.moves, lower.best;
    var replies, w := Aged(moves, {}), if b < 0 then b + 1 else b - 1;
    AgedBest(moves, b);
    MateBacked(book, replies, lower.out.state.clock, w);
  }

  lemma AgedBest(moves: Scores, b: int)
    requires IsMax(moves, b) && Abs(b) > 10000
    ensures IsMax(Aged(moves, {}), if b < 0 then b + 1 else b - 1) && Aged(moves, {}) != map[]
  {
    var k :| k in moves && moves[k] == b;
    assert k in Aged(moves, {});
  }

  lemma MateBacked(book: Book, m: Scores, t: nat, b: int)
    requires BacksMates(book) && IsMax(m, b) && Abs(b) >= 10000
    ensures book.backUp(m, t) == b
  {
  }

  // ---- one step of a run ----

  lemma GrowsFirst(book: Book, limit: nat, at: Node, s: State, keys: seq<string>, known: Scores)
    ensures Grows(book, limit, at, s, keys, known, Unopened, known, s)
  {
  }

  lemma NothingOpened(book: Book, limit: nat, at: Node, s: State, keys: seq<string>, known: Scores, branches: Branches,
                      moves: Scores, t: State, isBest: bool, was: seq<string>, now: seq<string>)
    requires Size(branches) == 0 && Grows(book, limit, at, s, keys, known, branches, moves, t)
    requires was <= now && (isBest ==> FirstTaken(book, at.row, s.clock, keys, branches, now[|was|..]))
    ensures branches.Unopened? && t == s && (isBest ==> now == was)
  {
  }

  lemma GrowsFinal(book: Book, limit: nat, at: Node, s: State, keys: seq<string>, known: Scores,
                   branches: Branches, moves: Scores, t: State)
    requires Grows(book, limit, at, s, keys, known, branches, moves, t)
    requires Size(branches) < |keys| && book.final(at.row, keys[Size(branches)])
    ensures Grows(book, limit, at, s, keys, known, Final(branches), moves, t.(counter := t.counter + 1))
  {
  }

  lemma GrowsFollowed(book: Book, limit: nat, at: Node, s: State, keys: seq<string>, known: Scores,
                      branches: Branches, moves: Scores, t: State, tree: Tree, out: Outcome)
    requires Grows(book, limit, at, s, keys, known, branches, moves, t)
    requires Size(branches) < |keys| && !book.final(at.row, keys[Size(branches)])
    requires Runs(book, limit, Down(book, at, keys[Size(branches)]), t.(counter := t.counter + 1), tree, out)
    ensures var key := keys[Size(branches)];
      Grows(book, limit, at, s, keys, known, Followed(branches, tree),
            Scored(book, at.row, key, moves, Aged(out.moves, {}), out.state.clock),
            out.state.(loops := Recorded(out.state.loops, at.row, key, out.check)))
  {
    hide *;
    var more, key := Followed(branches, tree), keys[Size(branches)];
    GrewIs(book, limit, at, s, keys, known, branches, moves, t);
    RunIs(book, limit, Down(book, at, key), t.(counter := t.counter + 1), tree, out);
    GrewFollowed(book, at, s, keys, known, branches, tree);
    FitsFollowed(book, limit, at, s, keys, known, branches, tree);
    GrowsIf(book, limit, at, s, keys, known, more);
  }

  lemma GrewIs(book: Book, limit: nat, at: Node, s: State, keys: seq<string>, known: Scores,
               branches: Branches, moves: Scores, t: State)
    requires Grows(book, limit, at, s, keys, known, branches, moves, t)
    ensures FitsAll(book, limit, at, s, keys, known, branches)
    ensures Grew(book, at, s, keys, known, branches) == Outcome(moves, t, None)
  {
    hide FitsAll, Grew;
  }

  lemma RunIs(book: Book, limit: nat, at: Node, s: State, tree: Tree, out: Outcome)
    requires Runs(book, limit, at, s, tree, out)
    ensures Fits(book, limit, at, s, tree) && out == Ran(book, at, s, tree)
  {
    hide Fits, Ran;
  }

  lemma GrowsIf(book: Book, limit: nat, at: Node, s: State, keys: seq<string>, known: Scores, branches: Branches)
    requires FitsAll(book, limit, at, s, keys, known, branches)
    ensures var g := Grew(book, at, s, keys, known, branches);
      g.check.None? ==> Grows(book, limit, at, s, keys, known, branches, g.moves, g.state)
  {
    hide FitsAll, Grew;
  }

  lemma GrewFollowed(book: Book, at: Node, s: State, keys: seq<string>, known: Scores, branches: Branches, tree: Tree)
    requires Size(branches) < |keys|
    ensures var g, key := Grew(book, at, s, keys, known, branches), keys[Size(branches)];
      var out := Ran(book, Down(book, at, key), g.state.(counter := g.state.counter + 1), tree);
      Grew(book, at, s, keys, known, Followed(branches, tree))
        == Outcome(Scored(book, at.row, key, g.moves, Aged(out.moves, {}), out.state.clock),
                   out.state.(loops := Recorded(out.state.loops, at.row, key, out.check)), None)
  {
    hide Ran, Scored, Aged, Recorded, Down;
  }

  lemma FitsFollowed(book: Book, limit: nat, at: Node, s: State, keys: seq<string>, known: Scores,
                     branches: Branches, tree: Tree)
    requires FitsAll(book, limit, at, s, keys, known, branches) && Size(branches) < |keys|
    requires var g, key := Grew(book, at, s, keys, known, branches), keys[Size(branches)];
      && !book.final(at.row, key)
      && Fits(book, limit, Down(book, at, key), g.state.(counter := g.state.counter + 1), tree)
    ensures FitsAll(book, limit, at, s, keys, known, Followed(branches, tree))
  {
    hide Fits, Grew, Down;
  }

  // What is left once all moves are followed.
  function Left(t: State, row: Pos, info: map<string, int>): State {
    if info == map[] then t.(finished := t.finished + {row}) else t.(loops := t.loops - {row})
  }

  lemma RunsGrown(book: Book, limit: nat, at: Node, s: State, branches: Branches, moves: Scores, t: State)
    requires s.counter < limit && !Finished(s.finished, at.row) && Apart(at.path, at.row)
    requires var keys := book.follow(at.row, s.clock + 2);
      && Size(branches) == |keys|
      && Grows(book, limit, at, s.(clock := s.clock + 2), keys, book.known(at.row, s.clock + 1), branches, moves, t)
    ensures var info := InfoOf(t.loops, at.row);
      Runs(book, limit, at, s, Grown(branches), Outcome(moves, Left(t, at.row, info), CheckOf(moves.Keys, info)))
  {
    hide Finished, Apart, Grew, FitsAll, InfoOf, CheckOf;
  }

  lemma RunsLooped(book: Book, limit: nat, at: Node, s: State, j: nat)
    requires s.counter < limit && !Finished(s.finished, at.row)
    requires j < |at.path| && |at.path| == |at.made| && Related(at.path[j], at.row)
    ensures var known, loops := book.known(at.row, s.clock + 1), Judged(s.loops, book, at.path[j], at.made[j..]);
      var info := InfoOf(loops, at.row);
      Runs(book, limit, at, s, Looped(j),
           Outcome(SettledScores(known, info), s.(loops := loops, clock := s.clock + 1), CheckOf(known.Keys, info)))
  {
    hide Finished, Related, InfoOf, CheckOf, SettledScores, Judged;
  }

  lemma RunsStored(book: Book, limit: nat, at: Node, s: State)
    requires s.counter >= limit || Finished(s.finished, at.row)
    ensures Runs(book, limit, at, s, Stored, Outcome(book.known(at.row, s.clock + 1), s.(clock := s.clock + 1), None))
  {
  }

  // The place of a position on the line that the table holds.
  function NodeOf(history: Table, path: seq<Pos>, row: Pos): Node { Node(path, LoopLine(history, path, 0), row) }

  lemma NodeBelow(history: Table, book: Book, path: seq<Pos>, row: Pos, key: string)
    requires Chained(history, book, path, row) && Apart(path, row) && |key| <= 4
    ensures var next := book.make(row, key);
      NodeOf(history[row := Step(next, key)], path + [row], next) == Down(book, NodeOf(history, path, row), key)
  {
    var next := book.make(row, key);
    var h := history[row := Step(next, key)];
    ChainGrows(history, book, path, row, key);
    var a, b := LoopLine(h, path + [row], 0), LoopLine(history, path, 0) + [key];
    forall i | 0 <= i < |path| + 1
      ensures a[i] == b[i]
    {
      if i < |path| {
        assert (path + [row])[i] == path[i] && path[i] in history && path[i] != row;
      }
    }
    assert a == b;
  }

  lemma LineLength(history: Table, path: seq<Pos>)
    ensures |LoopLine(history, path, 0)| == |path|
  {
  }

  lemma LineFrom(history: Table, path: seq<Pos>, j: nat)
    requires j <= |path|
    ensures LoopLine(history, path, 0)[j..] == LoopLine(history, path, j)
  {
  }

  // ---- the budget and the best line ----

  // Entry values of the counter increase strictly and stay below the limit.
  ghost predicate Counted(expansions: seq<Expansion>, limit: nat, counter: nat) {
    && (forall i, j :: 0 <= i < j < |expansions| ==> expansions[i].at < expansions[j].at)
    && (forall i :: 0 <= i < |expansions| ==> expansions[i].at < limit && expansions[i].at < counter)
  }

  lemma {:induction false} BudgetKept(expansions: seq<Expansion>, limit: nat, counter: nat)
    requires Counted(expansions, limit, counter)
    ensures |expansions| <= limit
  {
    if expansions != [] {
      var n := |expansions| - 1;
      var last := expansions[n];
      assert Counted(expansions[..n], last.at, last.at);
      BudgetKept(expansions[..n], last.at, last.at);
    }
  }

  lemma CountMore(expansions: seq<Expansion>, limit: nat, counter: nat, row: Pos)
    requires Counted(expansions, limit, counter) && counter < limit
    ensures Counted(expansions + [Expansion(row, counter)], limit, counter + 1)
  {
  }

  ghost predicate Expanded(expansions: seq<Expansion>, p: Pos) {
    exists i :: 0 <= i < |expansions| && expansions[i].pos == p
  }

  // Each move is made in an expanded position that is no image of those before it.
  ghost predicate BestLine(book: Book, expansions: seq<Expansion>, path: seq<Pos>, row: Pos, line: seq<string>)
    decreases |line|
  {
    line == [] ||
    (Expanded(expansions, row) && Apart(path, row) &&
      BestLine(book, expansions, path + [row], book.make(row, line[0]), line[1..]))
  }

  lemma {:induction false} LineStays(book: Book, e: seq<Expansion>, more: seq<Expansion>, path: seq<Pos>, row: Pos,
                                     line: seq<string>)
    requires e <= more && BestLine(book, e, path, row, line)
    ensures BestLine(book, more, path, row, line)
    decreases |line|
  {
    if line != [] {
      ExpandedStays(e, more, row);
      LineStays(book, e, more, path + [row], book.make(row, line[0]), line[1..]);
    }
  }

  lemma ExpandedStays(e: seq<Expansion>, more: seq<Expansion>, p: Pos)
    requires e <= more && Expanded(e, p)
    ensures Expanded(more, p)
  {
    var i :| 0 <= i < |e| && e[i].pos == p;
    assert more[i] == e[i];
  }

  // The line begins with the first move followed.
  lemma LineBegins(book: Book, e: seq<Expansion>, path: seq<Pos>, row: Pos, key: string, line: seq<string>)
    requires Expanded(e, row) && Apart(path, row) && BestLine(book, e, path + [row], book.make(row, key), line)
    ensures BestLine(book, e, path, row, [key] + line)
  {
    assert ([key] + line)[1..] == line;
  }

  // What the best line gains below a position; nothing off the best line.
  ghost predicate Gains(book: Book, e: seq<Expansion>, path: seq<Pos>, row: Pos, isBest: bool, was: seq<string>,
                        now: seq<string>) {
    was <= now && if isBest then BestLine(book, e, path, row, now[|was|..]) else now == was
  }

  lemma NoGain(book: Book, e: seq<Expansion>, path: seq<Pos>, row: Pos, isBest: bool, was: seq<string>)
    ensures Gains(book, e, path, row, isBest, was, was)
  {
    assert was[|was|..] == [];
  }

  // The line after the move key: it is pushed when best, and only the first move is.
  function Pushed(line: seq<string>, best: bool, key: string): seq<string> { if best then line + [key] else line }

  lemma MoveFollowed(book: Book, e: seq<Expansion>, more: seq<Expansion>, path: seq<Pos>, row: Pos, key: string,
                     best: bool,
                     isBest: bool, was: seq<string>, before: seq<string>, after: seq<string>)
    requires e <= more && Expanded(more, row) && Apart(path, row)
    requires Gains(book, e, path, row, isBest, was, before) && (best ==> isBest && before == was)
    requires Gains(book, more, path + [row], book.make(row, key), best, Pushed(before, best, key), after)
    ensures Gains(book, more, path, row, isBest, was, after)
    ensures best ==> was + [key] <= after
    ensures before <= after && (!best ==> after == before)
    ensures Pushed(before, best, key) <= after
  {
    if best {
      var line := after[|before| + 1..];
      LineBegins(book, more, path, row, key, line);
      assert after[|was|..] == [key] + line;
    } else if isBest {
      LineStays(book, e, more, path, row, before[|was|..]);
    }
  }

  lemma FinalMove(book: Book, e: seq<Expansion>, path: seq<Pos>, row: Pos, key: string, best: bool,
                  isBest: bool, was: seq<string>, before: seq<string>, after: seq<string>)
    requires Expanded(e, row) && Apart(path, row) && after == Pushed(before, best, key)
    requires Gains(book, e, path, row, isBest, was, before) && (best ==> isBest && before == was)
    ensures Gains(book, e, path, row, isBest, was, after)
    ensures best ==> was + [key] <= after
    ensures before <= after && (!best ==> after == before)
    ensures Pushed(before, best, key) <= after
  {
    NoGain(book, e, path + [row], book.make(row, key), best, after);
    MoveFollowed(book, e, e, path, row, key, best, isBest, was, before, after);
  }

  // The line is complete: at a position whose moves are followed it takes the first of them and goes
  // on below it. It ends where that move is final, where there is no move to follow, and where the
  // position is not searched.
  ghost predicate Complete(book: Book, row: Pos, clock: nat, tree: Tree, line: seq<string>)
    decreases tree
  {
    if tree.Grown? then FirstTaken(book, row, clock + 2, book.follow(row, clock + 2), tree.branches, line)
      else line == []
  }

  ghost predicate FirstTaken(book: Book, row: Pos, clock: nat, keys: seq<string>, branches: Branches, line: seq<string>)
    decreases branches
  {
    if branches.Unopened? then line == []
    else if !branches.before.Unopened? then FirstTaken(book, row, clock, keys, branches.before, line)
    else
      && keys != [] && line != [] && line[0] == keys[0]
      && if branches.Final? then |line| == 1
        else Complete(book, book.make(row, keys[0]), clock, branches.tree, line[1..])
  }

  // The first move pushes itself and what is gained below it, the others nothing.
  lemma StaysComplete(book: Book, row: Pos, clock: nat, keys: seq<string>, next: Branches, best: bool, isBest: bool,
                      was: seq<string>, before: seq<string>, after: seq<string>)
    requires !next.Unopened? && Size(next) <= |keys| && best == (isBest && next.before.Unopened?)
    requires was <= before && (isBest ==> FirstTaken(book, row, clock, keys, next.before, before[|was|..]))
    requires var pushed := Pushed(before, best, keys[Size(next) - 1]);
      && pushed <= after && (next.Final? || !best ==> after == pushed)
      && (next.Followed? && best ==> Complete(book, book.make(row, keys[0]), clock, next.tree, after[|pushed|..]))
    ensures was <= after && (isBest ==> FirstTaken(book, row, clock, keys, next, after[|was|..]))
  {
    if best {
      assert before == was;
      var pushed := was + [keys[0]];
      assert after[|was|..][0] == pushed[|was|];
      assert after[|was|..][1..] == after[|pushed|..];
    }
  }

  // ---- the search ----

  class Search {
    const book: Book
    const limit: nat
    var history: Table
    var loops: Verdicts
    var finished: set<Pos>
    var loopcheck: Option<int>
    var counter: nat
    var clock: nat
    var pv: seq<string>
    ghost var expansions: seq<Expansion>

    constructor (b: Book, n: nat)
      ensures book == b && limit == n && history == map[] && loops == map[] && finished == {}
      ensures loopcheck == None && counter == 0 && clock == 0 && pv == [] && expansions == []
    {
      book, limit := b, n;
      history, loops, finished := map[], map[], {};
      loopcheck, counter, clock, pv := None, 0, 0, [];
      expansions := [];
    }

    // What holds when a position is entered or left, below the given line.
    ghost predicate Tidy(path: seq<Pos>, row: Pos)
      reads this
    {
      Chained(history, book, path, row) && OnPath(loops, path)
    }

    ghost function Now(): State
      reads this
    {
      State(loops, finished, counter, clock)
    }

    // The verdict on the loop hangs on the move that entered it.
    method JudgeLoop(row: Pos, start: Pos, ghost path: seq<Pos>, ghost j: nat)
      requires Tidy(path, row) && j < |path| && path[j] == start && Related(start, row)
      modifies this`loops
      ensures OnPath(loops, path)
      ensures PlayLine(book, start, LoopLine(history, path, j)) == row
      ensures loops == Judged(old(loops), book, start, LoopLine(history, path, j))
      ensures LoopLine(history, path, j) != []
      ensures var line := LoopLine(history, path, j);
        if book.rule(start, line) > 0 then Hangs(old(loops), loops, start, line[0], book.rule(start, line))
        else loops == old(loops)
    {
      hide Image, LoopLine;
      var moves := WalkLoop(history, book, row, start, path, j);
      assert Linked(history, book, path, row, j);
      var status := book.rule(start, moves);
      if status > 0 {
        VerdictHangs(loops, path, start, history[start].move, status);
        loops := loops[start := EntriesAt(loops, start)[history[start].move := status]];
      }
    }

    // Forget the verdicts on the position, whatever its image, and no others.
    method ForgetLoops(row: Pos, ghost path: seq<Pos>)
      requires OnPath(loops, path + [row]) && Apart(path, row)
      modifies this`loops
      ensures OnPath(loops, path) && loops == old(loops) - {row}
    {
      hide Image;
      ghost var before := loops;
      loops := loops - {row};
      ForgetsNothing(loops, path, row, BW);
      loops := loops - {Image(BW, row)};
      if Image(LR, row) != row {
        ForgetsNothing(loops, path, row, LR);
        loops := loops - {Image(LR, row)};
        ForgetsNothing(loops, path, row, LRBW);
        loops := loops - {Image(LRBW, row)};
      }
    }

    // Some moves of a position that is new to the line have been followed: `branches` of keys,
    // the scores have become `moves`, and the best line has grown from `was`.
    ghost predicate Midway(at: Node, s: State, keys: seq<string>, known: Scores, branches: Branches, moves: Scores,
                           isBest: bool, was: seq<string>)
      reads this
    {
      && Chained(history, book, at.path, at.row) && OnPath(loops, at.path + [at.row]) && loopcheck.None?
      && Counted(expansions, limit, counter + 1) && Expanded(expansions, at.row)
      && Gains(book, expansions, at.path, at.row, isBest, was, pv)
      && was <= pv && (isBest ==> FirstTaken(book, at.row, s.clock, keys, branches, pv[|was|..]))
      && at == NodeOf(history, at.path, at.row) && Grows(book, limit, at, s, keys, known, branches, moves, Now())
    }

    // Follow the chosen moves of a position that is new to the line.
    method Expand(row: Pos, known: Scores, isBest: bool, ghost path: seq<Pos>)
      returns (moves: Scores, ghost branches: Branches)
      requires Tidy(path, row) && Apart(path, row) && loopcheck.None? && ShortMoves(book)
      requires counter < limit && Counted(expansions, limit, counter)
      modifies this
      decreases limit - counter, 1
      ensures history == old(history) && OnPath(loops, path + [row]) && loopcheck.None?
      ensures counter >= old(counter) && Counted(expansions, limit, counter + 1)
      ensures old(expansions) <= expansions && Expanded(expansions, row)
      ensures Gains(book, expansions, path, row, isBest, old(pv), pv)
      ensures var keys := book.follow(row, old(clock) + 1);
        && old(pv) <= pv && (isBest ==> FirstTaken(book, row, old(clock) + 1, keys, branches, pv[|old(pv)|..]))
        && Size(branches) == |keys|
        && Grows(book, limit, NodeOf(history, path, row), old(Now()).(clock := old(clock) + 1), keys, known,
          branches, moves, Now())
    {
      hide Image, Chained, OnPath, Gains, ShortMoves, Counted, Apart, Expanded, Grows, LoopLine, Complete;
      moves, branches := known, Unopened;
      ghost var at := NodeOf(history, path, row);
      expansions := expansions + [Expansion(row, counter)];
      NowExpanded(old(expansions), row, counter);
      CountMore(old(expansions), limit, counter, row);
      PathLonger(loops, path, row);
      NoGain(book, expansions, path, row, isBest, pv);
      clock := clock + 1;
      var keys := book.follow(row, clock);
      ghost var when, s := clock, Now();
      GrowsFirst(book, limit, at, s, keys, known);
      var best := isBest;
      assert Midway(at, s, keys, known, branches, moves, isBest, old(pv));
      hide Midway;
      for i := 0 to |keys|
        invariant history == old(history) && counter >= old(counter) && old(expansions) <= expansions
        invariant best == (isBest && i == 0)
        invariant Size(branches) == i && Midway(at, s, keys, known, branches, moves, isBest, old(pv))
      {
        moves, branches := TryMove(row, keys, i, moves, best, at, when, s, known, branches, isBest, old(pv),
          limit - old(counter));
        best := false;
      }
      MidwayIs(at, s, keys, known, branches, moves, isBest, old(pv));
    }

    lemma MidwayIs(at: Node, s: State, keys: seq<string>, known: Scores, branches: Branches, moves: Scores,
                   isBest: bool, was: seq<string>)
      requires Midway(at, s, keys, known, branches, moves, isBest, was)
      ensures OnPath(loops, at.path + [at.row]) && loopcheck.None?
      ensures Counted(expansions, limit, counter + 1) && Expanded(expansions, at.row)
      ensures Gains(book, expansions, at.path, at.row, isBest, was, pv)
      ensures was <= pv && (isBest ==> FirstTaken(book, at.row, s.clock, keys, branches, pv[|was|..]))
      ensures at == NodeOf(history, at.path, at.row) && Grows(book, limit, at, s, keys, known, branches, moves, Now())
    {
    }

    // The i-th move: nothing to search if its score is final, else one move down.
    method TryMove(row: Pos, keys: seq<string>, i: nat, moves: Scores, best: bool, ghost at: Node, ghost when: nat,
                   ghost s: State, ghost known: Scores, ghost branches: Branches, ghost isBest: bool,
                     ghost was: seq<string>,
                   ghost budget: nat)
      returns (more: Scores, ghost grown: Branches)
      requires at.row == row && Apart(at.path, row) && ShortMoves(book) && keys == book.follow(row, when)
      requires i < |keys| && Size(branches) == i && Midway(at, s, keys, known, branches, moves, isBest, was)
      requires best == (isBest && i == 0) && budget > 0 && limit - counter <= budget
      modifies this
      decreases budget, 0
      ensures history == old(history) && counter >= old(counter) && old(expansions) <= expansions && old(pv) <= pv
      ensures Size(grown) == i + 1 && Midway(at, s, keys, known, grown, more, isBest, was)
    {
      hide Image, Chained, OnPath, BestLine, Gains, ShortMoves, Counted, Apart, Expanded, Grows, Runs, LoopLine;
      hide Scored, Aged, FirstTaken, Complete;
      if i == 0 {
        NothingOpened(book, limit, at, s, keys, known, branches, moves, Now(), isBest, was, pv);
      }
      var key := keys[i];
      KeyShort(book, row, when, i);
      ghost var t, e, before := Now(), expansions, pv;
      more := moves;
      counter := counter + 1;
      pv := Pushed(pv, best, key);
      if book.final(row, key) {
        FinalMove(book, e, at.path, row, key, best, isBest, was, before, pv);
        CountLater(expansions, limit, counter);
        GrowsFinal(book, limit, at, s, keys, known, branches, moves, t);
        grown := Final(branches);
        StaysComplete(book, row, s.clock, keys, grown, best, isBest, was, before, pv);
        return;
      }
      ghost var tree, out;
      var replies;
      replies, tree, out := Follow(row, key, best, at.path);
      ExpandedStays(e, expansions, row);
      MoveFollowed(book, e, expansions, at.path, row, key, best, isBest, was, before, pv);
      GrowsFollowed(book, limit, at, s, keys, known, branches, moves, t, tree, out);
      grown := Followed(branches, tree);
      StaysComplete(book, row, s.clock, keys, grown, best, isBest, was, before, pv);
      more := Scored(book, row, key, moves, replies, clock);
    }

    // One move down and back up again; a verdict on the reply hangs on the move.
    method Follow(row: Pos, key: string, isBest: bool, ghost path: seq<Pos>)
      returns (replies: Scores, ghost tree: Tree, ghost out: Outcome)
      requires Chained(history, book, path, row) && OnPath(loops, path + [row]) && Apart(path, row) && loopcheck.None?
      requires ShortMoves(book)
      requires |key| <= 4 && Counted(expansions, limit, counter)
      modifies this
      decreases if counter < limit then limit - counter else 0, 4
      ensures history == old(history) && OnPath(loops, path + [row]) && loopcheck.None?
      ensures counter >= old(counter) && Counted(expansions, limit, counter + 1) && old(expansions) <= expansions
      ensures Gains(book, expansions, path + [row], book.make(row, key), isBest, old(pv), pv)
      ensures old(pv) <= pv && (isBest ==> Complete(book, book.make(row, key), old(clock), tree, pv[|old(pv)|..]))
      ensures Runs(book, limit, Down(book, NodeOf(history, path, row), key), old(Now()), tree, out)
      ensures replies == Aged(out.moves, {})
      ensures Now() == out.state.(loops := Recorded(out.state.loops, row, key, out.check))
      ensures if out.check.Some? then Hangs(out.state.loops, loops, row, key, out.check.value)
        else loops == out.state.loops
    {
      hide Image, Chained, OnPath, BestLine, Gains, ShortMoves, Counted, Apart, Runs, NodeOf, Aged, Complete, Hangs;
      ChainGrows(history, book, path, row, key);
      NodeBelow(history, book, path, row, key);
      var next := book.make(row, key);
      history := history[row := Step(next, key)];
      replies, tree, out := Analyse(next, {}, isBest, path + [row]);
      history := history - {row};
      if loopcheck.Some? {
        VerdictHangs(loops, path + [row], row, key, loopcheck.value);
        RecordedHangs(loops, row, key, loopcheck.value);
        loops := loops[row := EntriesAt(loops, row)[key := loopcheck.value]];
        loopcheck := None;
      }
    }

    // A position new to the line: search it, then settle what its verdicts say.
    method VisitNew(row: Pos, known: Scores, isBest: bool, ghost path: seq<Pos>)
      returns (moves: Scores, ghost branches: Branches, ghost t: State)
      requires Tidy(path, row) && Apart(path, row) && loopcheck.None? && ShortMoves(book)
      requires counter < limit && Counted(expansions, limit, counter)
      modifies this
      decreases limit - counter, 2
      ensures history == old(history) && OnPath(loops, path)
      ensures counter >= old(counter) && Counted(expansions, limit, counter + 1)
      ensures old(expansions) <= expansions && Expanded(expansions, row)
      ensures Gains(book, expansions, path, row, isBest, old(pv), pv)
      ensures var keys := book.follow(row, old(clock) + 1);
        && old(pv) <= pv && (isBest ==> FirstTaken(book, row, old(clock) + 1, keys, branches, pv[|old(pv)|..]))
        && Size(branches) == |keys|
        && Grows(book, limit, NodeOf(history, path, row), old(Now()).(clock := old(clock) + 1), keys, known,
          branches, moves, t)
      ensures var info := InfoOf(t.loops, row); Now() == Left(t, row, info) && loopcheck == CheckOf(moves.Keys, info)
    {
      hide Image, Chained, OnPath, BestLine, Gains, ShortMoves, Counted, Apart, InfoOf, Settled, Related, Expanded;
      hide Grows, NodeOf, CheckOf, FirstTaken, Complete;
      moves, branches := Expand(row, known, isBest, path);
      t := Now();
      var info := Collect(loops, row, path + [row]);
      ghost var searched := moves;
      if info != map[] {
        moves, loopcheck := Settle(moves, info, false);
        SettledIs(searched, info, false, moves, loopcheck);
        ForgetLoops(row, path);
      } else {
        NothingToSettle(moves, false);
        SettledIs(searched, info, false, moves, None);
        NoneHere(loops, path, row);
        finished := finished + {row};
      }
    }

    // A position met before on the line: judge the loop and settle the scores.
    method VisitAgain(row: Pos, known: Scores, start: Pos, ghost path: seq<Pos>, ghost j: nat) returns (moves: Scores)
      requires Tidy(path, row) && loopcheck.None? && j < |path| && path[j] == start && Related(start, row)
      modifies this`loops, this`loopcheck
      ensures OnPath(loops, path)
      ensures loops == Judged(old(loops), book, start, LoopLine(history, path, j))
      ensures var info := InfoOf(loops, row);
        moves == SettledScores(known, info) && loopcheck == CheckOf(known.Keys, info)
    {
      hide Image, Chained, OnPath, Related, InfoOf, Settled, PlayLine, LoopLine, SettledScores, CheckOf;
      moves := known;
      JudgeLoop(row, start, path, j);
      var info := Collect(loops, row, path);
      if info != map[] {
        moves, loopcheck := Settle(moves, info, true);
      } else {
        NothingToSettle(moves, true);
      }
      SettledIs(known, info, true, moves, loopcheck);
    }

    // The whole search below a position: it computes what the run of its tree says.
    method Analyse(row: Pos, ban: set<string>, isBest: bool, ghost path: seq<Pos>)
      returns (moves: Scores, ghost tree: Tree, ghost out: Outcome)
      requires Tidy(path, row) && loopcheck.None? && ShortMoves(book) && Counted(expansions, limit, counter)
      modifies this
      decreases if counter < limit then limit - counter else 0, 3
      ensures history == old(history) && OnPath(loops, path)
      ensures counter >= old(counter) && Counted(expansions, limit, counter + 1) && old(expansions) <= expansions
      ensures Gains(book, expansions, path, row, isBest, old(pv), pv)
      ensures old(pv) <= pv && (isBest ==> Complete(book, row, old(clock), tree, pv[|old(pv)|..]))
      ensures Runs(book, limit, NodeOf(history, path, row), old(Now()), tree, out)
      ensures moves == Aged(out.moves, ban) && Now() == out.state && loopcheck == out.check
      ensures moves.Keys == out.moves.Keys - ban && forall k :: k in moves ==> AgedTo(out.moves[k], moves[k])
      ensures if tree.Grown? then Expanded(expansions, row) else expansions == old(expansions) && pv == old(pv)
    {
      hide Image, Chained, OnPath, BestLine, Gains, ShortMoves, Counted, Apart, InfoOf, Expanded, Judged, LoopLine;
      hide Runs, Grows, Related, SettledScores, CheckOf, Finished, Left, Aged, AgedTo, FirstTaken;
      CountLater(expansions, limit, counter);
      NoGain(book, expansions, path, row, isBest, pv);
      LineLength(history, path);
      ghost var s, at := Now(), NodeOf(history, path, row);
      clock := clock + 1;
      moves := book.known(row, clock);
      tree := Stored;
      if counter < limit && !Finished(finished, row) {
        PathHolds(history, book, path, row);
        var start;
        ghost var j;
        start, j := FindLoop(history, row, path);
        if start.None? {
          ghost var branches, t;
          moves, branches, t := VisitNew(row, moves, isBest, path);
          RunsGrown(book, limit, at, s, branches, moves, t);
          tree := Grown(branches);
        } else {
          moves := VisitAgain(row, moves, start.value, path, j);
          LineFrom(history, path, j);
          RunsLooped(book, limit, at, s, j);
          tree := Looped(j);
        }
      } else {
        RunsStored(book, limit, at, s);
      }
      out := Outcome(moves, Now(), loopcheck);
      AgedScores(moves, ban);
      moves := Aged(moves, ban);
    }
  }

  // A whole search from a root: nothing is left in the tables, the budget is
  // kept, and the best line is one line of play.
  method SearchRoot(book: Book, limit: nat, root: Pos, ban: set<string>)
    returns (moves: Scores, s: Search, ghost tree: Tree, ghost out: Outcome)
    requires ShortMoves(book)
    ensures s.history == map[] && s.loops == map[]
    ensures |s.expansions| <= limit && BestLine(book, s.expansions, [], root, s.pv)
    ensures Complete(book, root, 0, tree, s.pv)
    ensures Runs(book, limit, Node([], [], root), State(map[], {}, 0, 0), tree, out)
    ensures moves == Aged(out.moves, ban) && s.Now() == out.state
    ensures moves.Keys == out.moves.Keys - ban && forall k :: k in moves ==> AgedTo(out.moves[k], moves[k])
  {
    hide BestLine, ShortMoves, Runs, Aged, AgedTo, Complete;
    s := new Search(book, limit);
    assert LoopLine(map[], [], 0) == [];
    moves, tree, out := s.Analyse(root, ban, true, []);
    BudgetKept(s.expansions, limit, s.counter + 1);
    assert s.pv[0..] == s.pv;
  }

  // The positions in which the moves of the best line are made.
  function LinePos(book: Book, row: Pos, line: seq<string>, i: nat): Pos
    requires i <= |line|
  {
    PlayLine(book, row, line[..i])
  }

  lemma LinePosNext(book: Book, row: Pos, line: seq<string>, i: nat)
    requires 0 < i <= |line|
    ensures LinePos(book, row, line, i) == LinePos(book, book.make(row, line[0]), line[1..], i - 1)
  {
    assert line[..i][0] == line[0] && line[..i][1..] == line[1..][..i - 1];
  }

  lemma {:induction false} LineAvoids(book: Book, e: seq<Expansion>, path: seq<Pos>, row: Pos, line: seq<string>,
                                      i: nat)
    requires BestLine(book, e, path, row, line) && i < |line|
    ensures Apart(path, LinePos(book, row, line, i)) && Expanded(e, LinePos(book, row, line, i))
    decreases i
  {
    hide Related;
    if i == 0 {
      assert line[..0] == [];
    } else {
      LinePosNext(book, row, line, i);
      LineAvoids(book, e, path + [row], book.make(row, line[0]), line[1..], i - 1);
      var p := LinePos(book, row, line, i);
      forall x | 0 <= x < |path|
        ensures !Related(path[x], p)
      {
        assert (path + [row])[x] == path[x];
      }
    }
  }

  // They are expanded, and no two of them are images of one another.
  lemma {:induction false} LineSpreads(book: Book, e: seq<Expansion>, path: seq<Pos>, row: Pos, line: seq<string>,
                                       i: nat, j: nat)
    requires BestLine(book, e, path, row, line) && i < j < |line|
    ensures Expanded(e, LinePos(book, row, line, i)) && Expanded(e, LinePos(book, row, line, j))
    ensures !Related(LinePos(book, row, line, i), LinePos(book, row, line, j))
    decreases i
  {
    hide Related;
    LineAvoids(book, e, path, row, line, i);
    LineAvoids(book, e, path, row, line, j);
    LinePosNext(book, row, line, j);
    if i == 0 {
      LineAvoids(book, e, path + [row], book.make(row, line[0]), line[1..], j - 1);
      assert (path + [row])[|path|] == row && line[..0] == [];
    } else {
      LinePosNext(book, row, line, i);
      LineSpreads(book, e, path + [row], book.make(row, line[0]), line[1..], i - 1, j - 1);
    }
  }

  // ---- small facts about the tables ----

  lemma CountLater(expansions: seq<Expansion>, limit: nat, counter: nat)
    requires Counted(expansions, limit, counter)
    ensures Counted(expansions, limit, counter + 1)
  {
  }

  lemma NowExpanded(expansions: seq<Expansion>, row: Pos, counter: nat)
    ensures Expanded(expansions + [Expansion(row, counter)], row)
  {
    assert (expansions + [Expansion(row, counter)])[|expansions|].pos == row;
  }

  lemma KeyShort(book: Book, p: Pos, t: nat, i: nat)
    requires ShortMoves(book) && i < |book.follow(p, t)|
    ensures |book.follow(p, t)[i]| <= 4
  {
  }
}
