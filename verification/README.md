# A verified model of the xiangqi cloud database

This project models the logic of the chessdb repository in Dafny and proves properties of the model. It covers the
xiangqi position engine, the FEN and key texts and their mirrors, the score store, the score backup, the book search
and the packed ply field, and on the chess side the board with its running key and the key codec.
`dafny verify dfyconfig.toml` checks all of it.

## What is modelled

- **Geometry, Rules.** Squares, the way pieces move, check, facing kings and legal moves on a plain board of ninety
  cells. This is the reference; no engine code is in it.
- **Attacks, Bitboards, RankTables.** The attack sets the engine looks up, bitboards as sets of squares over two half
  boards, the ray scans, and the tables filled for every occupancy of a rank.
- **Hashing, History, Engine.** The class `Position` keeps the mailbox, sixteen bitboards, blockers, counts, the
  running key and the stack, and updates them in place. `Valid()` says that all forms agree with the mailbox, that the
  pieces stand where they may, and that the stack records play leading to the board; `Keyed()` says that every key is
  the one computed afresh.
- **Legality, CheckDetection, Generator.** Three fast algorithms against the simple ones: the pin, screen and leg
  analysis against making the move and looking, the incremental check bit against `in_check`, the generator against
  the recogniser.
- **Rewinding, ChaseAttack, Chase, Repetition, RuleCheck.** The repetition adjudicator, which rewinds and replays the
  board in place to find out who checks or chases, and `ccbrulecheck`, which plays a line and adjudicates it.
- **Symmetry, MoveText, Fen, FenMirror, FenReader, Extension, Commutes.** The four mirrors as a group acting on
  positions and on texts, writing and reading FEN, and the two entry points that make moves and list them.
- **HexKey, Store, PlainScores.** The hexadecimal key codec, the store with one record per mirror orbit, and its
  refinement of a plain map from positions and moves to scores.
- **Score, Ply, Loops, Search, LoopVerdicts.** The backup of scores over `real`, the packed ply field, and the
  recursive search with its tables `historytt`, `looptt` and `boardtt`, its counter and its best line. `Ran` and `Grew`
  say what a search computes, over the tree it goes through; the methods that update the tables in place compute that.
- **ChessRules, ChessKey, ChessBoard, ChessHex.** The chess board that makes and unmakes moves in place, castling from
  any file, en passant and promotion included, against a plain position and its recomputed key; and the four-field key
  codec with its escapes.

Some names: a move is *pseudo-legal* when it respects how the pieces move; a board is *safe* for a side when its king
is not attacked and the kings do not face; a position is *placed* when its pieces stand on points they may reach and
each side has one king in its palace; two positions are *related* when a mirror turns one into the other.

## Main results

1. The legality filter accepts a pseudo-legal move exactly when the position after it is safe, in every position whose
   kings do not face, so `gen_legals` lists exactly the legal moves, each once (`Generator.GenLegals`,
   `Engine.Position.PseudoIsLegal`, `PseudoIsLegalInCheck`). The filter for positions in check would be wrong out of
   check, and only where a piece takes the other king down an open file (`Legality.FiltersDifferOutOfCheck`).
2. When the other side was not in check before, the check bit recorded by `move_do` is `in_check` of the new position
   on every path, except for two steps of the king that it overlooks: the king that alone stood between its rook and
   the other king steps aside, with no cannon gaining the rook as its screen; or the king becomes the only screen of
   its cannon (`CheckDetection.CheckBitExact`, `Engine.Position.MoveDo`). Both need kings that face, before or after
   the move (`CheckDetection.OverlooksAt`); with White king e1, rook e0 and Black king e9 the step to d1 is an example
   (`CheckDetection.OverlooksARook`). The merged-halves test for a single bit is not exact in general: it also accepts
   two squares 64 apart. Such squares never share a rank or file (`Bitboards.OnlyOneBitExact`, `OnlyOneBitOnLine`).
3. All redundant forms and the running key stay right over any run of moves and undos (`Engine.Position.MoveDo`,
   `MoveUndo`, `DoAndUndo`).
4. Adjudication restores the position on every exit, and its verdict is the one that checks and chases on the boards
   of the line give, in spite of rewinding in place and breaking off early (`Repetition.RepCheck`,
   `Chase.CheckMoveCatch`, `Chase.CheckStaticCatch`, `RuleCheck.CheckLine`, `RuleCheck.RepetitionIsReal`,
   `RuleCheck.ChecksAreReal`). Of the two sides the one that alone gave check with every move since the position stood
   for the n-th time is banned, and if both did it is a draw (`RuleCheck.VerdictOnBoards`); where checks do not decide
   it is said who is banned for chasing (`Repetition.ChasesDecide`). The search gets these verdicts as 2, 3 and 1
   (`LoopVerdicts.LoopStatus`), and what it passes up bans the same side (`Loops.SameSideGoesUp`).
5. Reading, making and listing moves commute with the mirror group (`Commutes.GenerationCommutes`,
   `Commutes.MakingCommutes`, `FenReader.ReadsBack`).
6. Keys decode to the text they came from and are injective (`HexKey.RoundTrip`, `HexKey.KeyInjective`); a position is
   stored under that of its images' keys that comes first in byte order (`Store.Locate`, `Store.LeastOfOrbit`), and the
   store refines a plain map (`PlainScores.WriteThenRead`, `WritesShow`, `OthersKeepScores`).
7. The search computes the run of one tree: every score it changes is backed up from what the search below that move
   returned, its tables and budget are those of the run, and no verdict is left behind (`Search.Search.Analyse`,
   `Search.OneRun`, `Search.ScoresFrom`, `Search.SearchRoot`). The best line it gives takes the first move of every
   expanded position and ends only where there is no search below. It closes loops up to mirrors, but the adjudicator
   does not: where no two positions share a key, a loop gets a verdict if and only if it comes back to the very
   position it started from (`LoopVerdicts.JudgedIffSame`, `LoopVerdicts.VerdictIffSame`, `LoopVerdicts.MirrorLoop`).
8. With n > 1 accepted replies the backed-up score is the rounded (3 best + 4 S / (n (n + 1))) / 5, where S is the sum
   of (n - i) s[i]; the other cases are said as plainly (`Score.BackUp`). With several accepted replies it lies in
   [best - 4, best] (`Score.BackupBound`). A lone reply is rounded twice. It gains one exactly at 97, 98 and 99, when
   u is below 0.118, 0.2 and 0.1, and loses one exactly at -97, -98 and -99, when u is at least 0.882, 0.8 and 0.9;
   everywhere else it never grows in absolute value (`Score.LoneReplyExact`, `Score.LoneReplyNeverGains`,
   `Score.LoneReplyBound`).
9. Over any game the chess board's key is the one computed afresh and its bitboards match its squares. Square by
   square and right by right it is said what a move leaves, castling included, without the functions the board uses
   (`ChessBoard.Chessboard.MakeMove`, `ChessRules.AfterFollows`); unmaking a move restores every field (`UnmakeMove`,
   `MakeAndUnmake`); four-field texts survive coding and decoding (`ChessHex.ChessRoundTrip`).

## Model

| member | source | states |
|---|---|---|
| `Geometry.PalaceSquares` | extensions/ccboard/xiangqi.cpp:102-113 | the palace squares of both sides, by number |
| `Geometry.AdvisorSquares` | extensions/ccboard/xiangqi.cpp:115-126 | the advisor points, by number |
| `Geometry.BishopSquares` | extensions/ccboard/xiangqi.cpp:128-139 | the bishop points, by number |
| `Geometry.PawnSquares` | extensions/ccboard/xiangqi.cpp:141-152 | where pawns can ever stand, by number |
| `Geometry.KnightJumps` | extensions/ccboard/xiangqi.cpp:263-268 | a knight jumps by 7, 11, 17 or 19 either way without leaving at the edge, and which neighbour is the leg of each jump |
| `Geometry.PawnSteps` | extensions/ccboard/xiangqi.cpp:910-950 | a pawn goes 9 squares on, and one aside once it is across the river |
| `Legality.Connect` | extensions/ccboard/xiangqi.cpp:1599-1671 | on the attacker's own line, `move_connect` holds exactly when the move leaves or enters the squares between attacker and king |
| `Legality.RefutesExact` | extensions/ccboard/xiangqi.cpp:1755-1915 | for a move of another piece out of a safe position: the pin, screen and leg tests name a square exactly when the piece there strikes the king after the move |
| `Legality.KingRefutesExact` | extensions/ccboard/xiangqi.cpp:1680-1754 | for a king step out of a safe position: the look-ups around the new square name a square exactly when the piece there strikes the king after the step |
| `Legality.RefutedIffUnsafe` | extensions/ccboard/xiangqi.cpp:1755-1915 | some test refutes the move if and only if the king is attacked or the kings face on the new board |
| `Legality.KingRefutedIffUnsafe` | extensions/ccboard/xiangqi.cpp:1680-1754 | the same for steps of the king |
| `Legality.LookIffUnsafe` | extensions/ccboard/xiangqi.cpp:1918-2077 | the new board is unsafe exactly when an attacker is seen with the moved blockers or the kings are seen to face, a king that is captured not counting as facing; captures of the king included |
| `Legality.StillStruck` | extensions/ccboard/xiangqi.cpp:1918-2077 | a king in check whose attacker is not taken stays attacked when the piece shielding it from the other king takes that king: refusing the capture is right |
| `Legality.FiltersDifferOutOfCheck` | extensions/ccboard/xiangqi.cpp:1918-2077 | out of check the slow filter would refuse such a capture although it is safe: an input |
| `Engine.Position.AnyConnected` | extensions/ccboard/xiangqi.cpp:1764-1775 | behind a mask test, the pop loop finds a connected attacker exactly when there is one |
| `Engine.Position.RankRefuted` | extensions/ccboard/xiangqi.cpp:1758-1816 | the rank branch answers the rank tests, both ways |
| `Engine.Position.FileRefuted` | extensions/ccboard/xiangqi.cpp:1817-1875 | the file branch answers the file tests, both ways |
| `Engine.Position.LegRefuted` | extensions/ccboard/xiangqi.cpp:1876-1886 | the leg branch answers the knight-leg test, both ways |
| `Engine.Position.ScreenRefuted` | extensions/ccboard/xiangqi.cpp:1887-1913 | the branch for quiet moves finds a cannon given a screen, both ways |
| `Engine.Position.KingMoveIsLegal` | extensions/ccboard/xiangqi.cpp:1680-1754 | a king step passes if and only if the position after it is safe |
| `Engine.Position.PieceMoveIsLegal` | extensions/ccboard/xiangqi.cpp:1755-1915 | any other move passes if and only if the position after it is safe |
| `Engine.Position.PseudoIsLegal` | extensions/ccboard/xiangqi.cpp:1673-1916 | out of check: the filter agrees with making the move and looking |
| `Engine.Position.PseudoIsLegalInCheck` | extensions/ccboard/xiangqi.cpp:1918-2077 | the slow filter accepts a move exactly when the position after it is safe, but that it refuses to take the other king down an open file; in check, with the kings not facing, it agrees with making the move and looking on every move |
| `Bitboards.OnlyOneBitExact` | extensions/ccboard/xiangqi.h:203-211 | ORing the halves takes a set for a single square exactly when it is one, or two squares 64 apart |
| `Bitboards.OnlyOneBitOnLine` | extensions/ccboard/xiangqi.h:203-211 | on one rank or file the test is exact |
| `Bitboards.PopFirst` | extensions/ccboard/xiangqi.h:252-270 | pops the least square |
| `CheckDetection.InCheckIffScanned` | extensions/ccboard/xiangqi.cpp:1439-1473 | a king is in check if and only if one of the look-ups from its square finds an attacker |
| `CheckDetection.FindsSound` | extensions/ccboard/xiangqi.cpp:2112-2341 | every attacker the incremental tests find does attack the king after the move |
| `CheckDetection.FindsComplete` | extensions/ccboard/xiangqi.cpp:2112-2341 | a check given by a move, if it is not one of the overlooked ones, is found by some test on the path taken |
| `CheckDetection.CheckBitExact` | extensions/ccboard/xiangqi.cpp:2111-2341 | if the other king was not in check before, the tests after a move fire exactly when it is in check on the new board and the move is not one that is overlooked; what is overlooked is a check |
| `CheckDetection.OverlooksAt` | extensions/ccboard/xiangqi.cpp:2112-2120 | when the kings face neither before nor after the move, nothing is overlooked |
| `CheckDetection.OverlooksARook` | extensions/ccboard/xiangqi.cpp:2112-2120 | the king branch looks only for cannons: an input where a king stepping aside uncovers its rook and no test fires |
| `Engine.Position.InCheck` | extensions/ccboard/xiangqi.cpp:1439-1473 | `in_check` computed from the bitboards is check by the rules |
| `Engine.Position.GivesCheck` | extensions/ccboard/xiangqi.cpp:2112-2341 | every path of the check detection returns the answer of the tests, with an attacker as witness |
| `Engine.Position.MoveAndLook` | extensions/ccboard/xiangqi.cpp:2079-2341 | moving the pieces and looking for check: the board is the applied one; if the other side was not in check, the answer is check on the new board, but for the moves overlooked |
| `Engine.Position.constructor` | extensions/ccboard/xiangqi.cpp:1285-1296 | an empty position whose five forms agree |
| `Engine.BitsAfterMove` | extensions/ccboard/xiangqi.cpp:2087-2107 | toggling from and to, and the captured square, turns the bitboards of a board into those of the board after the move |
| `Engine.CountsAfterMove` | extensions/ccboard/xiangqi.cpp:2099-2107 | the counts likewise |
| `Engine.BitsUnique` | extensions/ccboard/xiangqi.cpp:2079-2110 | the board determines all sixteen bitboards and counts, so agreeing with one board is having the same bitboards |
| `Hashing.KeyEdit` | extensions/ccboard/xiangqi.cpp:1424-1437 | changing one square changes the recomputed key by the two square keys |
| `Hashing.KeyOfMove` | extensions/ccboard/xiangqi.cpp:2343-2344 | the toggled key is the key of the new position, computed afresh |
| `Hashing.ToggledTwice` | extensions/ccboard/xiangqi.cpp:2347-2374 | toggling twice gives the key back |
| `History.Unpack` | extensions/ccboard/xiangqi.h:589-601 | packing a move and unpacking it gives the squares back |
| `History.MovesKeepPlaced` | extensions/ccboard/xiangqi.cpp:1349-1388 | pseudo-legal moves that take no king keep pieces on their points and one king a side |
| `History.KeyUnwinds` | extensions/ccboard/xiangqi.cpp:2347-2374 | with locked keys along the stack, undoing restores the key |
| `Engine.Position.MoveDo` | extensions/ccboard/xiangqi.cpp:2079-2346 | all five forms follow the applied move, the stack grows by its record, the key stays the recomputed one; if the other side was not in check, the check bit is check on the new board, but for the moves overlooked |
| `Engine.Position.MoveUndo` | extensions/ccboard/xiangqi.cpp:2347-2374 | the board of the record comes back in all five forms, the stack shrinks, the key is toggled back |
| `Engine.Position.DoAndUndo` | extensions/ccboard/xiangqi.cpp:2079-2374 | doing and undoing restores board, bitboards, counts, blockers, turn, key and stack |
| `Attacks.KingSteps` | extensions/ccboard/xiangqi.cpp:1010-1032 | king steps by fixed increments are exactly the steps within a palace |
| `Attacks.AdvisorSteps` | extensions/ccboard/xiangqi.cpp:993-1008 | advisor steps by fixed increments are exactly the diagonal steps between advisor points |
| `Attacks.BishopSteps` | extensions/ccboard/xiangqi.cpp:873-891 | bishop steps by fixed increments are exactly the two-square diagonals between bishop points with a free eye |
| `Generator.Destinations` | extensions/ccboard/xiangqi.cpp:4308-4396 | the look-up of each kind is the set of its pseudo-legal destinations |
| `Generator.PawnPairsAre` | extensions/ccboard/xiangqi.cpp:4397-4448 | shifting the pawn bitboard ahead, left and right, with file masks, gives exactly the pawn moves |
| `Generator.GenPawns` | extensions/ccboard/xiangqi.cpp:4397-4448 | the pawn moves are added, each once |
| `Generator.GenMoves` | extensions/ccboard/xiangqi.cpp:4300-4449 | the list holds each pseudo-legal move once and nothing else |
| `Generator.MoveIsPseudo` | extensions/ccboard/xiangqi.cpp:1498-1597 | the recogniser accepts a packed move if and only if it is pseudo-legal |
| `Generator.PassesFilter` | extensions/ccboard/xiangqi.cpp:4468-4484 | if the kings do not face, the filter chosen by `in_check` accepts exactly the legal moves |
| `Generator.GenLegals` | extensions/ccboard/xiangqi.cpp:4468-4484 | exactly the legal moves, each once, in every position whose kings do not face |
| `Rewinding.RewindStep` | extensions/ccboard/xiangqi.cpp:2391-2404 | going back one ply of the recorded line undoes the recorded move |
| `Rewinding.QuietStep` | extensions/ccboard/xiangqi.cpp:2377-2404 | a ply without capture is a move that can be played forwards and backwards |
| `Engine.Position.RepMoveDo` | extensions/ccboard/xiangqi.cpp:2377-2390 | the bare move on board, bitboards and blockers |
| `Engine.Position.RepMoveUndo` | extensions/ccboard/xiangqi.cpp:2391-2404 | the bare move back |
| `Rewinding.Replay` | extensions/ccboard/xiangqi.cpp:2653-2654 | replaying from where the rewinding stopped restores the board |
| `ChaseAttack.CannonsAttack` | extensions/ccboard/xiangqi.cpp:2714-2773 | taking the move back and making it again in place, the answer is whether some cannon attacks the square by the rules, on this board and the one before |
| `ChaseAttack.KnightsAttack` | extensions/ccboard/xiangqi.cpp:2775-2811 | the same for knights |
| `ChaseAttack.MoveAttackSq` | extensions/ccboard/xiangqi.cpp:2668-2869 | the answer is whether some piece of the mover attacks the square in a way that counts as a chase; the position is as it was |
| `Chase.OnePieceEach` | extensions/ccboard/xiangqi.cpp:2557-2591 | each flag says that the side gave no check and the other moved one piece on, since the key last stood |
| `Chase.OppRound` | extensions/ccboard/xiangqi.cpp:2593-2621 | one round: the flag stays exactly if the answer attacks the piece that moved and no legal capture before it was free |
| `Chase.CheckMoveCatch` | extensions/ccboard/xiangqi.cpp:2548-2666 | rewinding, breaking off early and replaying, each flag is whether the side chased a moving piece in every round; the position is as it was |
| `Chase.MeStaticCatch` | extensions/ccboard/xiangqi.cpp:3023-3080 | whether the piece on the square is chased in every round, and whether in some round as a rook that could not leave; the position is as it was |
| `Chase.OppStaticCatch` | extensions/ccboard/xiangqi.cpp:3082-3144 | the same for the opponent's chase |
| `Chase.GenStaticCap` | extensions/ccboard/xiangqi.cpp:2987-3021 | the captures open to the officers of a side |
| `Chase.TakesArePseudo` | extensions/ccboard/xiangqi.cpp:2987-3021 | they are the pseudo-legal captures of these officers |
| `Chase.LeastDecides` | extensions/ccboard/xiangqi.cpp:2911-2945 | of the squares left the least decides or goes: popping finds the first that stays chased |
| `Chase.CheckStaticCatch` | extensions/ccboard/xiangqi.cpp:2871-2985 | the static chases of both sides, of the first square that stays chased among those no one touched, combined with the flags so far; the position is as it was |
| `Chase.FirstBanIs` | extensions/ccboard/xiangqi.cpp:2911-2945 | the count of a side is that of the least square that stays chased |
| `Chase.CombineMeans` | extensions/ccboard/xiangqi.cpp:2946-2985 | a side that chases alone is banned alone; when both do, the chase of a rook that cannot leave decides, that of the side to move before the other's, and without one both are banned |
| `Chase.StaticSidesAgree` | extensions/ccboard/xiangqi.cpp:3023-3144 | the sides are treated alike: what is asked of the opponent's chase of a piece is what is asked of the mover's one ply earlier |
| `Chase.MovingSidesAgree` | extensions/ccboard/xiangqi.cpp:2593-2650 | the same for a piece that keeps moving |
| `Repetition.NthRepeatUnique` | extensions/ccboard/xiangqi.cpp:2492-2545 | there is at most one n-th repetition |
| `Repetition.FindRepeat` | extensions/ccboard/xiangqi.cpp:2492-2523 | the backward walk finds the n-th equal key at even distance within the capture-free suffix, if there is one, and the two all-checks flags |
| `Repetition.RepCheck` | extensions/ccboard/xiangqi.cpp:2492-2545 | a verdict is reached exactly at the n-th repetition in a history of at least 4n plies, and it is the one that the checks and, if they do not decide, the chases on the boards of the line give; the position is unchanged |
| `Repetition.ChasesDecide` | extensions/ccboard/xiangqi.cpp:2525-2541 | where no side checks all the time: both hunting a moving piece is a draw, a side that chases alone is banned, and when both chase, a pinned rook decides or it is a draw |
| `RuleCheck.CheckLine` | extensions/ccboard/ccboard.cpp:545-573 | a line that is verified is refused exactly when it is not legal; otherwise it is played, every stack entry tells the truth, and the verdict is the one the line calls for. On boards, for a legal line from a placed start whose side not to move is safe, with keys apart: there is a verdict exactly if the position stands for the n-th time; the side to move is banned if it alone gave check with every move since then, the other if that one alone did, and if both did it is a draw |
| `RuleCheck.ChecksAreReal` | extensions/ccboard/xiangqi.cpp:2492-2523 | in legal play all recorded check bits of a side are set if and only if all its moves gave check by the rules |
| `RuleCheck.RepeatsAreReal` | extensions/ccboard/xiangqi.cpp:2492-2523 | counting equal keys is counting occurrences of the position |
| `RuleCheck.RepetitionIsReal` | extensions/ccboard/xiangqi.cpp:2492-2523 | the n-th repetition by keys and captures is the n-th standing of the position on the boards of the line |
| `RuleCheck.VerdictOnBoards` | extensions/ccboard/xiangqi.cpp:2492-2545 | what decides by checks, stated on the boards of the line alone |
| `Symmetry.ImagesCompose` | extensions/ccboard/ccboard.cpp:293-449 | mirroring twice is mirroring by the product of the mirrors |
| `Symmetry.GroupLaws` | extensions/ccboard/ccboard.cpp:293-449 | each mirror is an involution, they commute, and LRBW is LR after BW |
| `Symmetry.PseudoMirrors` | extensions/ccboard/xiangqi.cpp:1498-1597 | a move is pseudo-legal exactly when its mirror image is |
| `Symmetry.ApplyMirrors` | extensions/ccboard/xiangqi.cpp:2079-2110 | making the mirrored move gives the mirrored board |
| `Symmetry.SafeMirrors` | extensions/ccboard/xiangqi.cpp:1439-1473 | safety is mirrored |
| `Symmetry.LegalMirrors` | extensions/ccboard/xiangqi.cpp:4468-4484 | a move is legal exactly when its mirror image is |
| `MoveText.GetMirrorMove` | extensions/ccboard/ccboard.cpp:491-544 | the character table applied to the first four characters |
| `MoveText.TextsCompose` | extensions/ccboard/ccboard.cpp:450-544 | the move mirrors form the same group |
| `MoveText.TextMirrors` | extensions/ccboard/ccboard.cpp:450-544 | the mirrored text of a move is the text of the mirrored move |
| `MoveText.TextInjective` | extensions/ccboard/xiangqi.cpp:384-418 | different moves have different texts |
| `MoveText.LessIs` | web/chessdb.php:312-316 | one text is less than another if and only if after some equal beginning it ends or has the lesser character |
| `Fen.ToFen` | extensions/ccboard/xiangqi.cpp:1298-1334 | the loop writes the ranks from the top with run lengths and the side to move |
| `Fen.Letters` | extensions/ccboard/xiangqi.cpp:355-368 | the letters of the seven kinds, capitals for White, as written and as read |
| `Fen.SecondNames` | extensions/ccboard/xiangqi.cpp:355-360 | E, G and H, and only they, are read as another letter is: as B, A and N |
| `Fen.RowReverses` | extensions/ccboard/ccboard.cpp:305-327 | the text of a reversed rank is the reversed text |
| `Fen.RowMirrors` | extensions/ccboard/ccboard.cpp:293-449 | reversing and recolouring rank texts is mirroring the board |
| `FenMirror.GetLRFen` | extensions/ccboard/ccboard.cpp:293-328 | the text with every rank reversed |
| `FenMirror.GetBWFen` | extensions/ccboard/ccboard.cpp:329-449 | the text with its ranks stacked in the other order, case swapped and the side exchanged, optionally with ranks reversed |
| `FenMirror.RowListMirrors` | extensions/ccboard/ccboard.cpp:293-449 | the ranks of the mirrored board are the mirrored ranks |
| `FenMirror.LRFen` | extensions/ccboard/ccboard.cpp:293-328 | the FEN of a position becomes the FEN of its left-right image |
| `FenMirror.BWFen` | extensions/ccboard/ccboard.cpp:329-449 | the FEN of a position becomes the FEN of its colour image |
| `FenReader.PutPiece` | extensions/ccboard/xiangqi.cpp:1389-1395 | a piece set down keeps all forms in agreement |
| `FenReader.ReadBoard` | extensions/ccboard/xiangqi.cpp:1342-1400 | any text: the loop reads what the reading function says; what is accepted keeps points and rations |
| `FenReader.FromFen` | extensions/ccboard/xiangqi.cpp:1336-1422 | any text: the position read, or a refusal, is the one the text stands for; an accepted position keeps every invariant |
| `FenReader.SecondNamesRead` | extensions/ccboard/xiangqi.cpp:1344-1398 | any text reads the same with E, G and H written as B, A and N |
| `FenReader.ReadsAlike` | extensions/ccboard/xiangqi.cpp:1344-1398 | a letter that names no piece reads as one empty square, and what is neither letter nor digit says nothing |
| `FenReader.TurnIsNamed` | extensions/ccboard/xiangqi.cpp:1399-1414 | it is the turn of the side named by the first of the letters W, R and B, whatever their case, W and R being White |
| `FenReader.ReadsBack` | extensions/ccboard/xiangqi.cpp:1298-1422 | the text that `to_fen` writes of a position stands for that position if its pieces stand on their points, with one king, at most five pawns and two of each other kind a side, and for none otherwise |
| `Extension.HasDoubled` | extensions/ccboard/xiangqi.cpp:1485-1494 | finds two pawns of a side one behind the other in their own half |
| `Extension.KingsFace` | extensions/ccboard/xiangqi.cpp:1477-1480 | finds the kings facing |
| `Extension.IsLegal` | extensions/ccboard/xiangqi.cpp:1475-1496 | accepts exactly the positions whose side not to move is safe and that have no doubled pawns |
| `Extension.MoveGen` | extensions/ccboard/ccboard.cpp:79-97 | any text: the texts of exactly the legal moves of the position it stands for, or none if it stands for none or `is_legal` refuses it |
| `Extension.MovesOfOwnText` | extensions/ccboard/ccboard.cpp:79-97 | from the text of a position itself these are the moves of that position |
| `Extension.ParseMove` | extensions/ccboard/xiangqi.cpp:395-446 | the text of a move is read back as the packed move |
| `Extension.MakeMove` | extensions/ccboard/ccboard.cpp:109-125 | any text that stands for a position, and a pseudo-legal move: the text of the position after it |
| `Commutes.PlayableMirrors` | extensions/ccboard/xiangqi.cpp:1336-1496 | the reader and `is_legal` accept a position exactly when they accept its images |
| `Commutes.GenerationCommutes` | extensions/ccboard/ccboard.cpp:79-97 | the moves of a mirrored text are the mirrored moves |
| `Commutes.MakingCommutes` | extensions/ccboard/ccboard.cpp:109-125 | making the mirrored move on the mirrored text gives the mirror of the result |
| `HexKey.EvenLength` | extensions/ccboard/ccboard.cpp:236-247 | the key has even length |
| `HexKey.Alphabet` | extensions/ccboard/ccboard.cpp:126-202 | the digits in order stand for the characters 1pabcnrk and PABCNRK, the digit 8 for a run |
| `HexKey.FirstKey` | extensions/ccboard/ccboard.cpp:203-249 | the key of the first position of a game, digit by digit |
| `HexKey.Encode` | extensions/ccboard/ccboard.cpp:203-249 | the loop writes the code of every rank and the side, made even |
| `HexKey.ReadsBack` | extensions/ccboard/ccboard.cpp:250-292 | reading from any point of the text gives the rest of the text, in spite of a final 0 dropped or added |
| `HexKey.RoundTrip` | extensions/ccboard/ccboard.cpp:203-292 | decoding the key gives the FEN back |
| `HexKey.DecodeKey` | extensions/ccboard/ccboard.cpp:250-292 | the loop reads what the decoding function says, on any input |
| `HexKey.BoardRanks` | extensions/ccboard/xiangqi.cpp:1298-1334 | every rank the engine writes is nine squares of codable characters |
| `HexKey.KeyInjective` | extensions/ccboard/ccboard.cpp:203-249 | different positions have different keys |
| `Store.LeastIndex` | web/chessdb.php:312-316 | an index of a least key |
| `Store.NamedCell` | extensions/ccboard/xiangqi.cpp:369-388 | the name of a square points at its cell in the FEN: the letter counts columns from the left, the digit ranks from below |
| `Store.Locate` | web/chessdb.php:430-443 | from a FEN text: the images are written, coded, compared, and the place is that of the position: its key is that of the image named by the index, and none of the images has a key before it in byte order |
| `Store.LeastOfOrbit` | web/chessdb.php:312-316 | the key of a place belongs to an image of the position and comes before that of every other image in byte order |
| `Store.SamePlace` | web/chessdb.php:312-316 | all images of a position have one place |
| `Store.OneOrbit` | web/chessdb.php:312-316 | positions stored at one key are images of one another |
| `Store.Rename` | web/chessdb.php:468-516 | each branch of the renaming computes the field of a move, on self-mirrored boards the lesser of two texts in byte order |
| `Store.FieldsAgree` | web/chessdb.php:468-516 | a move and its image, seen from the image position, have one field |
| `Store.NamesBack` | web/chessdb.php:317-429 | renaming a field gives the move back, or on self-mirrored boards the lesser of the move and its left-right mirror in byte order |
| `Store.FieldsDiffer` | web/chessdb.php:468-516 | moves share a field exactly when they share a name |
| `Store.ReservedField` | web/chessdb.php:328-329 | no move of a piece has the field `a0a0`, nor the name `ply` |
| `Store.ScoreStore.ScoreExists` | web/chessdb.php:444-467 | whether the field of the move is in the record |
| `Store.ScoreStore.UpdateScore` | web/chessdb.php:468-516 | the record is merged with the renamed updates, later ones winning |
| `Store.ScoreStore.UpdatePly` | web/chessdb.php:564-567 | the reserved field is written |
| `Store.ScoreStore.GetAllScores` | web/chessdb.php:317-429 | every field is read under its name, negated, final or not, and nothing else |
| `PlainScores.ScoreOfImage` | web/chessdb.php:444-467 | all images of a position show the same scores |
| `PlainScores.WritesShow` | web/chessdb.php:468-516 | a score written through any image shows at every image; moves not written keep theirs |
| `PlainScores.OthersKeepScores` | web/chessdb.php:468-516 | positions outside the orbit are unaffected |
| `PlainScores.StaysClean` | web/chessdb.php:468-516 | updates keep every record made of fields of moves |
| `PlainScores.ReadsScores` | web/chessdb.php:317-429 | what is read is the plain map negated; -30001 reads as a final 0; unscored moves are absent |
| `PlainScores.WriteThenRead` | web/chessdb.php:317-516 | one score written at a position is read, negated, at the mirrored move of any image, and other moves keep theirs |
| `PlainScores.PlyKeepsScores` | web/chessdb.php:564-567 | writing the reserved field changes no score |
| `PlainScores.PlyReads` | web/chessdb.php:328-329 | only the reserved field reads as the ply |
| `Ply.PlyField.Visit` | scripts/advance.php:313-347 | a visit lowers the byte of the side to move if the depth is less |
| `Ply.OneVisit` | scripts/advance.php:313-347 | one visit: the own depth becomes the lesser, the other side's stays |
| `Ply.DepthBack` | scripts/advance.php:318-332 | a byte gives the depth back exactly for White at even and Black at odd depths |
| `Ply.RunningMinimum` | scripts/advance.php:313-347 | over any run of visits each byte holds the least recorded depth of its side |
| `Ply.FieldIs` | scripts/advance.php:313-347 | after any run of visits the field is 256 times one more than half White's least depth, plus half Black's rounded up |
| `Ply.LeastAttained` | scripts/advance.php:313-347 | that least depth is the depth of a recorded visit |
| `Ply.LeastNotUndercut` | scripts/advance.php:313-347 | and no recorded visit of the side is shallower |
| `Score.RoundingKeepsBounds` | web/chessdb.php:252-262 | rounding either way keeps integer bounds |
| `Score.RoundsToNeighbour` | web/chessdb.php:252-262 | integers stay, anything else goes to a neighbour |
| `Score.RoundedIs` | web/chessdb.php:252-262 | what rounding gives is the one number that is a neighbour of x, x itself if an integer; from 3 on away from zero the upper one exactly when u is below the fraction, nearer the nearest |
| `Score.ThrottleBounds` | web/chessdb.php:263-285 | the threshold is less than ten below the best score, or is -50 |
| `Score.ThrottleIs` | web/chessdb.php:263-285 | the threshold as the solution of equations without divisions, piece by piece |
| `Score.WeightedMore` | web/chessdb.php:660-671 | adding up prefix sums weights the scores n, n - 1, ..., 1 |
| `Score.MeanLiesBetween` | web/chessdb.php:660-676 | the linear mean lies between the plain mean and the best score |
| `Score.DotIs` | web/chessdb.php:663-671 | the weighted sum is the sum of (n - i) s[i] |
| `Score.BackUp` | web/chessdb.php:656-689 | the loop computes the backed-up score, and what that is: with n > 1 accepted replies the rounded (3 best + 4 S / (n (n + 1))) / 5, S the sum of (n - i) s[i]; with one of several the rounded (4 best + t) / 5 below 50 and (13 best + 2 t) / 15 below 75, t the threshold; for a lone reply the sum of two rounded parts; a mate score as it is |
| `Score.BackedUpIs` | web/chessdb.php:656-689 | the same of the backed-up score as a function |
| `Score.TwoReplies` | web/chessdb.php:672-676 | of two accepted replies a and b it is (13 a + 2 b) / 15, rounded |
| `Score.BackupBound` | web/chessdb.php:663-676 | with two or more accepted replies the score lies in [best - 4, best], however it is rounded |
| `Score.SingleAcceptedBound` | web/chessdb.php:677-683 | with one accepted reply of several it lies in [best - 2, best] |
| `Score.LoneReplyBound` | web/chessdb.php:684-687 | a lone reply keeps its sign and gains at most one |
| `Score.LoneReplyExact` | web/chessdb.php:684-687 | a lone reply is rounded twice: above zero it gains exactly at 97, 98 and 99 when u is below 0.118, 0.2 and 0.1, below zero it loses exactly at the mirrored values |
| `Score.LoneReplyNeverGains` | web/chessdb.php:684-687 | it never grows in absolute value, whatever u is, if and only if it is not 97, 98 or 99 in absolute value |
| `Loops.ChainGrows` | web/chessdb.php:1344-1347 | a position unrelated to the line extends it to a longer simple chain |
| `Loops.FindLoop` | web/chessdb.php:1246-1282 | the image of the position on the line, if there is one; otherwise the line is unrelated to it |
| `Loops.WalkLoop` | web/chessdb.php:1440-1449 | the walk ends and gives exactly the moves from the earlier image to the position, which replay to it |
| `Loops.Collect` | web/chessdb.php:1454-1481 | the verdicts on all images of the position, mirrored to it |
| `Loops.OneCarrier` | web/chessdb.php:1454-1481 | at most one image carries verdicts |
| `Loops.InfoIs` | web/chessdb.php:1454-1481 | a move of the position has a verdict if and only if one of the images looked for carries it on the image of the move |
| `Loops.SettleDraws` | web/chessdb.php:1494-1502 | within a loop, drawing moves that score best are set to 0, nothing else changes |
| `Loops.SettleBans` | web/chessdb.php:1503-1520 | banned moves get the best permitted score; a verdict goes up when all moves are banned or the opponent is |
| `Search.BudgetKept` | web/chessdb.php:1221-1336 | strictly increasing entry values below the limit are at most `limit` many |
| `Loops.Settle` | web/chessdb.php:1482-1520 | scores and the verdict passed up are those the verdicts on the position call for |
| `Loops.SettledIs` | web/chessdb.php:1482-1520 | these scores and this verdict are unique |
| `Loops.SettledValues` | web/chessdb.php:1494-1511 | within a loop: a drawing move that scores best counts 0, and a move with verdict 2 the best of the moves without one, if there are any |
| `Loops.SameSideGoesUp` | web/chessdb.php:1503-1520 | the verdict passed up bans the same side as the verdicts here: the opponent if one of them does, else the side to move if all its moves are banned |
| `Search.Search.JudgeLoop` | web/chessdb.php:1440-1452 | the verdict on the loop hangs on the move that entered it, and all other verdicts stay |
| `Search.Search.ForgetLoops` | web/chessdb.php:1522-1530 | the verdicts on the position go, all others stay |
| `Search.Search.Expand` | web/chessdb.php:1335-1401 | each move is followed in turn: scores, tables, budget and time become those that following the moves gives; the line comes back as it was, and the best line takes the first move and goes on from it as far as the search below it does |
| `Search.ScoresFrom` | web/chessdb.php:1349-1385 | a score changes only for a move that is followed and not final: to the negated backed-up score of what the search below it returned, or to a win if it returned nothing and the reply is mated |
| `Search.AgedScores` | web/chessdb.php:1536-1547 | banned moves go; a score beyond ten thousand either way comes one nearer to zero, the others stay |
| `Search.MatesComeNearer` | web/chessdb.php:1354-1547 | a mate score found n plies below the best moves comes up n nearer to zero, in turn for the one side and the other |
| `Search.Search.Follow` | web/chessdb.php:1344-1353 | down one move and back: the replies are the scores of the run below, and the verdict it passes up, if any, is recorded on the move; nothing else changes, and the best line is complete below the move |
| `Search.Search.VisitNew` | web/chessdb.php:1284-1533 | with t the tables once all moves are followed: the verdicts settled are those t holds on the position and its images; they go and pass up what they call for, or the position is finished |
| `Search.Search.VisitAgain` | web/chessdb.php:1438-1520 | a position met again is judged on exactly the loop that led back to it, and its scores are those the verdicts on it settle |
| `Search.Search.Analyse` | web/chessdb.php:1162-1550 | terminates without a depth limit and computes the run of its tree: scores, tables, budget, time and the verdict passed up; the line is restored, verdicts hang on it only; the best line takes the first move of each expanded position and ends only where that move is final, where the search below stops or closes a loop, or where there is no move |
| `Search.OneRun` | web/chessdb.php:1162-1550 | the tree is determined by where the search starts: it stops when the budget is used up or the position is finished, closes a loop with an image on the line, and else follows every move |
| `Search.FinishedIs` | web/chessdb.php:1221-1243 | a position counts as finished if and only if an image of it is |
| `Search.StaysComplete` | web/chessdb.php:1335-1348 | the moves after the first leave a complete best line complete |
| `Search.SearchRoot` | web/chessdb.php:1162-1550 | a whole search returns the scores of its run; both tables are empty after it, at most `enumlimit` positions were expanded, and the best line is one line of play and complete: it takes the first move of each expanded position and ends only where that move is final, the search below stops or closes a loop, or there is no move |
| `Search.LineSpreads` | web/chessdb.php:1335-1348 | the positions along the best line are expanded and no two are images of one another |
| `LoopVerdicts.JudgedIffSame` | web/chessdb.php:1440-1452 | with different keys for the different positions of the loop, the adjudicator gives it a verdict if and only if it closes on the very position it started from, and then by the whole loop |
| `LoopVerdicts.VerdictIffSame` | web/chessdb.php:1450-1452 | so the search hangs a verdict on exactly these loops; one that closes on a mirror image changes nothing |
| `LoopVerdicts.MirrorLoop` | web/chessdb.php:1246-1282 | there are such loops: two moves that lead to the left-right image |
| `LoopVerdicts.LoopStatus` | extensions/ccboard/ccboard.cpp:545-573 | reading the start, playing the loop and adjudicating: the status is positive if and only if the loop closes on its start; it is then 2 if only the first mover gives check with every move of the loop, 3 if only the other does, and 1 if both do |
| `RankTables.RookRankScan` | extensions/ccboard/xiangqi.cpp:789-806 | the scan finds the squares up to and including the first blocker |
| `RankTables.CannonRankScan` | extensions/ccboard/xiangqi.cpp:831-854 | the scan finds the squares behind exactly one blocker |
| `RankTables.RookFileScan` | extensions/ccboard/xiangqi.cpp:772-788 | the same along a file |
| `RankTables.CannonFileScan` | extensions/ccboard/xiangqi.cpp:808-830 | the same along a file |
| `RankTables.IxToBb` | extensions/ccboard/xiangqi.cpp:701-723 | the numbered subset of a mask |
| `RankTables.SubsetOfIndex` | extensions/ccboard/xiangqi.cpp:701-723 | every subset of the mask has a number |
| `RankTables.IndexOfSubset` | extensions/ccboard/xiangqi.cpp:701-723 | and only one |
| `RankTables.RankIndexIs` | extensions/ccboard/xiangqi.h:740-740 | shift and mask give the number of the occupied middle squares |
| `RankTables.MaskedRank` | extensions/ccboard/xiangqi.cpp:1200-1218 | the ends of a rank, and all other ranks, never matter |
| `RankTables.RankTables.FillSquare` | extensions/ccboard/xiangqi.cpp:647-655 | one square's entries are filled for all 128 occupancies, the others untouched |
| `RankTables.RankTables.constructor` | extensions/ccboard/xiangqi.cpp:642-657 | the filled tables hold the scan of every occupancy |
| `RankTables.RankTables.RookRankAttack` | extensions/ccboard/xiangqi.h:738-742 | the look-up equals the scan of the unmasked board |
| `RankTables.RankTables.CannonRankAttack` | extensions/ccboard/xiangqi.h:744-748 | the look-up equals the scan of the unmasked board |
| `ChessKey.BoardKeyEdit` | extensions/cboard/chess.hpp:2549-2557 | filling an empty square toggles its key in the recomputed board key |
| `ChessKey.PieceToggles` | extensions/cboard/chess.hpp:2549-2569 | setting a piece down or picking it up toggles its key in the whole key |
| `ChessKey.EpToggles` | extensions/cboard/chess.hpp:2559-2560 | gaining or losing the en passant square toggles its file key |
| `ChessKey.RightToggles` | extensions/cboard/chess.hpp:1670-1690 | losing one castling right toggles the entry of that right |
| `ChessKey.RightsSwap` | extensions/cboard/chess.hpp:2045-2048 | taking the old rights entry out and putting the new one in is changing the rights |
| `ChessKey.SideToggles` | extensions/cboard/chess.hpp:2562-2563 | passing the move toggles the side key |
| `ChessKey.BareKey` | extensions/cboard/chess.hpp:2549-2569 | on an empty board: White to move shows as the side key, Black not at all, the en passant square by its file, the four rights in their order |
| `ChessBoard.BitsUnique` | extensions/cboard/chess.hpp:2873-2875 | the board determines the bitboards |
| `ChessBoard.Chessboard.RemovePiece` | extensions/cboard/chess.hpp:2889-2903 | a piece comes off in mailbox and bitboards |
| `ChessBoard.Chessboard.PlacePiece` | extensions/cboard/chess.hpp:2905-2919 | a piece goes down in mailbox and bitboards |
| `ChessBoard.Chessboard.KingSq` | extensions/cboard/chess.hpp:2300-2303 | the square of the king |
| `ChessBoard.Chessboard.ComputeKey` | extensions/cboard/chess.hpp:2549-2569 | the loop over the occupied squares computes the key of the position |
| `ChessBoard.Chessboard.Capture` | extensions/cboard/chess.hpp:2027-2042 | the captured piece goes, with the right of a rook taken on its square; the key follows |
| `ChessBoard.Chessboard.MoverRights` | extensions/cboard/chess.hpp:2044-2056 | the mover loses the rights its king or rook gives up; the key follows |
| `ChessBoard.Chessboard.PushEp` | extensions/cboard/chess.hpp:2060-2103 | the square behind a double push is recorded exactly when an enemy pawn stands beside and, if asked, could take; the trial move is taken back |
| `ChessBoard.Chessboard.Castle` | extensions/cboard/chess.hpp:2106-2127 | king and rook change places, also when their squares overlap; the key follows |
| `ChessBoard.Chessboard.MovePieces` | extensions/cboard/chess.hpp:2106-2156 | the pieces move as the kind of move says; the key follows |
| `ChessBoard.KingsKept` | extensions/cboard/chess.hpp:2010-2160 | a move leaves each side its one king |
| `ChessRules.MovedCells` | extensions/cboard/chess.hpp:2110-2156 | square by square: after castling the king is on the g file and the rook on the f file if the rook was to the right, else on c and d; any other man, or what it is promoted to, stands on its target; the squares left, and that of a pawn taken in passing, are empty; all others are as before |
| `ChessRules.RightsFit` | extensions/cboard/chess.hpp:2035-2056 | right by right: lost if and only if the king moves, the rook of that wing leaves the square of the right, or it is taken there |
| `ChessRules.EpIs` | extensions/cboard/chess.hpp:2058-2103 | the square passed over is recorded if and only if a pawn went two rows and an enemy pawn stands next to its target and, if asked, may take |
| `ChessRules.AfterFollows` | extensions/cboard/chess.hpp:2010-2160 | the position after a move follows from the one before it by these three and the turn |
| `ChessBoard.Chessboard.MakeMove` | extensions/cboard/chess.hpp:2010-2160 | bitboards, key and kings stay right; board, turn, en passant square and rights follow square by square and right by right from those before; clock and counter run on; the old state is pushed |
| `ChessBoard.Chessboard.UnmakeMove` | extensions/cboard/chess.hpp:2162-2233 | undoing the move that led from a position gives that position back |
| `ChessBoard.Chessboard.MakeAndUnmake` | extensions/cboard/chess.hpp:2010-2233 | making and unmaking restores every field |
| `ChessHex.ReadsBoard` | extensions/cboard/cboard.cpp:797-826 | reading from any point of the coded board gives the rest of the board text and leaves the trailer |
| `ChessHex.ReadsCastling` | extensions/cboard/cboard.cpp:838-851 | the coded castling field, escapes included, reads back to the blank |
| `ChessHex.ReadsEp` | extensions/cboard/cboard.cpp:852-861 | the last field reads back whole, without its final 0, and with one more |
| `ChessHex.BoardAlphabet` | extensions/cboard/cboard.cpp:575-650 | the digits in order stand for 123pnbrq and kPNBRQK, the digit 8 for a run of four to eight |
| `ChessHex.ExtraAlphabet` | extensions/cboard/cboard.cpp:651-727 | castling and en passant characters have a digit each, an inner rook an e and the digit of its file |
| `ChessHex.ChessRoundTrip` | extensions/cboard/cboard.cpp:729-864 | decoding the key gives the four fields back; the key has even length |
| `ChessHex.ChessKeysDiffer` | extensions/cboard/cboard.cpp:729-788 | different texts have different keys |
| `ChessHex.EncodeChess` | extensions/cboard/cboard.cpp:729-788 | the loops write the code of board, side, castling and en passant, made even |
| `ChessHex.DecodeChess` | extensions/cboard/cboard.cpp:789-864 | the loops read what the decoding function says |

## Left out

- Redis, Memcache, the queue server, HTTP and JSON: a record store is a map, and a failing server is not modelled.
- `hex2bin` on storage keys: keys are kept as their hexadecimal texts, which have even length.
- The 64-bit words of a bitboard: bitboards are sets of squares; only the merged-halves test and the rank index use bit
  positions.
- The magic multipliers of the file, knight and bishop tables, and the values of the Zobrist and step tables: those
  attacks are given by the scans, and the key table is an arbitrary function.
- Hash collisions: repetition is about keys; `RuleCheck.RepetitionIsReal` carries it to boards under the assumption
  that no two different positions of the line share a key.
- The questions the chase rules ask of one board: pinning, protection and the moves of the chaser are arbitrary
  functions of the board in `ChaseAttack.ChaseRules`, so the results hold whatever these functions are.
- The limit of the move list: the list is unbounded.
- `Generator.GenLegals`: asks that the kings do not face, which `ccbmovegen` tests first with `is_legal`.
- `RuleCheck.CheckLine`: without `verify` the caller vouches that the moves are pseudo-legal and take no king, as the
  search does with moves it has made itself; with `verify` it asks that the kings do not face at the start and that
  the first move, if legal, takes no king.
- `Extension.MakeMove`: asks for a pseudo-legal move that takes no king; other move texts are outside its contract.
- `HexKey.DecodeKey`: a malformed key, one whose digit 8 is not followed by a digit from 1 to 8, makes the code step
  outside its squares or its text; the model reads such an 8 as one square.
- The order in which PHP arrays are walked: maps have no order, and the order in which the search follows moves is
  arbitrary.
- Scores read during a search: in `Search` the stored scores, the backed-up scores and the adjudication are arbitrary
  functions of the position and of time, so the results hold whatever the store returns; `Score` and `RuleCheck`
  treat those computations, and `LoopVerdicts` puts the adjudication in. Queue pushes, learning and statistics are not
  part of the search model.
- Floating-point error in the score backup: it is modelled over `real`, with `exp(-y)` any function into (0, 1].
- `scripts/advance.php` keeps `boardtt` by hash and stops at depth 500 instead of counting; its loop handling is that
  of `getAnalysisPath`, which is the one modelled.
- `ChessBoard.Chessboard.MakeMove`: asks for what the board asserts of a move, not for full legality; chess move
  generation, FEN reading and printing are not part of this model, and `isEpSquareValid` is any function of the board.
- `ChessHex.EncodeChess`: texts in normal form, where a rook on an outer file is named by its wing; `A` and `H` as
  castling tokens have no code. `ChessHex.DecodeChess` stops at the end of a malformed key, where the code runs past it.
- The chess store, search and mirrors (`web/cdb.php`, `cbgetBWfen`, `cbgetBWmove`): a two-image version of the xiangqi
  store and search modelled here.
