# goat: a verified model of the game library and its statistics

goat ("Go Analysis Tool") builds a library of professional Go games from
SGF files and computes statistics over the final positions and move
sequences of those games. This project models the core of that program in
Dafny and proves properties of the model:

- **Import** (`goat/library.py`). `find_games` classifies files by
  extension. `filter_game_header` runs five ordered checks on an SGF root
  node (rules, handicap, result, ranks, board size) and counts the first
  one that fails in the skip dictionary. `import_sources` is the loop that
  parses, filters, de-duplicates and copies games, and stops at the game
  quota.
- **Games and boards** (`goat/gogame.py`). `_gameid` builds the
  twelve-character identifier of a game from six probed moves. `play`
  replays a game into one (move, board) pair per move. `Board` wraps a
  gomill board with `get`, `set`, `points` and `ascii`.
- **Statistics hooks** (`goat/calcs.py`):
  - `board_points` is the table of every point with its on-board neighbours.
  - `StoneCountCenterPoint` holds the square perimeters around a reference point.
  - `StonesPerSquare.gameover` counts cumulative stones per square.
  - `MoveHistogram` gives moves per game and survivors.
  - `TimeLine` gives stones and captures per move.
  - `LibertiesPerMove` gives liberty counts per move and their per-move aggregate.
  - `Territories` groups empty points into regions.
- **ASCII rendering** (`goat/ascii.py`): `render_grid` and `render_board`.
- **The survey script** (`go/main.py`). Its `main` samples every tenth game
  of the right size with more than fifty plays, up to 3000 games, and feeds
  each one to its own `StonesPerSquare` hook. That variant counts the
  centre like a corner.

Code the source writes as expressions becomes Dafny functions and lemmas.
Objects whose methods update fields become classes:
- `SkipTable`, `MoveHistogram`, `TimeLine`, `LibertiesPerMove` and `Territories`;
- `StoneCountCenterPoint` and both `StonesPerSquare` hooks;
- `Game` and `Board`.

Each loop of the source is a method with invariants. Each method is proved
against a specification function, and the properties are proved about that
function.

Python 2 semantics are written out where they matter:
- `/` on integers is floor division, so the liberty average truncates.
- `int()` and `float()` are modelled as the text predicates `IntText` and
  `FloatText`. They accept blanks around the number and a sign, and `float()`
  also accepts `inf` and `nan`.
- Negative indices wrap in `Board.get` and `Board.set`.
- `os.path.splitext` keeps a leading dot in the base name.
- `get("RU") == "AGA"` is compared with the case kept.

The modules are:
- the shared ones: `Wrappers`, `Text`, `PyNumbers`, `Grid`, `Geometry`;
- library.py: `HeaderFilter`, `Importer`;
- gogame.py: `GoGame`;
- calcs.py: `Density`, `Histogram`, `Timeline`, `Liberties`, `Territory`;
- ascii.py: `Ascii`;
- go/main.py: `GoMain`.

The `Territories` hook reads as if it partitioned the empty points into
connected regions. It does not. The code as written can put one point into
two regions, and can list a point twice in one region.
`Territory.RegionsNotPartition` shows both on a 3x3 board. The model follows
the code and proves what does hold: every region is empty and connected,
and every empty point is in some region. Its `gameskip` flag is true for
every game whose RU is NOT "AGA". So the only games it scans are those with
AGA rules, never the Japanese-rules games the importer keeps. The model
keeps the code's test (`Territory.Territories.GameStart`,
`Importer.AcceptedPassed`).

## Model

| member | source | states |
|---|---|---|
| Text.Split | goat/library.py:168 | `str.split` always yields at least one field |
| Text.SplitNoSep | goat/library.py:168 | a text without the separator splits into itself alone |
| Text.SplitAfterField | goat/library.py:168 | the first field ends at the first separator |
| Text.SplitJoin | goat/ascii.py:38 | splitting a join of separator-free parts gives the parts back |
| Text.JoinLength | goat/ascii.py:19-20 | a join of equal-width parts has width parts*w plus the separators |
| Text.JoinLast | goat/ascii.py:38 | a join ends with the last character of its last part |
| Text.Lower | goat/library.py:157 | `lower()` keeps the length and maps every character |
| Text.Decimal | goat/ascii.py:9 | `%d` yields a non-empty run of digits |
| Text.DecimalWidth | goat/ascii.py:9-16 | one digit below 10, two below 100 |
| PyNumbers.SkipBlanks | goat/library.py:185 | `int()` skips exactly the leading whitespace |
| PyNumbers.TrimBlanks | goat/library.py:185 | `int()` drops exactly the trailing whitespace |
| PyNumbers.IntDigits | goat/library.py:185 | the digit run after an optional sign lies within the text |
| PyNumbers.DigitRun | goat/library.py:174 | the maximal run of digits from a position |
| PyNumbers.DecimalValue | goat/library.py:185 | the digits of `%d` of n have value n |
| PyNumbers.IntRoundTrip | goat/library.py:185 | `int("%d" % n) == n`, and `float()` also accepts that text |
| PyNumbers.IntAccepts | goat/library.py:185 | `int()` reads "9", and reads "- 5" as -5, since Python 2 allows blanks after the sign |
| PyNumbers.IntRejects | goat/library.py:185 | `int()` refuses "", "-" and "1.5" |
| PyNumbers.IntPrefix | goat/library.py:185 | the level of "10d" is 10, and of " 7 d" is 7 |
| PyNumbers.FloatAccepts | goat/library.py:174 | `float()` reads "0.5", "5." and ".5" |
| PyNumbers.FloatAcceptsExponent | goat/library.py:174 | `float()` reads "1e3" and " 2 " |
| PyNumbers.FloatAcceptsSigned | goat/library.py:174 | `float()` reads "-2.5e-1" |
| PyNumbers.FloatWords | goat/library.py:174 | `float()` reads "inf" and "NaN" |
| PyNumbers.FloatWordSigned | goat/library.py:174 | `float()` reads "-Infinity" |
| PyNumbers.FloatRejects | goat/library.py:174-178 | "", "." and "e5" raise ValueError, which counts as a result fault |
| PyNumbers.FloatRejectsBareExponent | goat/library.py:174-178 | "1e" raises ValueError |
| PyNumbers.FloatRejectsHex | goat/library.py:174-178 | "0x10" raises ValueError |
| PyNumbers.FloatRejectsSpacedSign | goat/library.py:174-178 | `float()` refuses "- 5", unlike `int()` |
| PyNumbers.FloatRejectsWords | goat/library.py:174-178 | "5 points" and "in" raise ValueError |
| HeaderFilter.LevelEnd | goat/library.py:185 | `rank[:-1]` stays within the rank |
| HeaderFilter.RankFault | goat/library.py:185-191 | a rank's only faults are Rank (no integer level) and NoPro |
| HeaderFilter.RankFaultNone | goat/library.py:185-186 | a rank passes exactly when its level is an integer and its grade is p, or d with a level of at least 6 |
| HeaderFilter.Verdict | goat/library.py:153-198 | every refusal is one of the filter's six reasons |
| HeaderFilter.PassesExactly | goat/library.py:153-198 | a header passes exactly when it has Japanese rules, no HA, a result by points or with no margin given, two professional or 6-dan-plus ranks, and the configured size |
| HeaderFilter.MissingRankFirst | goat/library.py:184 | both ranks are looked up first, so a missing WR is a rank fault even when BR is below professional |
| HeaderFilter.HandicapAnyValue | goat/library.py:161-164 | any HA property refuses the game once the rules pass, whatever its value |
| HeaderFilter.SizeLast | goat/library.py:193-196 | a Size refusal means every other check passed, and the reverse |
| HeaderFilter.PassedNotAga | goat/library.py:157 | a header that passes has RU, and it is never "AGA" |
| HeaderFilter.CounterFor | goat/library.py:187-190 | a NoPro refusal bumps 'rank' exactly when the table has no 'nopro' key |
| HeaderFilter.ImportCounterExists | goat/library.py:88-97 | under the import table every refusal has a counter, and NoPro uses 'rank' |
| HeaderFilter.SkipTable.constructor | goat/library.py:88-97 | the table holds the given counters |
| HeaderFilter.SkipTable.Bump | goat/library.py:158 | `skip[key] += 1` and nothing else changes |
| HeaderFilter.SkipTable.Refuse | goat/library.py:186-191 | one refusal bumps its counter, or 'rank' for a missing 'nopro' |
| HeaderFilter.Bumped | goat/library.py:186-191 | keeps the keys, raises exactly one counter by one, leaves the others |
| HeaderFilter.CheckRanks | goat/library.py:183-191 | checks BR then WR; accepts exactly when neither has a fault; otherwise bumps the first fault's counter once |
| HeaderFilter.FilterGameHeader | goat/library.py:153-198 | returns true exactly when Verdict finds no fault; otherwise bumps the first failed check's counter once, and on a pass changes nothing |
| Importer.LastBefore | goat/library.py:69 | the last occurrence of a character before a position, or -1 |
| Importer.NotAllDots | goat/library.py:69 | true exactly when some character in the range is not a dot |
| Importer.SplitExt | goat/library.py:69 | `splitext` on POSIX: the two parts concatenate to the path; the extension is non-empty exactly when some dot qualifies (it is the last dot, no '/' follows it, and a character other than a dot precedes it in the last path component), and then it starts at that dot |
| Importer.Extension | goat/library.py:69 | the lowercased text after the qualifying dot, or empty when no dot qualifies |
| Importer.SplitExtAt | goat/library.py:69 | the extension starts at the last dot when the name does not start with one |
| Importer.Classify | goat/library.py:66-80 | a game exactly when the lowercased extension is sgf; an archive exactly when it is zip, gz or bz2 |
| Importer.ClassifyUpperCase | goat/library.py:69-71 | "game.SGF" is a game |
| Importer.ClassifyLastDot | goat/library.py:69-74 | "games.tar.gz" is an archive |
| Importer.ClassifyLastDotOther | goat/library.py:69-74 | "x.sgf.txt" is neither |
| Importer.ClassifyNoExtension | goat/library.py:69 | ".sgf", "..sgf" and "sgf" have no extension |
| Importer.ClassifyDirectoryDot | goat/library.py:69 | "games.sgf/readme" is neither: a dot in a directory name does not count |
| Importer.ClassifyHiddenInDirectory | goat/library.py:69 | "games/.sgf" is neither: the leading dot of the last component does not count |
| Importer.ClassifyInDirectory | goat/library.py:69-72 | "games/x.sgf" is a game |
| Importer.InitialSkip | goat/library.py:88-97 | the eight counters, all zero, with no 'nopro' |
| Importer.Load | goat/library.py:117-143 | an accepted load adds one game and its id and leaves the counters alone; a refused one adds nothing |
| Importer.Step | goat/library.py:99-143 | one file more; an accepted one adds one game and its id and no skip; otherwise games and library stay the same |
| Importer.RunAt | goat/library.py:99-143 | the loop from file k takes one step, then either stops or goes on |
| Importer.LoadChecks | goat/library.py:117-135 | accepts exactly when the moves load, the id is new and there are more than 50 plays; the counters become those of Load |
| Importer.ProcessFile | goat/library.py:106-135 | accepts exactly when the file is Accepted; the counters become those of Step |
| Importer.ImportOne | goat/library.py:100-141 | one pass of the loop: the new counters, library and totals are Step's |
| Importer.ImportSources | goat/library.py:83-143 | the totals, counters and library after the loop equal Run from the empty state |
| Importer.StepBalanced | goat/library.py:99-135 | each pass keeps files == games + the sum of the skip counters |
| Importer.RunBalanced | goat/library.py:99-143 | every file processed is either imported or counted exactly once |
| Importer.RunLibrary | goat/library.py:125-141 | the library only grows, by one new id per imported game, each id offered by some file; so no game is imported twice |
| Importer.RunQuota | goat/library.py:141-143 | a positive quota is never exceeded, and only a reached quota leaves files unread |
| Importer.RunUnlimited | goat/library.py:142 | with no quota every file is read |
| Importer.DuplicateBeforeFewMoves | goat/library.py:125-135 | a game already in the library counts as a duplicate whatever its number of moves |
| Importer.StepPassed | goat/library.py:114-123 | a header that passes goes on to the load checks |
| Importer.BumpedNoPro | goat/library.py:186-190 | under the import table a NoPro refusal raises the 'rank' counter |
| Importer.StepRefused | goat/library.py:113-115 | a refused header bumps the counter of its reason and nothing else |
| Importer.AcceptedPassed | goat/library.py:114 | every imported game has Japanese rules, no handicap, the board size, and rules other than "AGA" |
| Importer.EmptyRunDivides | goat/library.py:150 | with no files the final percentage divides by zero |
| Importer.ImportedPercentBounds | goat/library.py:150 | after any run, the corrected percentage is between 0 and 100 |
| Importer.SkippedNonNegative | goat/library.py:88-143 | the counters never go negative |
| Grid.CountIsCard | goat/calcs.py:282-285 | counting a colour along distinct points gives the size of the set of those stones |
| Grid.WithColourSnoc | goat/calcs.py:282-285 | one more distinct point adds its stone, if any, to the set |
| Grid.CountAppend | goat/calcs.py:280-288 | counting along two lists in a row adds the two counts |
| Geometry.NeighboursInOrder | goat/calcs.py:40-46 | the neighbours are left, right, below and above, each kept only when on the board |
| Geometry.BoardPoints | goat/calcs.py:33-48 | the table has one entry per point, row by row, each with its on-board neighbours in order |
| Geometry.NeighboursExact | goat/calcs.py:40-46 | a point is listed exactly when it is on the board and orthogonally adjacent; no point is listed twice |
| Geometry.OnBoardFacts | goat/calcs.py:44-46 | the filter keeps exactly the on-board candidates, in order, with no repeats |
| Geometry.NeighbourSymmetric | goat/calcs.py:40-46 | neighbourhood is symmetric |
| Geometry.TableEntry | goat/calcs.py:37-47 | entry k of the table is the point (k / size, k % size) with its neighbours |
| Geometry.TablePoints | goat/calcs.py:167 | the points of the table, in order |
| Geometry.BoardSetMembers | goat/calcs.py:37-38 | the set of all points of the board |
| Geometry.TableCoversBoard | goat/calcs.py:33-48 | the table lists every point of the board exactly once and nothing else |
| Geometry.SquarePerimeterPoints | goat/calcs.py:467-491 | the on-board points at Chebyshev distance exactly d, each once |
| Geometry.PerimetersDisjoint | goat/calcs.py:463-465 | different perimeters share no point |
| Geometry.PerimetersCover | goat/calcs.py:463-465 | every point of the board lies on the perimeter of its distance |
| Geometry.StoneCountCenterPoint.constructor | goat/calcs.py:455-465 | keeps the point and label; corner exactly when both coordinates are at a limit; perimeter d is the ring at distance d, for every d below size |
| Geometry.StoneCountCenterPoint.ClearGames | goat/calcs.py:245-250 | the five game lists become empty |
| Density.CumulativeAt | goat/calcs.py:280-288 | entry k of a corner's list is the count over the first k+1 perimeters |
| Density.HalvedAt | goat/calcs.py:289-301 | entry k of the centre's list is the count over the first k/2+1 perimeters |
| Density.HalvedStepEven | goat/calcs.py:290-297 | an even entry adds perimeter i/2 to the running count |
| Density.HalvedStepOdd | goat/calcs.py:298-301 | an odd entry repeats the one before it |
| Density.TallyMono | goat/calcs.py:280-301 | the count only grows with more perimeters |
| Density.NearSplit | goat/calcs.py:280-288 | the stones within distance n are those within n-1 plus those on ring n-1, which are disjoint |
| Density.TallyNear | goat/calcs.py:280-301 | summing the first n perimeters counts exactly the stones of a colour within distance n-1 |
| Density.NearAll | goat/calcs.py:463-465 | the square of side size around an on-board point covers all stones |
| Density.CumulativeMono | goat/calcs.py:280-288 | a corner's list has one entry per perimeter and never decreases |
| Density.HalvedMono | goat/calcs.py:289-301 | the centre's list has one entry per perimeter and never decreases |
| Density.CountsShape | goat/calcs.py:280-301 | stones equals blacks plus whites, entry by entry, and all three never decrease |
| Density.CornerCounts | goat/calcs.py:280-288 | a corner's entry d counts the stones within distance d; its last entry counts all stones |
| Density.CentreCounts | goat/calcs.py:289-301 | the centre's entry d counts the stones within distance d/2; odd entries repeat; on an odd board the last entry counts all stones |
| Density.CentreSpan | goat/calcs.py:242 | on an odd board the middle point's square of half-size covers the board |
| Density.AddStones | goat/calcs.py:282-285 | adds the blacks and whites of one perimeter to the running counts |
| Density.CornerRun | goat/calcs.py:280-288 | the corner loop computes AreaCounts with corner set |
| Density.CentreRun | goat/calcs.py:289-301 | the centre loop computes AreaCounts with corner unset |
| Density.Record | goat/calcs.py:273-311 | appends one game's three lists, and the winner's and loser's lists, to a reference point |
| Density.StonesPerSquare.constructor | goat/calcs.py:234-250 | five reference points (four corners and the centre), with their perimeters and empty game lists |
| Density.StonesPerSquare.GameOver | goat/calcs.py:252-311 | a discarded game changes nothing; otherwise every reference point gets one more list of each kind, and games goes up by one |
| Histogram.Insert | goat/calcs.py:115 | inserting into a sorted list keeps it sorted and adds exactly that element |
| Histogram.Sort | goat/calcs.py:115 | `list.sort()`: sorted, and a permutation of its input |
| Histogram.SeqMax | goat/calcs.py:134 | `max` is an upper bound that occurs in the list |
| Histogram.CountAboveSplit | goat/calcs.py:131-138 | on a sorted list, the games left after m moves are those past the split point |
| Histogram.CountAboveMono | goat/calcs.py:131-138 | the games left never increase with m |
| Histogram.CountAboveNone | goat/calcs.py:131-138 | no game is left beyond the longest |
| Histogram.SurvivorsShape | goat/calcs.py:131-138 | the survivors curve is non-increasing and reaches 0 at the longest game |
| Histogram.Survivors | goat/calcs.py:131-138 | one entry per m from 0 to the maximum; entry m is the number of games with more than m moves |
| Histogram.MoveHistogram.constructor | goat/calcs.py:92-95 | no games, no moves, an empty list |
| Histogram.MoveHistogram.GameStart | goat/calcs.py:97-98 | resets the move count |
| Histogram.MoveHistogram.Move | goat/calcs.py:100-101 | counts one move |
| Histogram.MoveHistogram.GameOver | goat/calcs.py:103-111 | a discarded game changes nothing; otherwise the game's moves join the list, which is sorted every 2000 games; the list is always a permutation of the games' moves |
| Histogram.MoveHistogram.End | goat/calcs.py:113-138 | sorts the list in place and returns the survivors curve |
| Timeline.CountStones | goat/calcs.py:165-170 | the blacks and whites along the table |
| Timeline.TableCount | goat/calcs.py:165-170 | the count over the table is the number of stones of that colour on the board |
| Timeline.Captures | goat/calcs.py:172-180 | the mover's own colour never counts as captured, and a pass captures nothing |
| Timeline.UnchangedBoardCapturesNothing | goat/calcs.py:172-180 | an unchanged stone count means no capture |
| Timeline.CaptureCounted | goat/calcs.py:172-180 | a move that adds one stone and removes k of the opponent's counts k captures |
| Timeline.TimeLine.constructor | goat/calcs.py:149-156 | the table of points, no games, empty totals |
| Timeline.TimeLine.GameStart | goat/calcs.py:158-162 | the four per-game lists restart at [0] |
| Timeline.TimeLine.Move | goat/calcs.py:164-186 | appends the stone counts and the running capture totals, computed from the last entries |
| Timeline.TimeLine.GameOver | goat/calcs.py:188-197 | a discarded game changes nothing; otherwise the four lists join the totals and games goes up by one |
| Liberties.CountLiberties | goat/calcs.py:505-510 | the sum over stones of their empty neighbours |
| Liberties.EmptyCountCard | goat/calcs.py:508-510 | counting a point's empty neighbours gives the size of that set |
| Liberties.PairsAtCard | goat/calcs.py:507-510 | one stone's liberties are exactly its (stone, empty neighbour) pairs |
| Liberties.LibertyCountPrefix | goat/calcs.py:506-510 | after k table entries the loop has counted the pairs of the first k points |
| Liberties.TableLiberties | goat/calcs.py:504-511 | the liberty count is the number of (stone, adjacent empty point) pairs on the board |
| Liberties.ColumnExtremes | goat/calcs.py:539-545 | the column minimum and maximum bound every move-n value, and both occur; the maximum is -1 with no such game |
| Liberties.EveryLongGameCounted | goat/calcs.py:540-541 | a game longer than n counts in column n |
| Liberties.NoLongGame | goat/calcs.py:547-548 | an empty column means no game is longer than n |
| Liberties.ColumnSumBounds | goat/calcs.py:543 | the column sum lies between games*min and games*max |
| Liberties.MeanBetween | goat/calcs.py:550 | the true average lies between the column's minimum and maximum |
| Liberties.LongerMono | goat/calcs.py:540-541 | fewer games reach later moves |
| Liberties.MaxLen | goat/calcs.py:518-520 | the length of the longest game |
| Liberties.LongerBelowMaxLen | goat/calcs.py:534-548 | below maxmoves every column is non-empty, so no column is skipped |
| Liberties.Aggregate | goat/calcs.py:529-553 | the four output lists have equal length, at most maxmoves |
| Liberties.AggregateEntries | goat/calcs.py:534-553 | entry n holds the number of games, the minimum, the maximum and the average of column n |
| Liberties.AggregateShape | goat/calcs.py:529-553 | the games curve is positive and non-increasing, and min <= avg <= max at every move |
| Liberties.MinFromSentinelCapped | goat/calcs.py:537-544 | the minimum as written is capped at 362 |
| Liberties.MinSentinelMasksLargeValues | goat/calcs.py:537 | a column whose every value is 684 has true minimum 684, but the reported minimum is 362 |
| Liberties.CheckerboardLiberties | goat/calcs.py:504-511 | on 19 lines, the board of black stones on the points whose coordinates sum to an even number, which 181 black moves reach while White passes, has 684 liberties, both as the table count and as stone/empty pairs |
| Liberties.FloorAverageIsFloor | goat/calcs.py:550 | the average as written is the floor of the true average |
| Liberties.QuotientFloor | goat/calcs.py:550 | Python 2 integer division is the floor of the real quotient |
| Liberties.FloorAverageDropsFraction | goat/calcs.py:550 | games of 1 and 2 liberties report 1, where the average is 1.5 |
| Liberties.LibertiesPerMove.constructor | goat/calcs.py:495-499 | the table of points, empty lists, maxmoves 0 |
| Liberties.LibertiesPerMove.GameStart | goat/calcs.py:501-502 | empties the game's list |
| Liberties.LibertiesPerMove.Move | goat/calcs.py:504-511 | appends the board's liberty count |
| Liberties.LibertiesPerMove.GameOver | goat/calcs.py:513-520 | a discarded game changes nothing; otherwise the game's list joins the totals and maxmoves becomes the larger |
| Liberties.LibertiesPerMove.End | goat/calcs.py:529-553 | the corrected aggregate of the totals |
| Territory.FindFrom | goat/calcs.py:603-606 | the first territory from k holding the point, or none |
| Territory.FirstHit | goat/calcs.py:602-609 | the first territory hit by the first neighbour that is in some territory, or none when no neighbour is in any |
| Territory.EmptyOf | goat/calcs.py:613-615 | exactly the empty neighbours, in order |
| Territory.FindHit | goat/calcs.py:602-609 | the nested search loop computes FirstHit |
| Territory.NewRegion | goat/calcs.py:611-615 | a new territory: the point, then its empty neighbours |
| Territory.PlaceFacts | goat/calcs.py:599-616 | placing one point only extends territories, keeps each territory empty and connected, and puts an empty point into one |
| Territory.JoinFacts | goat/calcs.py:603-606 | joining a territory through a neighbour keeps it empty and connected |
| Territory.NewRegionFacts | goat/calcs.py:611-616 | a new territory is empty and connected |
| Territory.ScanInvariants | goat/calcs.py:599-616 | the scan only extends territories and keeps each one empty and connected |
| Territory.ScanCovers | goat/calcs.py:599-616 | every empty point scanned ends up in some territory |
| Territory.TerritoriesOfBoard | goat/calcs.py:597-616 | over the whole board every territory is empty and connected, and every empty point lies in one |
| Territory.TableEntryAt | goat/calcs.py:33-48 | entry i*size+j of the table is point (i, j) with its neighbours |
| Territory.ScanStep | goat/calcs.py:599 | the scan visits the table in order |
| Territory.RegionsNotPartition | goat/calcs.py:599-616 | on a 3x3 board with one stone the territories overlap and repeat a point, so they are no partition |
| Territory.Territories.constructor | goat/calcs.py:582-587 | the table of points, no territories, no games, gameskip false |
| Territory.Territories.GameStart | goat/calcs.py:589-591 | raises KeyError exactly when RU is missing; otherwise gameskip is RU != "AGA" and the territories are emptied |
| Territory.Territories.GameOver | goat/calcs.py:593-616 | a discarded or skipped game changes nothing; otherwise the territories are the scan of the board and games goes up by one |
| Territory.Territories.PlacePoint | goat/calcs.py:600-616 | one point of the scan |
| Ascii.GridLines | goat/ascii.py:1-22 | size row lines from the top row down, then the column header |
| Ascii.RenderGrid | goat/ascii.py:1-22 | the loop builds GridLines |
| Ascii.HeaderWidth | goat/ascii.py:9-21 | the header's width is 3*size+1, plus 1 of padding above nine lines |
| Ascii.RowWidth | goat/ascii.py:11-20 | with two-character points, each row has the header's width |
| Ascii.GridWidths | goat/ascii.py:1-22 | every line of the grid has the same width |
| Ascii.PointString | goat/ascii.py:24-28 | two characters, no newline |
| Ascii.LinesNoNewline | goat/ascii.py:17-21 | no line of a rendered board contains a newline |
| Ascii.HeaderLast | goat/ascii.py:21 | the last line is non-empty and does not end in a newline |
| Ascii.RenderBoardLines | goat/ascii.py:30-38 | splitting the rendered board at newlines gives back its size+1 lines; it has no final newline |
| GoGame.Letter | goat/gogame.py:76 | a serialised coordinate is a lower-case letter |
| GoGame.SerialisePoint | goat/gogame.py:76 | `serialise_go_point`: defined exactly for sizes 1 to 26 and a pass or an on-board point; "tt" for a pass up to 19, else "" for a pass; column letter then flipped row letter |
| GoGame.SerialiseInjective | goat/gogame.py:76 | up to 19 lines, distinct moves serialise differently |
| GoGame.Segment | goat/gogame.py:75-78 | "--" past the end, else the serialised move |
| GoGame.GameId | goat/gogame.py:71-79 | the loop computes the identifier, or the ValueError |
| GoGame.IdFromRaises | goat/gogame.py:76 | once a probe raises, the identifier raises |
| GoGame.GameIdIdentifies | goat/gogame.py:71-79 | up to 19 lines the identifier has 12 characters, and two games share it exactly when they agree on moves 20, 40, 60, 31, 51 and 71 |
| GoGame.IdFromDependsOnProbes | goat/gogame.py:74 | the identifier depends only on the probed moves |
| GoGame.IdFromWidth | goat/gogame.py:74-78 | two characters per probe |
| GoGame.IdFromInjective | goat/gogame.py:74-78 | equal identifiers mean equal probed moves |
| GoGame.ShortGameId | goat/gogame.py:75-78 | a game of fewer than 20 moves has the identifier "------------" |
| GoGame.MoveError | goat/gogame.py:108-112 | the error names the move number, the upper-case colour and the serialised point, or is the ValueError of serialisation |
| GoGame.ReplayFollows | goat/gogame.py:102-114 | each pair holds its move and the board after it, which is the engine's result on the board before it (or that board, for a pass); there is no error exactly when every move was replayed |
| GoGame.ReplayError | goat/gogame.py:106-112 | an error is raised at the first move the engine refuses, and names it |
| GoGame.ReplayStep | goat/gogame.py:102-114 | one move of the replay: a pass, a refused stone, or a played stone |
| GoGame.FirstMissing | goat/gogame.py:86-91 | the first key the header lacks, the one whose `get` raises KeyError; None exactly when every key is present |
| GoGame.AfterSetup | goat/gogame.py:81-93 | setup raises GoGameError exactly when the moves do not load or the identifier does not serialise; otherwise it raises KeyError for the first missing one of PB, BR, PW, WR, RE, DT, after the identifier is assigned; it returns exactly when neither happens, and then sets the description; fields already assigned stay assigned |
| GoGame.MissingPropertyKeepsId | goat/gogame.py:85-98 | after a KeyError from setup the game keeps its 12-character identifier, so a later play does not run setup again |
| GoGame.Game.constructor | goat/gogame.py:41-60 | keeps the header and the setup; no id, no plays |
| GoGame.Game.Setup | goat/gogame.py:81-93 | the fields and the raised error become those of AfterSetup; the initial board is the loaded one; plays are untouched |
| GoGame.Game.Play | goat/gogame.py:95-114 | empties the plays; runs setup when there is no id, and raises what it raises (GoGameError or KeyError) with no plays; a game whose board file exists gets no plays; otherwise plays and error are those of Replay |
| GoGame.Game.ReplayMoves | goat/gogame.py:101-114 | the loop computes Replay from move 1 and touches nothing else |
| GoGame.RowText | goat/gogame.py:152-156 | one character per point, no newline |
| GoGame.AsciiLines | goat/gogame.py:150-157 | the rows from the top row down |
| GoGame.DecodeRowText | goat/gogame.py:119-123 | the ASCII map from points to characters is invertible |
| GoGame.AsciiRoundTrip | goat/gogame.py:150-157 | splitting `ascii()` at newlines gives the rows back, from the top down |
| GoGame.FlattenLength | goat/gogame.py:145-148 | size points per row |
| GoGame.FlattenAt | goat/gogame.py:145-148 | the point of row i, column j is at position i*size+j |
| GoGame.Board.constructor | goat/gogame.py:131-133 | the wrapper shares the given cells; there is no copy |
| GoGame.Board.PyIndex | goat/gogame.py:140 | Python's list index: a negative index counts from the end |
| GoGame.Board.Get | goat/gogame.py:139-140 | `board[row][col]` for non-negative indices; negative ones are accepted and count from the end |
| GoGame.Board.Set | goat/gogame.py:142-143 | changes exactly the one cell, after wrapping negative indices |
| GoGame.Board.Cells | goat/gogame.py:145-148 | the cells as rows |
| GoGame.Board.PointsLength | goat/gogame.py:145-148 | `points()` yields size*size values |
| GoGame.Board.PointsLayout | goat/gogame.py:145-148 | the value at position i*size+j is board[i][j] |
| GoGame.Board.Points | goat/gogame.py:145-148 | the row-major values of the board |
| GoGame.Board.Ascii | goat/gogame.py:150-157 | the ASCII text of the cells |
| GoMain.SizedCount | go/main.py:183-187 | the counter i counts the right-size files seen |
| GoMain.Take | go/main.py:213-215 | stopping at the quota keeps a prefix |
| GoMain.SampledFacts | go/main.py:183-195 | the sampled files are listed in order, each once, and only those that pass all three tests |
| GoMain.SampledPrefix | go/main.py:177-215 | fewer files sample a prefix |
| GoMain.SampleRate | go/main.py:187-189 | at most one right-size file in ten is sampled |
| GoMain.SelectedSound | go/main.py:177-215 | every played game has size 19, more than 50 plays and a right-size rank divisible by 10; at most GAMES are played, in file order |
| GoMain.SelectedComplete | go/main.py:177-215 | below the quota every file that passes the tests is played |
| GoMain.SelectedRate | go/main.py:187-189 | at most a tenth of the right-size files are played |
| GoMain.HistoryUpTo | go/main.py:364-372 | one list per game played |
| GoMain.HistoryPrefix | go/main.py:364-372 | later games never change earlier lists |
| GoMain.EntryCounts | go/main.py:355-362 | entry d counts each colour within distance d; stones is their sum; the winner's list is Black's exactly when Black won |
| GoMain.CentreCumulative | go/main.py:325 | the centre's entry d counts distance d, not d/2 as in goat's hook |
| GoMain.Record | go/main.py:348-372 | appends one game's five lists to a reference point |
| GoMain.StonesPerSquare.constructor | go/main.py:318-332 | the four corners and the centre, with empty game lists |
| GoMain.StonesPerSquare.GameOver | go/main.py:334-372 | every reference point gets one more list of each kind |
| GoMain.HistorySnoc | go/main.py:364-372 | one more game adds one list to each history |
| GoMain.Play | go/main.py:207-209 | after one game every reference point holds the histories of the games played |
| GoMain.Visit | go/main.py:178-211 | one pass of the loop samples the file exactly when it passes the tests, and keeps the histories |
| GoMain.Feed | go/main.py:175-215 | plays exactly the selected games in order, and each reference point holds their histories |
| GoMain.Survey | go/main.py:173-215 | a hook for 19 lines whose reference points hold the histories of exactly the selected games |

## Left out

- SGF parsing, `get_setup_and_moves` and gomill's `Board.play` are not part
  of this model. They are parameters:
  - a `SourceFile` value for what `from_sgf` and `load_moves` produce;
  - the optional setup of a `Game`;
  - an `Engine` function that returns the board after a stone, or None when it raises;
  - the final board and winner of a `GoMain.Candidate`.
- `from_sgf`, `load_moves`, `walk`, `extract` and the archive cache are file-system
  work. The model keeps only their outcomes:
  - a parsed or unparsable file;
  - the loaded id and play count;
  - the set of ids already in the library (the `os.path.exists` test);
  - the set of existing board files in `Game.Play`.
  Copying files and creating directories are left out.
- Charts, matplotlib, `print`, logging and progress messages are left out.
  So is the progress percentage at library.py:146; the final one at
  library.py:150 is modelled.
- `TimeLine.end`, `StonesPerSquare.end`, `FractalDimension` and the
  `Territories` printout are left out. They only chart or print.
- The `winner` of `GoGame.__init__` and its `ValueError` are left out: the
  winner is never read by the modelled code. The header is a map from
  property to text; gomill's own value parsing is not modelled, so a
  property whose value fails to parse is not a modelled error.
- GoGame.Board.Get: an index outside `-n <= i < n` raises IndexError in
  Python; the model requires the index to be in that range instead.
- GoGame.Board.Set: the same IndexError is excluded by the same requirement.
- Histogram.Sort: `list.sort()` sorts in place. The model returns the sorted
  list (an insertion sort on `seq`) and reassigns the field.
- Ascii.PointString: the `" ?"` fallback of `_point_strings.get` is unreachable.
  Every cell is None, 'b' or 'w', so it is not modelled.
- Importer.ImportedPercent: the percentage is modelled as an exact `real`,
  not a rounded binary float.
- PyNumbers.FloatText: `float()` is modelled as a predicate on the text, not
  a value. The result check only uses whether it raises. Unicode digits and
  underscores are not modelled.
- GoMain.Candidate: `go/main.py` replays each sampled game on a gomill board
  and hands the hooks the final position. The model is given that final
  position and the play count directly. The per-move hook calls are no-ops
  for `StonesPerSquare`.
- `go/main.py`'s `LibertiesPerMove` and `count_liberties` are empty stubs.
  They are not modelled.
- Lists the source mutates and shares (such as `center.perimeters`) are
  sequence fields that methods reassign. Aliasing between hooks is not modelled.

## Findings

| source | as written | input that shows it | evidently intended | confidence | as-written member | corrected member |
|---|---|---|---|---|---|---|
| goat/calcs.py:550 | `float(sum / games)` is Python 2 integer division, so the average is rounded down before conversion | two games whose first move has 1 and 2 liberties: the average is reported as 1 | the mean 1.5, `float(sum) / games` | not executed | Liberties.FloorAverageDropsFraction | Liberties.MeanBetween |
| goat/calcs.py:537 | the minimum starts at `BOARD_SIZE**2 + 1` = 362, but a board's liberty count can reach 2·19·18 = 684 | games that all reach Checkerboard (684 liberties, Liberties.CheckerboardLiberties) at the same move: that column's reported minimum is 362 | the true column minimum, starting from the first value | not executed | Liberties.MinSentinelMasksLargeValues | Liberties.ColumnExtremes |
| goat/library.py:150 | `100. * games / files` with files == 0 raises ZeroDivisionError when no source file is found | an empty source list | 0% for an empty run | not executed | Importer.EmptyRunDivides | Importer.ImportedPercentBounds |
