/** LibertiesPerMove of goat/calcs.py: after every move, the number of
    (stone, empty orthogonal neighbour) pairs on the board, and the per-move
    aggregation over all recorded games. */
module Liberties {
  import opened Wrappers
  import opened Grid
  import opened Geometry

  /** The empty points of a neighbour list, counted one element at a time. */
  function EmptyCount(b: Snapshot, neighs: seq<Point>): nat
  {
    if neighs == [] then 0
    else EmptyCount(b, neighs[..|neighs| - 1]) + (if At(b, neighs[|neighs| - 1]) == None then 1 else 0)
  }

  /** What one table entry adds: its empty neighbours when it holds a stone. */
  function EntryLiberties(b: Snapshot, entry: (Point, seq<Point>)): nat
  {
    if At(b, entry.0) != None then EmptyCount(b, entry.1) else 0
  }

  /** The liberty total over a prefix of the neighbour table. */
  function LibertyCount(b: Snapshot, entries: seq<(Point, seq<Point>)>): nat
  {
    if entries == [] then 0
    else LibertyCount(b, entries[..|entries| - 1]) + EntryLiberties(b, entries[|entries| - 1])
  }

  /** The counting loops of move (calcs.py:505-510). */
  method CountLiberties(b: Snapshot, points: seq<(Point, seq<Point>)>) returns (liberties: nat)
    ensures liberties == LibertyCount(b, points)
  {
    liberties := 0;
    var k := 0;
    while k < |points|
      invariant 0 <= k <= |points|
      invariant liberties == LibertyCount(b, points[..k])
    {
      var point := points[k].0;
      var neighs := points[k].1;
      assert points[..k + 1][..k] == points[..k];
      if At(b, point) != None {
        var j := 0;
        while j < |neighs|
          invariant 0 <= j <= |neighs|
          invariant liberties == LibertyCount(b, points[..k]) + EmptyCount(b, neighs[..j])
        {
          if At(b, neighs[j]) == None {
            liberties := liberties + 1;
          }
          assert neighs[..j + 1][..j] == neighs[..j];
          j := j + 1;
        }
        assert neighs[..j] == neighs;
      }
      k := k + 1;
    }
    assert points[..k] == points;
  }

  /** The reference definition: every ordered pair of orthogonal neighbours on
      the board whose first point holds a stone and whose second is empty. */
  ghost function LibertyPairs(b: Snapshot): set<(Point, Point)>
  {
    set p, q | p in BoardSet(|b|) && q in BoardSet(|b|) && Adjacent(p, q) && At(b, p) != None && At(b, q) == None :: (p, q)
  }

  ghost function PairsFrom(b: Snapshot, ps: seq<Point>): set<(Point, Point)>
  {
    set p, q | p in ps && q in BoardSet(|b|) && Adjacent(p, q) && At(b, p) != None && At(b, q) == None :: (p, q)
  }

  ghost function PairsAt(b: Snapshot, p: Point): set<(Point, Point)>
  {
    set q | q in BoardSet(|b|) && Adjacent(p, q) && At(b, p) != None && At(b, q) == None :: (p, q)
  }

  lemma {:induction false} EmptyCountCard(b: Snapshot, neighs: seq<Point>)
    requires Distinct(neighs)
    ensures EmptyCount(b, neighs) == |set q | q in neighs && At(b, q) == None|
    decreases |neighs|
  {
    if neighs != [] {
      var n := |neighs| - 1;
      var init := neighs[..n];
      var last := neighs[n];
      assert Distinct(init);
      EmptyCountCard(b, init);
      assert neighs == init + [last];
      assert last !in init;
      if At(b, last) == None {
        assert (set q | q in neighs && At(b, q) == None) == (set q | q in init && At(b, q) == None) + {last};
      } else {
        assert (set q | q in neighs && At(b, q) == None) == (set q | q in init && At(b, q) == None);
      }
    }
  }

  /** Pairing with a fixed first point keeps the size of a set. */
  lemma {:induction false} PairImageCard(p: Point, e: set<Point>)
    ensures |set q | q in e :: (p, q)| == |e|
    decreases |e|
  {
    if e != {} {
      var x :| x in e;
      PairImageCard(p, e - {x});
      assert (set q | q in e :: (p, q)) == (set q | q in e - {x} :: (p, q)) + {(p, x)};
      assert (p, x) !in (set q | q in e - {x} :: (p, q));
    }
  }

  /** A table entry contributes exactly its pairs. */
  lemma PairsAtCard(b: Snapshot, p: Point)
    requires InBounds(p, |b|)
    ensures |PairsAt(b, p)| == EntryLiberties(b, (p, Neighbours(p, |b|)))
  {
    var neighs := Neighbours(p, |b|);
    NeighboursExact(p, |b|);
    BoardSetMembers(|b|);
    if At(b, p) == None {
      assert PairsAt(b, p) == {};
    } else {
      var e := set q | q in neighs && At(b, q) == None;
      EmptyCountCard(b, neighs);
      PairImageCard(p, e);
      assert PairsAt(b, p) == set q | q in e :: (p, q);
    }
  }

  lemma {:induction false} LibertyCountPrefix(b: Snapshot, points: seq<(Point, seq<Point>)>, k: nat)
    requires IsTable(points, |b|) && Distinct(TablePoints(points)) && k <= |points|
    ensures LibertyCount(b, points[..k]) == |PairsFrom(b, TablePoints(points)[..k])|
    decreases k
  {
    if k == 0 {
      assert PairsFrom(b, TablePoints(points)[..0]) == {};
    } else {
      LibertyCountPrefix(b, points, k - 1);
      LibertyCountStep(b, points, k);
    }
  }

  /** One more table entry adds the pairs of its point. */
  lemma LibertyCountStep(b: Snapshot, points: seq<(Point, seq<Point>)>, k: nat)
    requires IsTable(points, |b|) && Distinct(TablePoints(points)) && 1 <= k <= |points|
    requires LibertyCount(b, points[..k - 1]) == |PairsFrom(b, TablePoints(points)[..k - 1])|
    ensures LibertyCount(b, points[..k]) == |PairsFrom(b, TablePoints(points)[..k])|
  {
    var ps := TablePoints(points);
    var p := ps[k - 1];
    TableEntry(points, |b|, k - 1);
    assert points[k - 1] == (p, Neighbours(p, |b|));
    var pre := points[..k];
    assert pre[..k - 1] == points[..k - 1];
    assert LibertyCount(b, pre) == LibertyCount(b, points[..k - 1]) + EntryLiberties(b, points[k - 1]);
    PairsAtCard(b, p);
    PairsFromSnoc(b, ps, k);
  }

  /** The pairs of a longer prefix of distinct points split into those of the
      shorter prefix and those of the new point. */
  lemma PairsFromSnoc(b: Snapshot, ps: seq<Point>, k: nat)
    requires 1 <= k <= |ps| && Distinct(ps)
    ensures PairsFrom(b, ps[..k]) == PairsFrom(b, ps[..k - 1]) + PairsAt(b, ps[k - 1])
    ensures PairsFrom(b, ps[..k - 1]) * PairsAt(b, ps[k - 1]) == {}
  {
    var p := ps[k - 1];
    assert ps[..k] == ps[..k - 1] + [p];
    assert p !in ps[..k - 1];
  }

  /** move appends exactly the number of (stone, empty neighbour) pairs. */
  lemma TableLiberties(b: Snapshot, points: seq<(Point, seq<Point>)>)
    requires IsTable(points, |b|)
    ensures LibertyCount(b, points) == |LibertyPairs(b)|
  {
    var ps := TablePoints(points);
    TableCoversBoard(points, |b|);
    LibertyCountPrefix(b, points, |points|);
    assert points[..|points|] == points;
    assert ps[..|points|] == ps;
    BoardSetMembers(|b|);
    assert PairsFrom(b, ps) == LibertyPairs(b);
  }

  // ---------------------------------------------------------------------
  // Aggregation of end (calcs.py:529-553)

  /** The number of recorded games longer than n. */
  function Longer(totals: seq<seq<nat>>, n: nat): nat
  {
    if totals == [] then 0
    else Longer(totals[..|totals| - 1], n) + (if |totals[|totals| - 1]| > n then 1 else 0)
  }

  /** The sum of the values of column n over the games that reach it. */
  function ColumnSum(totals: seq<seq<nat>>, n: nat): nat
  {
    if totals == [] then 0
    else
      var last := totals[|totals| - 1];
      ColumnSum(totals[..|totals| - 1], n) + (if |last| > n then last[n] else 0)
  }

  /** The largest value of column n, starting from the source's -1. */
  function ColumnMax(totals: seq<seq<nat>>, n: nat): int
  {
    if totals == [] then -1
    else
      var m := ColumnMax(totals[..|totals| - 1], n);
      var last := totals[|totals| - 1];
      if |last| > n && last[n] > m then last[n] else m
  }

  /** The smallest value of column n: the first value seen, then any smaller one. */
  function ColumnMin(totals: seq<seq<nat>>, n: nat): int
  {
    if totals == [] then 0
    else
      var init := totals[..|totals| - 1];
      var m := ColumnMin(init, n);
      var last := totals[|totals| - 1];
      if |last| > n && (Longer(init, n) == 0 || last[n] < m) then last[n] else m
  }

  /** The mean of column n over the games that reach it. */
  function Mean(totals: seq<seq<nat>>, n: nat): real
    requires Longer(totals, n) > 0
  {
    ColumnSum(totals, n) as real / Longer(totals, n) as real
  }

  /** ColumnMin and ColumnMax bound every value of the column and are attained. */
  lemma {:induction false} ColumnExtremes(totals: seq<seq<nat>>, n: nat)
    ensures forall g :: 0 <= g < |totals| && |totals[g]| > n ==> ColumnMin(totals, n) <= totals[g][n] <= ColumnMax(totals, n)
    ensures Longer(totals, n) > 0 ==> exists g :: 0 <= g < |totals| && |totals[g]| > n && totals[g][n] == ColumnMin(totals, n)
    ensures Longer(totals, n) > 0 ==> exists g :: 0 <= g < |totals| && |totals[g]| > n && totals[g][n] == ColumnMax(totals, n)
    ensures Longer(totals, n) == 0 ==> ColumnMax(totals, n) == -1
    decreases |totals|
  {
    if totals != [] {
      var init := totals[..|totals| - 1];
      ColumnExtremes(init, n);
      if Longer(init, n) > 0 {
        var g :| 0 <= g < |init| && |init[g]| > n && init[g][n] == ColumnMin(init, n);
        assert totals[g] == init[g];
        var h :| 0 <= h < |init| && |init[h]| > n && init[h][n] == ColumnMax(init, n);
        assert totals[h] == init[h];
      } else {
        NoLongGame(init, n);
      }
      forall g | 0 <= g < |totals| && |totals[g]| > n
        ensures ColumnMin(totals, n) <= totals[g][n] <= ColumnMax(totals, n)
      {
        if g < |init| {
          assert totals[g] == init[g];
        }
      }
    }
  }

  lemma {:induction false} EveryLongGameCounted(totals: seq<seq<nat>>, n: nat, g: nat)
    requires g < |totals| && |totals[g]| > n
    ensures Longer(totals, n) >= 1
    decreases |totals|
  {
    if g < |totals| - 1 {
      EveryLongGameCounted(totals[..|totals| - 1], n, g);
    }
  }

  lemma {:induction false} NoLongGame(totals: seq<seq<nat>>, n: nat)
    requires Longer(totals, n) == 0
    ensures forall g :: 0 <= g < |totals| ==> |totals[g]| <= n
    decreases |totals|
  {
    if totals != [] {
      var init := totals[..|totals| - 1];
      NoLongGame(init, n);
      assert forall g :: 0 <= g < |init| ==> totals[g] == init[g];
    }
  }

  /** The column sum lies between count times minimum and count times maximum. */
  lemma {:induction false} ColumnSumBounds(totals: seq<seq<nat>>, n: nat, lo: int, hi: int)
    requires forall g :: 0 <= g < |totals| && |totals[g]| > n ==> lo <= totals[g][n] <= hi
    ensures Longer(totals, n) * lo <= ColumnSum(totals, n) <= Longer(totals, n) * hi
    decreases |totals|
  {
    if totals != [] {
      var init := totals[..|totals| - 1];
      forall g | 0 <= g < |init| && |init[g]| > n ensures lo <= init[g][n] <= hi {
        assert init[g] == totals[g];
      }
      ColumnSumBounds(init, n, lo, hi);
      var last := totals[|totals| - 1];
      if |last| > n {
        MulStep(Longer(init, n), ColumnSum(init, n), last[n], lo, hi);
      }
    }
  }

  lemma MulStep(games: nat, sum: int, v: int, lo: int, hi: int)
    requires games * lo <= sum <= games * hi && lo <= v <= hi
    ensures (games + 1) * lo <= sum + v <= (games + 1) * hi
  {
    assert (games + 1) * lo == games * lo + lo && (games + 1) * hi == games * hi + hi;
  }

  /** The mean lies between the column's minimum and maximum. */
  lemma MeanBetween(totals: seq<seq<nat>>, n: nat)
    requires Longer(totals, n) > 0
    ensures ColumnMin(totals, n) as real <= Mean(totals, n) <= ColumnMax(totals, n) as real
  {
    ColumnExtremes(totals, n);
    ColumnSumBounds(totals, n, ColumnMin(totals, n), ColumnMax(totals, n));
    QuotientBounds(ColumnSum(totals, n), Longer(totals, n), ColumnMin(totals, n), ColumnMax(totals, n));
  }

  lemma QuotientBounds(s: int, g: int, lo: int, hi: int)
    requires g > 0 && g * lo <= s <= g * hi
    ensures lo as real <= s as real / g as real <= hi as real
  {
    assert (g * lo) as real == g as real * lo as real;
    assert (g * hi) as real == g as real * hi as real;
    RealDivBounds(s as real, g as real, lo as real, hi as real);
  }

  lemma RealDivBounds(s: real, g: real, lo: real, hi: real)
    requires g > 0.0 && g * lo <= s <= g * hi
    ensures lo <= s / g <= hi
  {
    assert s / g * g == s;
  }

  /** Longer does not grow with n. */
  lemma {:induction false} LongerMono(totals: seq<seq<nat>>, n: nat, n': nat)
    requires n <= n'
    ensures Longer(totals, n') <= Longer(totals, n)
    decreases |totals|
  {
    if totals != [] {
      LongerMono(totals[..|totals| - 1], n, n');
    }
  }

  /** The length of the longest recorded game. */
  function MaxLen(totals: seq<seq<nat>>): (m: nat)
    ensures forall g :: 0 <= g < |totals| ==> |totals[g]| <= m
    ensures totals != [] ==> exists g :: 0 <= g < |totals| && |totals[g]| == m
    ensures totals == [] ==> m == 0
  {
    if totals == [] then 0
    else
      var init := totals[..|totals| - 1];
      var m := MaxLen(init);
      assert forall g :: 0 <= g < |init| ==> totals[g] == init[g];
      if |totals[|totals| - 1]| > m then |totals[|totals| - 1]| else m
  }

  /** Every move number below the longest game is reached by some game. */
  lemma LongerBelowMaxLen(totals: seq<seq<nat>>, n: nat)
    requires n < MaxLen(totals)
    ensures Longer(totals, n) >= 1
  {
    var g :| 0 <= g < |totals| && |totals[g]| == MaxLen(totals);
    EveryLongGameCounted(totals, n, g);
  }

  /** The four lists end builds: average, minimum, maximum and game count per move. */
  datatype LibTable = LibTable(avg: seq<real>, min: seq<int>, max: seq<int>, games: seq<nat>)

  /** The lists for move numbers below upto; a move no game reaches is skipped. */
  function Aggregate(totals: seq<seq<nat>>, upto: nat): (r: LibTable)
    ensures |r.avg| == |r.min| == |r.max| == |r.games| <= upto
  {
    if upto == 0 then LibTable([], [], [], [])
    else
      var r := Aggregate(totals, upto - 1);
      var n := upto - 1;
      var games := Longer(totals, n);
      if games == 0 then r
      else LibTable(r.avg + [Mean(totals, n)], r.min + [ColumnMin(totals, n)], r.max + [ColumnMax(totals, n)], r.games + [games])
  }

  /** Below the longest game no move is skipped, so entry n describes move n. */
  lemma {:induction false} AggregateEntries(totals: seq<seq<nat>>, upto: nat)
    requires upto <= MaxLen(totals)
    ensures var r := Aggregate(totals, upto);
      |r.games| == upto &&
      forall n :: 0 <= n < upto ==>
        r.games[n] == Longer(totals, n) >= 1 && r.min[n] == ColumnMin(totals, n) &&
        r.max[n] == ColumnMax(totals, n) && r.avg[n] == Mean(totals, n)
    decreases upto
  {
    if upto > 0 {
      AggregateEntries(totals, upto - 1);
      LongerBelowMaxLen(totals, upto - 1);
      var r, n := Aggregate(totals, upto - 1), upto - 1;
      assert Aggregate(totals, upto) ==
        LibTable(r.avg + [Mean(totals, n)], r.min + [ColumnMin(totals, n)], r.max + [ColumnMax(totals, n)], r.games + [Longer(totals, n)]);
    }
  }

  /** The properties of end's lists over the whole record: one entry per move
      number, game counts nonincreasing, and min <= avg <= max. */
  lemma AggregateShape(totals: seq<seq<nat>>)
    ensures var r := Aggregate(totals, MaxLen(totals));
      |r.games| == MaxLen(totals) &&
      (forall n :: 0 <= n < |r.games| ==> r.games[n] == Longer(totals, n) >= 1) &&
      (forall n, n' :: 0 <= n <= n' < |r.games| ==> r.games[n'] <= r.games[n]) &&
      (forall n :: 0 <= n < |r.games| ==> r.min[n] as real <= r.avg[n] <= r.max[n] as real) &&
      (forall n :: 0 <= n < |r.games| ==> r.min[n] <= r.max[n])
  {
    var r := Aggregate(totals, MaxLen(totals));
    AggregateEntries(totals, MaxLen(totals));
    forall n, n' | 0 <= n <= n' < |r.games| ensures r.games[n'] <= r.games[n] {
      LongerMono(totals, n, n');
    }
    forall n | 0 <= n < |r.games| ensures r.min[n] as real <= r.avg[n] <= r.max[n] as real {
      MeanBetween(totals, n);
    }
  }

  // ---------------------------------------------------------------------
  // end as written: integer average and a 19*19+1 start for the minimum

  /** g.BOARD_SIZE**2 + 1 with the configured board size of 19. */
  const MinSentinel: int := 19 * 19 + 1

  /** The minimum as end computes it: a fold starting from MinSentinel. */
  function MinFromSentinel(totals: seq<seq<nat>>, n: nat): int
  {
    if totals == [] then MinSentinel
    else
      var m := MinFromSentinel(totals[..|totals| - 1], n);
      var last := totals[|totals| - 1];
      if |last| > n && last[n] < m then last[n] else m
  }

  /** The average as end computes it: Python 2 divides the two integers before float(). */
  function FloorAverage(totals: seq<seq<nat>>, n: nat): int
    requires Longer(totals, n) > 0
  {
    ColumnSum(totals, n) / Longer(totals, n)
  }

  /** The sentinel caps the minimum at 362. */
  lemma {:induction false} MinFromSentinelCapped(totals: seq<seq<nat>>, n: nat)
    ensures Longer(totals, n) > 0 ==> MinFromSentinel(totals, n) == Min(MinSentinel, ColumnMin(totals, n))
    ensures Longer(totals, n) == 0 ==> MinFromSentinel(totals, n) == MinSentinel
    decreases |totals|
  {
    if totals != [] {
      MinFromSentinelCapped(totals[..|totals| - 1], n);
    }
  }

  function Min(x: int, y: int): int
  {
    if x < y then x else y
  }

  /** A column whose every recorded value is 684, the liberties of
      Checkerboard: end reports 362 as its minimum. */
  lemma MinSentinelMasksLargeValues(totals: seq<seq<nat>>, n: nat)
    requires Longer(totals, n) > 0
    requires forall g :: 0 <= g < |totals| && |totals[g]| > n ==> totals[g][n] == 684
    ensures ColumnMin(totals, n) == 684
    ensures MinFromSentinel(totals, n) == 362
  {
    ColumnExtremes(totals, n);
    MinFromSentinelCapped(totals, n);
  }

  // ---------------------------------------------------------------------
  // A 19x19 position with more liberties than the sentinel

  /** Black stones on the points whose coordinates sum to an even number,
      every other point empty: 181 stones that 181 black moves reach while
      White passes. */
  function Checkerboard(): (b: Snapshot)
    ensures IsBoard(b, 19)
    ensures forall p :: At(b, p) == if InBounds(p, 19) && (p.row + p.col) % 2 == 0 then Some(Black) else None
  {
    seq(19, i => seq(19, j => if (i + j) % 2 == 0 then Some(Black) else None))
  }

  /** The number of on-board orthogonal neighbours of (i, j). */
  function Degree(i: int, j: int, size: int): nat
  {
    (if j > 0 then 1 else 0) + (if j < size - 1 then 1 else 0) +
    (if i > 0 then 1 else 0) + (if i < size - 1 then 1 else 0)
  }

  /** What the first j points of row i of Checkerboard add to the count. */
  function CheckerRow(i: nat, j: nat): nat
    decreases j
  {
    if j == 0 then 0
    else CheckerRow(i, j - 1) + (if (i + j - 1) % 2 == 0 then Degree(i, j - 1, 19) else 0)
  }

  /** What row i of Checkerboard adds to the count: 18 horizontal pairs,
      and one liberty per stone for each row above or below. */
  function RowValue(i: nat): nat
  {
    if i == 0 || i == 18 then 28 else if i % 2 == 1 then 36 else 38
  }

  /** What the first i rows of Checkerboard add to the count. */
  function CheckerRows(i: nat): nat
    decreases i
  {
    if i == 0 then 0 else CheckerRows(i - 1) + RowValue(i - 1)
  }

  /** A neighbour list all of whose points are empty counts every one of them. */
  lemma {:induction false} EmptyCountAllEmpty(b: Snapshot, neighs: seq<Point>)
    requires forall k :: 0 <= k < |neighs| ==> At(b, neighs[k]) == None
    ensures EmptyCount(b, neighs) == |neighs|
    decreases |neighs|
  {
    if neighs != [] {
      EmptyCountAllEmpty(b, neighs[..|neighs| - 1]);
    }
  }

  /** A point of the board has Degree many neighbours. */
  lemma NeighbourCount(i: int, j: int)
    requires 0 <= i < 19 && 0 <= j < 19
    ensures |Neighbours(Point(i, j), 19)| == Degree(i, j, 19)
  {
    NeighboursInOrder(Point(i, j), 19);
  }

  /** Every neighbour of a stone of Checkerboard is empty. */
  lemma CheckerNeighboursEmpty(i: int, j: int)
    requires 0 <= i < 19 && 0 <= j < 19 && (i + j) % 2 == 0
    ensures forall k :: 0 <= k < |Neighbours(Point(i, j), 19)| ==> At(Checkerboard(), Neighbours(Point(i, j), 19)[k]) == None
  {
    var ns := Neighbours(Point(i, j), 19);
    NeighboursExact(Point(i, j), 19);
    forall k | 0 <= k < |ns|
      ensures At(Checkerboard(), ns[k]) == None
    {
      assert ns[k] in ns;
      assert (ns[k].row + ns[k].col) % 2 == 1;
    }
  }

  /** The entry of (i, j) adds its degree when (i, j) holds a stone, and 0 otherwise. */
  lemma CheckerEntry(i: int, j: int)
    requires 0 <= i < 19 && 0 <= j < 19
    ensures EntryLiberties(Checkerboard(), Entry(i, j, 19)) == if (i + j) % 2 == 0 then Degree(i, j, 19) else 0
  {
    if (i + j) % 2 == 0 {
      NeighbourCount(i, j);
      CheckerNeighboursEmpty(i, j);
      EmptyCountAllEmpty(Checkerboard(), Neighbours(Point(i, j), 19));
    }
  }

  lemma CheckerboardEntries()
    ensures LikeCheckerboard(Checkerboard())
  {
    forall r, c | 0 <= r < 19 && 0 <= c < 19
      ensures EntryLiberties(Checkerboard(), Entry(r, c, 19)) == if (r + c) % 2 == 0 then Degree(r, c, 19) else 0
    {
      CheckerEntry(r, c);
    }
  }

  /** The stones among the first j points of row i of Checkerboard. */
  function RowStones(i: nat, j: nat): nat
  {
    if i % 2 == 0 then (j + 1) / 2 else j / 2
  }

  /** One more point of row i adds a stone exactly when it holds one. */
  lemma RowStonesStep(i: nat, j: nat)
    requires j > 0
    ensures RowStones(i, j) == RowStones(i, j - 1) + (if (i + j - 1) % 2 == 0 then 1 else 0)
  {
  }

  lemma ParityStep(i: nat, j: nat)
    requires j > 1
    ensures ((i + j - 1) % 2 == 0) != ((i + j - 2) % 2 == 0)
  {
  }

  /** A whole row holds 10 stones when its index is even, 9 when it is odd. */
  lemma RowStonesFull(i: nat)
    ensures RowStones(i, 19) == if i % 2 == 0 then 10 else 9
  {
  }

  /** The first j points of row i: every horizontal pair among them holds
      one stone, a stone on their right edge reaches one point further, and
      each stone adds one liberty per row above or below. */
  lemma {:induction false} CheckerRowClosed(i: nat, j: nat)
    requires i < 19 && j <= 19
    ensures CheckerRow(i, j) ==
      (if j == 0 then 0 else j - 1 + (if (i + j - 1) % 2 == 0 && j < 19 then 1 else 0)) +
      (if i > 0 then RowStones(i, j) else 0) + (if i < 18 then RowStones(i, j) else 0)
    decreases j
  {
    if j > 0 {
      CheckerRowClosed(i, j - 1);
      RowStonesStep(i, j);
      if j > 1 {
        ParityStep(i, j);
      }
    }
  }

  /** A whole row adds RowValue. */
  lemma RowTotal(i: nat)
    requires i < 19
    ensures CheckerRow(i, 19) == RowValue(i)
  {
    CheckerRowClosed(i, 19);
    RowStonesFull(i);
  }

  /** The first i rows: every vertical pair between them holds one stone,
      and each row adds 18 for its horizontal pairs. */
  lemma {:induction false} CheckerRowsClosed(i: nat)
    requires i <= 19
    ensures CheckerRows(i) == 18 * i + (if i == 0 then 0 else 19 * (i - 1) + (if i == 19 then 0 else if (i - 1) % 2 == 0 then 10 else 9))
    decreases i
  {
    if i > 0 {
      CheckerRowsClosed(i - 1);
    }
  }

  /** One more entry adds its liberties. */
  lemma LibertyCountSnoc(b: Snapshot, points: seq<(Point, seq<Point>)>, m: nat)
    requires 1 <= m <= |points|
    ensures LibertyCount(b, points[..m]) == LibertyCount(b, points[..m - 1]) + EntryLiberties(b, points[m - 1])
  {
    assert points[..m][..m - 1] == points[..m - 1];
  }

  /** A board whose every table entry adds what the entry of Checkerboard adds. */
  ghost predicate LikeCheckerboard(b: Snapshot)
  {
    forall r, c :: 0 <= r < 19 && 0 <= c < 19 ==>
      EntryLiberties(b, Entry(r, c, 19)) == if (r + c) % 2 == 0 then Degree(r, c, 19) else 0
  }

  /** The entry of (i, j), at position k = 19 * i + j of the table. */
  lemma CheckerStep(b: Snapshot, points: seq<(Point, seq<Point>)>, k: nat, i: nat, j: nat)
    requires IsTable(points, 19) && LikeCheckerboard(b) && i < 19 && j < 19 && k == 19 * i + j
    ensures LibertyCount(b, points[..k + 1]) ==
      LibertyCount(b, points[..k]) + (if (i + j) % 2 == 0 then Degree(i, j, 19) else 0)
  {
    assert points[Idx(i, j, 19)] == Entry(i, j, 19);
    LibertyCountSnoc(b, points, k + 1);
  }

  /** One more point of row i. */
  lemma PrefixCol(i: nat, j: nat, before: nat, after: nat)
    requires i < 19 && 0 < j <= 19
    requires before == CheckerRows(i) + CheckerRow(i, j - 1)
    requires after == before + (if (i + j - 1) % 2 == 0 then Degree(i, j - 1, 19) else 0)
    ensures after == CheckerRows(i) + CheckerRow(i, j)
  {
  }

  /** The prefix of k - 1 entries extended by the entry of (i, j - 1). */
  lemma PrefixStepCol(b: Snapshot, points: seq<(Point, seq<Point>)>, k: nat, i: nat, j: nat)
    requires IsTable(points, 19) && LikeCheckerboard(b) && i < 19 && 0 < j <= 19 && k == 19 * i + j
    requires LibertyCount(b, points[..k - 1]) == CheckerRows(i) + CheckerRow(i, j - 1)
    ensures LibertyCount(b, points[..k]) == CheckerRows(i) + CheckerRow(i, j)
  {
    CheckerStep(b, points, k - 1, i, j - 1);
    PrefixCol(i, j, LibertyCount(b, points[..k - 1]), LibertyCount(b, points[..k]));
  }

  /** A finished row i - 1 is the start of row i. */
  lemma RowStart(i: nat)
    requires 0 < i < 19
    ensures CheckerRows(i - 1) + CheckerRow(i - 1, 19) == CheckerRows(i) + CheckerRow(i, 0)
  {
    RowTotal(i - 1);
  }

  /** The liberties of the table's first k = 19 * i + j entries: i rows
      and j more points. */
  lemma {:induction false} CheckerPrefix(b: Snapshot, points: seq<(Point, seq<Point>)>, k: nat, i: nat, j: nat)
    requires IsTable(points, 19) && LikeCheckerboard(b) && i < 19 && j <= 19 && k == 19 * i + j
    ensures k <= |points|
    ensures LibertyCount(b, points[..k]) == CheckerRows(i) + CheckerRow(i, j)
    decreases k, i
  {
    if j > 0 {
      CheckerPrefix(b, points, k - 1, i, j - 1);
      PrefixStepCol(b, points, k, i, j);
    } else if i > 0 {
      CheckerPrefix(b, points, k, i - 1, 19);
      RowStart(i);
    } else {
      assert points[..0] == [];
    }
  }

  lemma WholePrefix(b: Snapshot, points: seq<(Point, seq<Point>)>)
    ensures LibertyCount(b, points[..|points|]) == LibertyCount(b, points)
  {
    assert points[..|points|] == points;
  }

  /** The 19 rows of Checkerboard add up to 684. */
  lemma CheckerTotal()
    ensures CheckerRows(18) + CheckerRow(18, 19) == 684
  {
    CheckerRowsClosed(18);
    RowTotal(18);
  }

  /** move records 684 for Checkerboard. */
  lemma CheckerboardCount(points: seq<(Point, seq<Point>)>)
    requires IsTable(points, 19)
    ensures LibertyCount(Checkerboard(), points) == 684
  {
    CheckerboardEntries();
    CheckerPrefix(Checkerboard(), points, 361, 18, 19);
    WholePrefix(Checkerboard(), points);
    CheckerTotal();
  }

  /** Checkerboard has 684 liberties, every orthogonal pair of the board
      holding one stone and one empty point. */
  lemma CheckerboardLiberties(points: seq<(Point, seq<Point>)>)
    requires IsTable(points, 19)
    ensures LibertyCount(Checkerboard(), points) == 684
    ensures |LibertyPairs(Checkerboard())| == 684
  {
    CheckerboardCount(points);
    TableLiberties(Checkerboard(), points);
  }

  /** The integer average is the floor of the mean. */
  lemma FloorAverageIsFloor(totals: seq<seq<nat>>, n: nat)
    requires Longer(totals, n) > 0
    ensures FloorAverage(totals, n) == Mean(totals, n).Floor
  {
    QuotientFloor(ColumnSum(totals, n), Longer(totals, n));
  }

  lemma QuotientFloor(s: int, g: int)
    requires g > 0
    ensures s / g == (s as real / g as real).Floor
  {
    var q := s / g;
    assert q * g <= s < q * g + g;
    assert (q * g) as real == q as real * g as real;
    RealDivBounds(s as real, g as real, q as real, (q + 1) as real);
    assert ((q + 1) * g) as real == (q + 1) as real * g as real;
    assert s as real / g as real < (q + 1) as real;
  }

  /** Two games with 1 and 2 liberties after move one: end averages them to 1, not 1.5. */
  lemma FloorAverageDropsFraction()
    ensures FloorAverage([[1], [2]], 0) == 1
    ensures Mean([[1], [2]], 0) == 1.5
  {
    var t: seq<seq<nat>> := [[1], [2]];
    assert t[..1] == [[1]];
    assert t[..1][..0] == [];
    assert Longer(t[..1], 0) == 1;
    assert ColumnSum(t[..1], 0) == 1;
    assert Longer(t, 0) == 2;
    assert ColumnSum(t, 0) == 3;
  }

  class LibertiesPerMove {
    const size: nat
    const points: seq<(Point, seq<Point>)>
    var totalliberties: seq<seq<nat>>
    var gameliberties: seq<nat>
    var maxmoves: nat

    /** maxmoves is the length of the longest recorded game. */
    ghost predicate Valid()
      reads this
    {
      IsTable(points, size) && maxmoves == MaxLen(totalliberties)
    }

    /** __init__ (calcs.py:495-499). */
    constructor (size: nat)
      ensures Valid() && this.size == size
      ensures totalliberties == [] && gameliberties == [] && maxmoves == 0
    {
      this.size := size;
      var table := BoardPoints(size);
      points := table;
      totalliberties := [];
      gameliberties := [];
      maxmoves := 0;
    }

    /** gamestart (calcs.py:501-502). */
    method GameStart()
      modifies this
      ensures gameliberties == [] && totalliberties == old(totalliberties) && maxmoves == old(maxmoves)
    {
      gameliberties := [];
    }

    /** move (calcs.py:504-511): on a board of the table's size the new entry
        is the number of (stone, empty neighbour) pairs, by TableLiberties. */
    method Move(b: Snapshot)
      modifies this
      ensures gameliberties == old(gameliberties) + [LibertyCount(b, points)]
      ensures totalliberties == old(totalliberties) && maxmoves == old(maxmoves)
    {
      var liberties := CountLiberties(b, points);
      gameliberties := gameliberties + [liberties];
    }

    /** gameover without its chart (calcs.py:513-520). */
    method GameOver(discard: bool)
      requires Valid()
      modifies this
      ensures Valid() && gameliberties == old(gameliberties)
      ensures discard ==> totalliberties == old(totalliberties) && maxmoves == old(maxmoves)
      ensures !discard ==> totalliberties == old(totalliberties) + [gameliberties]
      ensures !discard ==> maxmoves == Grid.Max(old(maxmoves), |gameliberties|)
    {
      if discard {
        return;
      }
      var before := totalliberties;
      totalliberties := totalliberties + [gameliberties];
      assert totalliberties[..|totalliberties| - 1] == before;
      var moves := |gameliberties|;
      if moves > maxmoves {
        maxmoves := moves;
      }
    }

    /** end without its chart (calcs.py:529-556), with the corrected minimum
        and average; see MinFromSentinel and FloorAverage for the code as written. */
    method End() returns (r: LibTable)
      ensures r == Aggregate(totalliberties, maxmoves)
    {
      var libavg: seq<real> := [];
      var libmin: seq<int> := [];
      var libmax: seq<int> := [];
      var libgames: seq<nat> := [];
      var n := 0;
      while n < maxmoves
        invariant 0 <= n <= maxmoves
        invariant LibTable(libavg, libmin, libmax, libgames) == Aggregate(totalliberties, n)
      {
        var sum := 0;
        var games := 0;
        var min := 0;
        var max: int := -1;
        var k := 0;
        while k < |totalliberties|
          invariant 0 <= k <= |totalliberties|
          invariant sum == ColumnSum(totalliberties[..k], n)
          invariant games == Longer(totalliberties[..k], n)
          invariant min == ColumnMin(totalliberties[..k], n)
          invariant max == ColumnMax(totalliberties[..k], n)
        {
          var game := totalliberties[k];
          assert totalliberties[..k + 1][..k] == totalliberties[..k];
          if |game| > n {
            games := games + 1;
            var v := game[n];
            sum := sum + v;
            if games == 1 || v < min {
              min := v;
            }
            if v > max {
              max := v;
            }
          }
          k := k + 1;
        }
        assert totalliberties[..k] == totalliberties;
        if games > 0 {
          libavg := libavg + [sum as real / games as real];
          libmin := libmin + [min];
          libmax := libmax + [max];
          libgames := libgames + [games];
        }
        n := n + 1;
      }
      r := LibTable(libavg, libmin, libmax, libgames);
    }
  }
}
