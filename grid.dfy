/** Board values shared by every component: stone colours, points, board
    snapshots and the counting of stones over lists of points. A snapshot is
    indexed [row][col] with row 0 at the bottom, as gomill boards are. */
module Grid {
  import opened Wrappers

  /** gomill's colours 'b' and 'w'. */
  datatype Colour = Black | White

  /** What a board point holds: None when empty, as in gomill. */
  type Cell = Option<Colour>

  /** A (row, col) pair. */
  datatype Point = Point(row: int, col: int)

  /** A full board layout; IsBoard says it is size by size. */
  type Snapshot = seq<seq<Cell>>

  predicate IsBoard(b: Snapshot, size: int)
  {
    |b| == size && forall r :: 0 <= r < |b| ==> |b[r]| == size
  }

  /** The bounds test of calcs.py: both coordinates in 0..size-1. */
  predicate InBounds(p: Point, size: int)
  {
    0 <= p.row < size && 0 <= p.col < size
  }

  /** board.get(row, col). Every caller in the model passes a point on the
      board; off the board it answers None so that specifications stay total. */
  function At(b: Snapshot, p: Point): Cell
  {
    if 0 <= p.row < |b| && 0 <= p.col < |b[p.row]| then b[p.row][p.col] else None
  }

  function Abs(x: int): nat
  {
    if x < 0 then -x else x
  }

  function Max(x: int, y: int): int
  {
    if x < y then y else x
  }

  /** Chebyshev (king-move) distance. */
  function Dist(p: Point, q: Point): nat
  {
    Max(Abs(p.row - q.row), Abs(p.col - q.col))
  }

  /** Orthogonal neighbours. */
  predicate Adjacent(p: Point, q: Point)
  {
    Abs(p.row - q.row) + Abs(p.col - q.col) == 1
  }

  predicate Distinct<T(==)>(s: seq<T>)
  {
    forall i, j :: 0 <= i < j < |s| ==> s[i] != s[j]
  }

  predicate AllInBounds(pts: seq<Point>, size: int)
  {
    forall k :: 0 <= k < |pts| ==> InBounds(pts[k], size)
  }

  /** The number of points of pts holding a stone of colour c, counted the way
      the hooks' loops count: one list element at a time. */
  function CountColour(b: Snapshot, pts: seq<Point>, c: Colour): nat
  {
    if pts == [] then 0
    else CountColour(b, pts[..|pts| - 1], c) + (if At(b, pts[|pts| - 1]) == Some(c) then 1 else 0)
  }

  /** The points of pts holding colour c, as a set. */
  function WithColour(b: Snapshot, pts: seq<Point>, c: Colour): set<Point>
  {
    set q | q in pts && At(b, q) == Some(c)
  }

  /** Over a list without repeats, the count is the size of the set it counts. */
  lemma {:induction false} CountIsCard(b: Snapshot, pts: seq<Point>, c: Colour)
    requires Distinct(pts)
    ensures CountColour(b, pts, c) == |WithColour(b, pts, c)|
    decreases |pts|
  {
    if pts != [] {
      var n := |pts| - 1;
      DistinctInit(pts);
      CountIsCard(b, pts[..n], c);
      WithColourSnoc(b, pts, c);
    }
  }

  lemma DistinctInit<T>(s: seq<T>)
    requires |s| > 0 && Distinct(s)
    ensures Distinct(s[..|s| - 1]) && s[|s| - 1] !in s[..|s| - 1]
  {
    var init := s[..|s| - 1];
    forall i, j | 0 <= i < j < |init| ensures init[i] != init[j] {
      assert init[i] == s[i] && init[j] == s[j];
    }
  }

  /** The last point adds itself to the set when it holds the colour. */
  lemma WithColourSnoc(b: Snapshot, pts: seq<Point>, c: Colour)
    requires |pts| > 0 && pts[|pts| - 1] !in pts[..|pts| - 1]
    ensures var last := pts[|pts| - 1];
      WithColour(b, pts, c) == WithColour(b, pts[..|pts| - 1], c) + (if At(b, last) == Some(c) then {last} else {}) &&
      last !in WithColour(b, pts[..|pts| - 1], c)
  {
    var n := |pts| - 1;
    var init, last := pts[..n], pts[n];
    var whole, part := WithColour(b, pts, c), WithColour(b, init, c);
    forall q | q in whole ensures q in part || q == last {
      var k :| 0 <= k < |pts| && pts[k] == q;
      if k < n {
        assert init[k] == q;
      }
    }
    forall q | q in part ensures q in whole {
      var k :| 0 <= k < n && init[k] == q;
      assert pts[k] == q;
    }
  }

  /** Counting over a concatenation adds up. */
  lemma {:induction false} CountAppend(b: Snapshot, xs: seq<Point>, ys: seq<Point>, c: Colour)
    ensures CountColour(b, xs + ys, c) == CountColour(b, xs, c) + CountColour(b, ys, c)
    decreases |ys|
  {
    if ys == [] {
      assert xs + ys == xs;
    } else {
      var n := |ys| - 1;
      assert (xs + ys)[..|xs + ys| - 1] == xs + ys[..n];
      CountAppend(b, xs, ys[..n], c);
    }
  }
}
