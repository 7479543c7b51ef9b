/** Board geometry of goat/calcs.py: the orthogonal neighbour table built by
    board_points, and the square perimeters of StoneCountCenterPoint (a copy
    of which, without the corner flag, is in go/main.py). */
module Geometry {
  import opened Wrappers
  import opened Grid

  /** Left, right, below and above p, in the order board_points tries them. */
  function Candidates(p: Point): seq<Point>
  {
    [Point(p.row, p.col - 1), Point(p.row, p.col + 1), Point(p.row - 1, p.col), Point(p.row + 1, p.col)]
  }

  /** The elements of cands that lie on the board, in order. */
  function OnBoard(cands: seq<Point>, size: int): seq<Point>
  {
    if cands == [] then []
    else
      var last := cands[|cands| - 1];
      OnBoard(cands[..|cands| - 1], size) + (if InBounds(last, size) then [last] else [])
  }

  /** The neighbour list board_points stores for p. */
  function Neighbours(p: Point, size: int): seq<Point>
  {
    OnBoard(Candidates(p), size)
  }

  /** The on-board test applied to one candidate. */
  function Keep(q: Point, size: int): seq<Point>
  {
    if InBounds(q, size) then [q] else []
  }

  /** The neighbour list is left, right, below and above, in that order, each
      kept exactly when it lies on the board. */
  lemma NeighboursInOrder(p: Point, size: int)
    ensures Neighbours(p, size) ==
      Keep(Point(p.row, p.col - 1), size) + Keep(Point(p.row, p.col + 1), size) +
      Keep(Point(p.row - 1, p.col), size) + Keep(Point(p.row + 1, p.col), size)
  {
    var c := Candidates(p);
    assert c[..3][..2] == c[..2] && c[..2][..1] == c[..1] && c[..1][..0] == [];
    assert OnBoard(c[..1], size) == Keep(c[0], size);
    assert OnBoard(c[..2], size) == OnBoard(c[..1], size) + Keep(c[1], size);
    assert OnBoard(c[..3], size) == OnBoard(c[..2], size) + Keep(c[2], size);
    assert OnBoard(c, size) == OnBoard(c[..3], size) + Keep(c[3], size);
  }

  /** Row-major position of (i, j). */
  function Idx(i: int, j: int, size: int): int
  {
    i * size + j
  }

  function Entry(i: int, j: int, size: int): (Point, seq<Point>)
  {
    (Point(i, j), Neighbours(Point(i, j), size))
  }

  /** The first rows of a neighbour table: position Idx(i, j) holds (i, j) and its neighbours. */
  predicate TableRows(points: seq<(Point, seq<Point>)>, rows: int, size: int)
  {
    forall i, j :: 0 <= i < rows && 0 <= j < size ==>
      0 <= Idx(i, j, size) < |points| && points[Idx(i, j, size)] == Entry(i, j, size)
  }

  /** What board_points(size) returns: size*size entries in row-major order. */
  predicate IsTable(points: seq<(Point, seq<Point>)>, size: nat)
  {
    |points| == size * size && TableRows(points, size, size)
  }

  /** board_points(size) (calcs.py:33-48). */
  method BoardPoints(size: nat) returns (points: seq<(Point, seq<Point>)>)
    ensures IsTable(points, size)
  {
    points := [];
    var i := 0;
    while i < size
      invariant 0 <= i <= size
      invariant |points| == i * size
      invariant TableRows(points, i, size)
    {
      var j := 0;
      while j < size
        invariant 0 <= j <= size
        invariant |points| == i * size + j
        invariant TableRows(points, i, size)
        invariant forall j' :: 0 <= j' < j ==> points[Idx(i, j', size)] == Entry(i, j', size)
      {
        var cands := Candidates(Point(i, j));
        var neighs := [];
        var k := 0;
        while k < |cands|
          invariant 0 <= k <= |cands|
          invariant neighs == OnBoard(cands[..k], size)
        {
          var neigh := cands[k];
          if 0 <= neigh.row <= size - 1 && 0 <= neigh.col <= size - 1 {
            neighs := neighs + [neigh];
          }
          assert cands[..k + 1][..k] == cands[..k];
          k := k + 1;
        }
        assert cands[..k] == cands;
        points := points + [(Point(i, j), neighs)];
        j := j + 1;
      }
      i := i + 1;
    }
  }

  /** A neighbour list holds exactly the on-board orthogonal neighbours. */
  lemma NeighboursExact(p: Point, size: int)
    ensures forall q :: q in Neighbours(p, size) <==> InBounds(q, size) && Adjacent(p, q)
    ensures Distinct(Neighbours(p, size))
    ensures AllInBounds(Neighbours(p, size), size)
  {
    var c := Candidates(p);
    OnBoardFacts(c, size);
    assert forall q :: q in c <==> Adjacent(p, q);
  }

  /** OnBoard keeps exactly the on-board candidates, and adds no repeats. */
  lemma {:induction false} OnBoardFacts(cands: seq<Point>, size: int)
    ensures forall q :: q in OnBoard(cands, size) <==> q in cands && InBounds(q, size)
    ensures Distinct(cands) ==> Distinct(OnBoard(cands, size))
    ensures AllInBounds(OnBoard(cands, size), size)
    decreases |cands|
  {
    if cands != [] {
      var init := cands[..|cands| - 1];
      OnBoardFacts(init, size);
      assert cands == init + [cands[|cands| - 1]];
    }
  }

  /** The neighbour relation is symmetric. */
  lemma NeighbourSymmetric(p: Point, q: Point, size: int)
    requires InBounds(p, size) && q in Neighbours(p, size)
    ensures p in Neighbours(q, size)
  {
    NeighboursExact(p, size);
    NeighboursExact(q, size);
  }

  lemma IdxRange(i: int, j: int, rows: int, size: int)
    requires 0 <= i < rows && 0 <= j < size
    ensures 0 <= Idx(i, j, size) < rows * size
  {
    assert i * size <= (rows - 1) * size by {
      MulMono(i, rows - 1, size);
    }
  }

  lemma MulMono(a: int, b: int, c: nat)
    requires a <= b
    ensures a * c <= b * c
  {
  }

  /** Row-major positions are distinct for distinct points. */
  lemma IdxInjective(i: int, j: int, i': int, j': int, size: int)
    requires 0 <= j < size && 0 <= j' < size
    requires Idx(i, j, size) == Idx(i', j', size)
    ensures i == i' && j == j'
  {
    if i < i' {
      MulMono(i + 1, i', size);
    } else if i' < i {
      MulMono(i' + 1, i, size);
    }
  }

  /** Every position of a table is Idx(i, j) of some point on the board. */
  lemma TableEntry(points: seq<(Point, seq<Point>)>, size: nat, k: int)
    requires IsTable(points, size) && 0 <= k < |points|
    ensures size > 0
    ensures InBounds(points[k].0, size)
    ensures k == Idx(points[k].0.row, points[k].0.col, size)
    ensures points[k] == Entry(points[k].0.row, points[k].0.col, size)
  {
    var i, j := k / size, k % size;
    assert k == i * size + j;
    if i >= size {
      MulMono(size, i, size);
    }
    assert Idx(i, j, size) == k;
  }

  /** The first components of a table, the points hooks iterate over. */
  function TablePoints(points: seq<(Point, seq<Point>)>): (ps: seq<Point>)
    ensures |ps| == |points|
    ensures forall k :: 0 <= k < |points| ==> ps[k] == points[k].0
  {
    seq(|points|, k requires 0 <= k < |points| => points[k].0)
  }

  /** Every point of the board, as a set. */
  function BoardSet(size: int): set<Point>
  {
    set r, c | 0 <= r < size && 0 <= c < size :: Point(r, c)
  }

  lemma BoardSetMembers(size: int)
    ensures forall q :: q in BoardSet(size) <==> InBounds(q, size)
  {
    forall q | InBounds(q, size)
      ensures q in BoardSet(size)
    {
      assert q == Point(q.row, q.col);
    }
  }

  /** Every stone of colour c on the board. */
  function Stones(b: Snapshot, c: Colour): set<Point>
  {
    set q | q in BoardSet(|b|) && At(b, q) == Some(c)
  }

  /** A table visits every point of the board exactly once. */
  lemma TableCoversBoard(points: seq<(Point, seq<Point>)>, size: nat)
    requires IsTable(points, size)
    ensures Distinct(TablePoints(points))
    ensures AllInBounds(TablePoints(points), size)
    ensures forall q :: q in TablePoints(points) <==> InBounds(q, size)
  {
    var ps := TablePoints(points);
    forall a, b | 0 <= a < b < |ps|
      ensures ps[a] != ps[b]
    {
      TableEntry(points, size, a);
      TableEntry(points, size, b);
    }
    forall k | 0 <= k < |ps|
      ensures InBounds(ps[k], size)
    {
      TableEntry(points, size, k);
    }
    forall q | InBounds(q, size)
      ensures q in ps
    {
      IdxRange(q.row, q.col, size, size);
      assert ps[Idx(q.row, q.col, size)] == q;
    }
  }

  /** The in-bounds points at Chebyshev distance d from p, without repeats. */
  ghost predicate IsRing(pts: seq<Point>, p: Point, d: nat, size: int)
  {
    Distinct(pts) && forall q :: q in pts <==> InBounds(q, size) && Dist(p, q) == d
  }

  lemma DistinctAppend(s: seq<Point>, x: Point)
    requires Distinct(s) && x !in s
    ensures Distinct(s + [x])
  {
  }

  /** square_perimeter_points(distance, limits) with limits = (0, size-1)
      (calcs.py:467-491, go/main.py:246-270). */
  method SquarePerimeterPoints(p: Point, distance: nat, size: int) returns (points: seq<Point>)
    ensures IsRing(points, p, distance, size)
  {
    points := [];
    if distance == 0 {
      if InBounds(p, size) {
        points := points + [p];
      }
      return;
    }
    var d := distance;
    // bottom and top rows, corners included
    var x := p.row - d;
    while x < p.row + d + 1
      invariant p.row - d <= x <= p.row + d + 1
      invariant Distinct(points)
      invariant forall q :: q in points <==>
        InBounds(q, size) && p.row - d <= q.row < x && (q.col == p.col - d || q.col == p.col + d)
    {
      var lo := Point(x, p.col - d);
      if InBounds(lo, size) {
        DistinctAppend(points, lo);
        points := points + [lo];
      }
      var hi := Point(x, p.col + d);
      if InBounds(hi, size) {
        DistinctAppend(points, hi);
        points := points + [hi];
      }
      x := x + 1;
    }
    // left and right columns, corners excluded
    var y := p.col - d + 1;
    while y < p.col + d - 1 + 1
      invariant p.col - d + 1 <= y <= p.col + d
      invariant Distinct(points)
      invariant forall q :: q in points <==>
        InBounds(q, size) &&
        ((p.row - d <= q.row <= p.row + d && (q.col == p.col - d || q.col == p.col + d)) ||
         ((q.row == p.row - d || q.row == p.row + d) && p.col - d < q.col < y))
    {
      var lo := Point(p.row - d, y);
      if InBounds(lo, size) {
        DistinctAppend(points, lo);
        points := points + [lo];
      }
      var hi := Point(p.row + d, y);
      if InBounds(hi, size) {
        DistinctAppend(points, hi);
        points := points + [hi];
      }
      y := y + 1;
    }
  }

  /** perimeters[i] is the ring at distance i, for i in 0..size-1. */
  ghost predicate IsPerimeters(perims: seq<seq<Point>>, p: Point, size: nat)
  {
    |perims| == size && forall i :: 0 <= i < size ==> IsRing(perims[i], p, i, size)
  }

  /** Whether p's coordinates are both in limits = (0, size-1). */
  predicate IsCorner(p: Point, size: int)
  {
    (p.row == 0 || p.row == size - 1) && (p.col == 0 || p.col == size - 1)
  }

  /** Distinct perimeters share no point. */
  lemma PerimetersDisjoint(perims: seq<seq<Point>>, p: Point, size: nat, i: nat, j: nat, q: Point)
    requires IsPerimeters(perims, p, size) && i < size && j < size && i != j
    ensures !(q in perims[i] && q in perims[j])
  {
  }

  /** From a point on the board, perimeters 0..size-1 cover the whole board:
      each point lies on the perimeter of its distance. This holds for the
      corners in particular. */
  lemma PerimetersCover(perims: seq<seq<Point>>, p: Point, size: nat, q: Point)
    requires IsPerimeters(perims, p, size) && InBounds(p, size) && InBounds(q, size)
    ensures Dist(p, q) < size && q in perims[Dist(p, q)]
  {
  }

  /** StoneCountCenterPoint of calcs.py (and of go/main.py, which has no
      corner flag): a reference point, its perimeters and the per-game
      tallies StonesPerSquare attaches to it. */
  class StoneCountCenterPoint {
    const point: Point
    const caption: string
    const corner: bool
    const perimeters: seq<seq<Point>>
    var gamestones: seq<seq<nat>>
    var gameblacks: seq<seq<nat>>
    var gamewhites: seq<seq<nat>>
    var gamewiners: seq<seq<nat>>
    var gamelosers: seq<seq<nat>>

    /** __init__(point, label, color, limits) with limits = (0, size-1)
        (calcs.py:456-465, go/main.py:237-244). */
    constructor (point: Point, caption: string, size: nat)
      ensures this.point == point && this.caption == caption
      ensures corner == IsCorner(point, size)
      ensures IsPerimeters(perimeters, point, size)
    {
      this.point := point;
      this.caption := caption;
      corner := (point.row == 0 || point.row == size - 1) && (point.col == 0 || point.col == size - 1);
      var perims: seq<seq<Point>> := [];
      var i := 0;
      while i < size
        invariant 0 <= i <= size
        invariant |perims| == i
        invariant forall k :: 0 <= k < i ==> IsRing(perims[k], point, k, size)
      {
        var ring := SquarePerimeterPoints(point, i, size);
        perims := perims + [ring];
        i := i + 1;
      }
      perimeters := perims;
    }

    /** Empties the five game lists, as the hooks' __init__ does for each centre. */
    method ClearGames()
      modifies this
      ensures gamestones == [] && gameblacks == [] && gamewhites == [] && gamewiners == [] && gamelosers == []
    {
      gamestones, gameblacks, gamewhites, gamewiners, gamelosers := [], [], [], [], [];
    }
  }
}
