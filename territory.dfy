/** Territories of goat/calcs.py: an ad-hoc scan of the final board that
    collects empty points into regions. A region is the point list of a
    Territory object; its colour field is never set. */
module Territory {
  import opened Wrappers
  import opened Grid
  import opened Geometry

  type Region = seq<Point>

  /** The first region, from index k on, that contains q. */
  function FindFrom(ts: seq<Region>, q: Point, k: nat): (r: Option<nat>)
    ensures r.Some? ==> k <= r.value < |ts| && q in ts[r.value] && forall i :: k <= i < r.value ==> q !in ts[i]
    ensures r.None? ==> forall i :: k <= i < |ts| ==> q !in ts[i]
    decreases |ts| - k
  {
    if k >= |ts| then None
    else if q in ts[k] then Some(k)
    else FindFrom(ts, q, k + 1)
  }

  /** The region picked for a new empty point: for the first neighbour, in
      order, that lies in some region, the first region holding it. */
  function FirstHit(ts: seq<Region>, neighs: seq<Point>): (r: Option<nat>)
    ensures r.Some? ==> r.value < |ts| && exists j :: 0 <= j < |neighs| && neighs[j] in ts[r.value]
    ensures r.None? ==> forall j, i :: 0 <= j < |neighs| && 0 <= i < |ts| ==> neighs[j] !in ts[i]
  {
    if neighs == [] then None
    else
      match FindFrom(ts, neighs[0], 0)
      case Some(k) => Some(k)
      case None =>
        var r := FirstHit(ts, neighs[1..]);
        assert forall j :: 1 <= j < |neighs| ==> neighs[j] == neighs[1..][j - 1];
        r
  }

  /** The empty points among neighs, in order. */
  function EmptyOf(b: Snapshot, neighs: seq<Point>): (r: seq<Point>)
    ensures forall q :: q in r <==> q in neighs && At(b, q) == None
  {
    if neighs == [] then []
    else
      var last := neighs[|neighs| - 1];
      assert neighs == neighs[..|neighs| - 1] + [last];
      EmptyOf(b, neighs[..|neighs| - 1]) + (if At(b, last) == None then [last] else [])
  }

  /** One step of the scan: a stone changes nothing; an empty point joins the
      region FirstHit picks or starts a region with its empty neighbours. */
  function Place(b: Snapshot, ts: seq<Region>, entry: (Point, seq<Point>)): seq<Region>
  {
    var (p, neighs) := entry;
    if At(b, p) != None then ts
    else
      match FirstHit(ts, neighs)
      case Some(k) => ts[k := ts[k] + [p]]
      case None => ts + [[p] + EmptyOf(b, neighs)]
  }

  /** The scan over a prefix of the neighbour table. */
  function Scan(b: Snapshot, ts: seq<Region>, entries: seq<(Point, seq<Point>)>): seq<Region>
  {
    if entries == [] then ts
    else Place(b, Scan(b, ts, entries[..|entries| - 1]), entries[|entries| - 1])
  }

  /** The inner for/else loops of gameover (calcs.py:600-607). */
  method FindHit(ts: seq<Region>, neighs: seq<Point>) returns (hit: Option<nat>)
    ensures hit == FirstHit(ts, neighs)
  {
    var j := 0;
    while j < |neighs|
      invariant 0 <= j <= |neighs|
      invariant FirstHit(ts, neighs) == FirstHit(ts, neighs[j..])
    {
      var neigh := neighs[j];
      var k := 0;
      while k < |ts|
        invariant 0 <= k <= |ts|
        invariant FindFrom(ts, neigh, 0) == FindFrom(ts, neigh, k)
      {
        if neigh in ts[k] {
          assert FirstHit(ts, neighs[j..]) == Some(k);
          return Some(k);
        }
        k := k + 1;
      }
      assert neighs[j..][1..] == neighs[j + 1..];
      j := j + 1;
    }
    return None;
  }

  /** The else branch of the inner loops: a region of the point and its empty neighbours. */
  method NewRegion(b: Snapshot, point: Point, neighs: seq<Point>) returns (t: Region)
    ensures t == [point] + EmptyOf(b, neighs)
  {
    t := [point];
    var j := 0;
    while j < |neighs|
      invariant 0 <= j <= |neighs|
      invariant t == [point] + EmptyOf(b, neighs[..j])
    {
      if At(b, neighs[j]) == None {
        t := t + [neighs[j]];
      }
      assert neighs[..j + 1][..j] == neighs[..j];
      j := j + 1;
    }
    assert neighs[..j] == neighs;
  }

  /** Every region of ts is a prefix of the region at the same index in ts'. */
  ghost predicate Extends(ts: seq<Region>, ts': seq<Region>)
  {
    |ts| <= |ts'| && forall k :: 0 <= k < |ts| ==> ts[k] <= ts'[k]
  }

  /** A region holding only empty points. */
  ghost predicate EmptyRegion(b: Snapshot, t: Region)
  {
    forall i :: 0 <= i < |t| ==> At(b, t[i]) == None
  }

  /** A region each of whose points after the first is adjacent to an earlier one. */
  ghost predicate ChainedRegion(t: Region)
  {
    forall i :: 0 < i < |t| ==> Linked(t, i)
  }

  /** Point i of t is adjacent to an earlier point of t. */
  ghost predicate Linked(t: Region, i: nat)
    requires i < |t|
  {
    exists j :: 0 <= j < i && Adjacent(t[i], t[j])
  }

  ghost predicate AllEmpty(b: Snapshot, ts: seq<Region>)
  {
    forall k :: 0 <= k < |ts| ==> EmptyRegion(b, ts[k])
  }

  ghost predicate Chained(ts: seq<Region>)
  {
    forall k :: 0 <= k < |ts| ==> ChainedRegion(ts[k])
  }

  /** Each entry's list holds orthogonal neighbours of its point. */
  ghost predicate NeighbourLists(entries: seq<(Point, seq<Point>)>)
  {
    forall k, q :: 0 <= k < |entries| && q in entries[k].1 ==> Adjacent(entries[k].0, q)
  }

  lemma TableNeighbourLists(points: seq<(Point, seq<Point>)>, size: nat)
    requires IsTable(points, size)
    ensures NeighbourLists(points)
  {
    forall k, q | 0 <= k < |points| && q in points[k].1
      ensures Adjacent(points[k].0, q)
    {
      TableEntry(points, size, k);
      NeighboursExact(points[k].0, size);
    }
  }

  /** Place only grows regions, keeps them empty and chained, and covers an empty point. */
  lemma PlaceFacts(b: Snapshot, ts: seq<Region>, entry: (Point, seq<Point>))
    requires AllEmpty(b, ts) && Chained(ts)
    requires forall q :: q in entry.1 ==> Adjacent(entry.0, q)
    ensures Extends(ts, Place(b, ts, entry))
    ensures AllEmpty(b, Place(b, ts, entry)) && Chained(Place(b, ts, entry))
    ensures At(b, entry.0) == None ==> exists k :: 0 <= k < |Place(b, ts, entry)| && entry.0 in Place(b, ts, entry)[k]
  {
    var (p, neighs) := entry;
    if At(b, p) == None {
      match FirstHit(ts, neighs)
      case Some(k) =>
        JoinFacts(b, ts, p, neighs, k);
      case None =>
        NewRegionFacts(b, ts, p, neighs);
    }
  }

  /** An empty point appended to the region holding one of its neighbours. */
  lemma JoinFacts(b: Snapshot, ts: seq<Region>, p: Point, neighs: seq<Point>, k: nat)
    requires AllEmpty(b, ts) && Chained(ts) && At(b, p) == None
    requires forall q :: q in neighs ==> Adjacent(p, q)
    requires k < |ts| && exists j :: 0 <= j < |neighs| && neighs[j] in ts[k]
    ensures var r := ts[k := ts[k] + [p]];
      Extends(ts, r) && AllEmpty(b, r) && Chained(r) && p in r[k]
  {
    var j :| 0 <= j < |neighs| && neighs[j] in ts[k];
    var i :| 0 <= i < |ts[k]| && ts[k][i] == neighs[j];
    assert Adjacent(p, neighs[j]);
    ChainedSnoc(ts[k], p, i);
    EmptySnoc(b, ts[k], p);
    UpdateKeeps(b, ts, k, ts[k] + [p]);
  }

  /** A point adjacent to one of a chained region's points extends it as a chain. */
  lemma ChainedSnoc(t: Region, p: Point, i: nat)
    requires ChainedRegion(t) && i < |t| && Adjacent(p, t[i])
    ensures ChainedRegion(t + [p])
  {
    var u := t + [p];
    forall x | 0 < x < |u| ensures Linked(u, x) {
      if x < |t| {
        assert Linked(t, x);
        var y :| 0 <= y < x && Adjacent(t[x], t[y]);
        assert u[x] == t[x] && u[y] == t[y];
        assert Adjacent(u[x], u[y]);
      } else {
        assert u[x] == p && u[i] == t[i];
        assert 0 <= i < x && Adjacent(u[x], u[i]);
      }
    }
  }

  lemma EmptySnoc(b: Snapshot, t: Region, p: Point)
    requires EmptyRegion(b, t) && At(b, p) == None
    ensures EmptyRegion(b, t + [p])
  {
  }

  /** Replacing a region by an empty, chained extension of it keeps the scan's invariants. */
  lemma UpdateKeeps(b: Snapshot, ts: seq<Region>, k: nat, t: Region)
    requires AllEmpty(b, ts) && Chained(ts) && k < |ts| && ts[k] <= t
    requires EmptyRegion(b, t) && ChainedRegion(t)
    ensures Extends(ts, ts[k := t]) && AllEmpty(b, ts[k := t]) && Chained(ts[k := t])
  {
  }

  /** An empty point with no neighbour in a region starts one with its empty neighbours. */
  lemma NewRegionFacts(b: Snapshot, ts: seq<Region>, p: Point, neighs: seq<Point>)
    requires AllEmpty(b, ts) && Chained(ts) && At(b, p) == None
    requires forall q :: q in neighs ==> Adjacent(p, q)
    ensures var r := ts + [[p] + EmptyOf(b, neighs)];
      Extends(ts, r) && AllEmpty(b, r) && Chained(r) && p in r[|ts|]
  {
    var t := [p] + EmptyOf(b, neighs);
    assert ChainedRegion(t) by {
      forall x | 0 < x < |t| ensures Linked(t, x) {
        assert t[x] in EmptyOf(b, neighs);
        assert Adjacent(t[x], t[0]);
      }
    }
    assert EmptyRegion(b, t) by {
      forall x | 0 <= x < |t| ensures At(b, t[x]) == None {
        if x > 0 {
          assert t[x] in EmptyOf(b, neighs);
        }
      }
    }
  }

  lemma ExtendsTrans(a: seq<Region>, b: seq<Region>, c: seq<Region>)
    requires Extends(a, b) && Extends(b, c)
    ensures Extends(a, c)
  {
  }

  lemma NeighbourListsPrefix(entries: seq<(Point, seq<Point>)>, n: nat)
    requires NeighbourLists(entries) && n <= |entries|
    ensures NeighbourLists(entries[..n])
  {
    forall k, q | 0 <= k < n && q in entries[..n][k].1 ensures Adjacent(entries[..n][k].0, q) {
      assert entries[..n][k] == entries[k];
    }
  }

  /** The scan keeps regions growing, empty and chained. */
  lemma {:induction false} ScanInvariants(b: Snapshot, ts: seq<Region>, entries: seq<(Point, seq<Point>)>)
    requires AllEmpty(b, ts) && Chained(ts) && NeighbourLists(entries)
    ensures Extends(ts, Scan(b, ts, entries))
    ensures AllEmpty(b, Scan(b, ts, entries)) && Chained(Scan(b, ts, entries))
    decreases |entries|
  {
    if entries != [] {
      var n := |entries| - 1;
      NeighbourListsPrefix(entries, n);
      ScanInvariants(b, ts, entries[..n]);
      var mid := Scan(b, ts, entries[..n]);
      assert forall q :: q in entries[n].1 ==> Adjacent(entries[n].0, q);
      PlaceFacts(b, mid, entries[n]);
      ExtendsTrans(ts, mid, Scan(b, ts, entries));
    }
  }

  /** Every empty point of the scanned entries lies in some region. */
  lemma {:induction false} ScanCovers(b: Snapshot, ts: seq<Region>, entries: seq<(Point, seq<Point>)>, e: nat)
    requires AllEmpty(b, ts) && Chained(ts) && NeighbourLists(entries)
    requires e < |entries| && At(b, entries[e].0) == None
    ensures exists k :: 0 <= k < |Scan(b, ts, entries)| && entries[e].0 in Scan(b, ts, entries)[k]
    decreases |entries|
  {
    var n := |entries| - 1;
    NeighbourListsPrefix(entries, n);
    ScanInvariants(b, ts, entries[..n]);
    var mid := Scan(b, ts, entries[..n]);
    assert forall q :: q in entries[n].1 ==> Adjacent(entries[n].0, q);
    PlaceFacts(b, mid, entries[n]);
    var r := Scan(b, ts, entries);
    if e < n {
      assert entries[..n][e] == entries[e];
      ScanCovers(b, ts, entries[..n], e);
      var k :| 0 <= k < |mid| && entries[e].0 in mid[k];
      assert mid[k] <= r[k];
      assert entries[e].0 in r[k];
    }
  }

  /** What the scan of gameover (calcs.py:597-613) leaves, from no regions:
      every empty point is in some region, regions hold only empty points and
      each point of a region after its first is adjacent to an earlier one. */
  lemma TerritoriesOfBoard(b: Snapshot, points: seq<(Point, seq<Point>)>)
    requires IsTable(points, |b|)
    ensures AllEmpty(b, Scan(b, [], points)) && Chained(Scan(b, [], points))
    ensures forall p :: InBounds(p, |b|) && At(b, p) == None ==>
      exists k :: 0 <= k < |Scan(b, [], points)| && p in Scan(b, [], points)[k]
  {
    var none: seq<Region> := [];
    TableNeighbourLists(points, |b|);
    ScanInvariants(b, none, points);
    TableCoversBoard(points, |b|);
    forall p | InBounds(p, |b|) && At(b, p) == None
      ensures exists k :: 0 <= k < |Scan(b, none, points)| && p in Scan(b, none, points)[k]
    {
      assert p in TablePoints(points);
      var e :| 0 <= e < |points| && TablePoints(points)[e] == p;
      assert points[e].0 == p;
      ScanCovers(b, none, points, e);
      var r := Scan(b, none, points);
      var k :| 0 <= k < |r| && points[e].0 in r[k];
      assert p in r[k];
    }
  }

  lemma TableEntryAt(points: seq<(Point, seq<Point>)>, size: nat, i: int, j: int)
    requires IsTable(points, size) && 0 <= i < size && 0 <= j < size
    ensures 0 <= i * size + j < |points|
    ensures points[i * size + j] == (Point(i, j),
      Keep(Point(i, j - 1), size) + Keep(Point(i, j + 1), size) + Keep(Point(i - 1, j), size) + Keep(Point(i + 1, j), size))
  {
    assert points[Idx(i, j, size)] == Entry(i, j, size);
    NeighboursInOrder(Point(i, j), size);
  }

  lemma ScanStep(b: Snapshot, ts: seq<Region>, entries: seq<(Point, seq<Point>)>, k: nat)
    requires k < |entries|
    ensures Scan(b, ts, entries[..k + 1]) == Place(b, Scan(b, ts, entries[..k]), entries[k])
  {
    assert entries[..k + 1][..k] == entries[..k];
  }

  lemma EmptyOfPrefixes(b: Snapshot, neighs: seq<Point>)
    ensures |neighs| == 2 ==> EmptyOf(b, neighs) == EmptyOf(b, [neighs[0]]) + EmptyOf(b, [neighs[1]])
    ensures |neighs| == 3 ==> EmptyOf(b, neighs) == EmptyOf(b, [neighs[0]]) + EmptyOf(b, [neighs[1]]) + EmptyOf(b, [neighs[2]])
  {
    if |neighs| == 2 {
      assert neighs[..1] == [neighs[0]];
      assert [neighs[0]][..0] == [];
      assert [neighs[1]][..0] == [];
    }
    if |neighs| == 3 {
      assert neighs[..2] == [neighs[0], neighs[1]];
      assert neighs[..2][..1] == [neighs[0]];
      assert [neighs[0]][..0] == [];
      assert [neighs[1]][..0] == [];
      assert [neighs[2]][..0] == [];
    }
  }

  /** The 3x3 board of RegionsNotPartition: one black stone at (0, 1). */
  function Board3(): Snapshot
  {
    [[None, Some(Black), None], [None, None, None], [None, None, None]]
  }

  /** board_points(3), written out. */
  function Table3(): seq<(Point, seq<Point>)>
  {
    [
      (Point(0, 0), [Point(0, 1), Point(1, 0)]),
      (Point(0, 1), [Point(0, 0), Point(0, 2), Point(1, 1)]),
      (Point(0, 2), [Point(0, 1), Point(1, 2)]),
      (Point(1, 0), [Point(1, 1), Point(0, 0), Point(2, 0)]),
      (Point(1, 1), [Point(1, 0), Point(1, 2), Point(0, 1), Point(2, 1)]),
      (Point(1, 2), [Point(1, 1), Point(0, 2), Point(2, 2)]),
      (Point(2, 0), [Point(2, 1), Point(1, 0)]),
      (Point(2, 1), [Point(2, 0), Point(2, 2), Point(1, 1)]),
      (Point(2, 2), [Point(2, 1), Point(1, 2)])
    ]
  }

  lemma Table3Row0(points: seq<(Point, seq<Point>)>)
    requires IsTable(points, 3)
    ensures points[0] == Table3()[0] && points[1] == Table3()[1] && points[2] == Table3()[2]
  {
    var t := Table3();
    assert points[0] == t[0] by {
      TableEntryAt(points, 3, 0, 0);
      assert Keep(Point(0, -1), 3) + Keep(Point(0, 1), 3) + Keep(Point(-1, 0), 3) + Keep(Point(1, 0), 3) == t[0].1;
    }
    assert points[1] == t[1] by {
      TableEntryAt(points, 3, 0, 1);
      assert Keep(Point(0, 0), 3) + Keep(Point(0, 2), 3) + Keep(Point(-1, 1), 3) + Keep(Point(1, 1), 3) == t[1].1;
    }
    assert points[2] == t[2] by {
      TableEntryAt(points, 3, 0, 2);
      assert Keep(Point(0, 1), 3) + Keep(Point(0, 3), 3) + Keep(Point(-1, 2), 3) + Keep(Point(1, 2), 3) == t[2].1;
    }
  }

  lemma Table3Row1(points: seq<(Point, seq<Point>)>)
    requires IsTable(points, 3)
    ensures points[3] == Table3()[3] && points[4] == Table3()[4] && points[5] == Table3()[5]
  {
    var t := Table3();
    assert points[3] == t[3] by {
      TableEntryAt(points, 3, 1, 0);
      assert Keep(Point(1, -1), 3) + Keep(Point(1, 1), 3) + Keep(Point(0, 0), 3) + Keep(Point(2, 0), 3) == t[3].1;
    }
    assert points[4] == t[4] by {
      TableEntryAt(points, 3, 1, 1);
      assert Keep(Point(1, 0), 3) + Keep(Point(1, 2), 3) + Keep(Point(0, 1), 3) + Keep(Point(2, 1), 3) == t[4].1;
    }
    assert points[5] == t[5] by {
      TableEntryAt(points, 3, 1, 2);
      assert Keep(Point(1, 1), 3) + Keep(Point(1, 3), 3) + Keep(Point(0, 2), 3) + Keep(Point(2, 2), 3) == t[5].1;
    }
  }

  lemma Table3Row2(points: seq<(Point, seq<Point>)>)
    requires IsTable(points, 3)
    ensures points[6] == Table3()[6] && points[7] == Table3()[7] && points[8] == Table3()[8]
  {
    var t := Table3();
    assert points[6] == t[6] by {
      TableEntryAt(points, 3, 2, 0);
      assert Keep(Point(2, -1), 3) + Keep(Point(2, 1), 3) + Keep(Point(1, 0), 3) + Keep(Point(3, 0), 3) == t[6].1;
    }
    assert points[7] == t[7] by {
      TableEntryAt(points, 3, 2, 1);
      assert Keep(Point(2, 0), 3) + Keep(Point(2, 2), 3) + Keep(Point(1, 1), 3) + Keep(Point(3, 1), 3) == t[7].1;
    }
    assert points[8] == t[8] by {
      TableEntryAt(points, 3, 2, 2);
      assert Keep(Point(2, 1), 3) + Keep(Point(2, 3), 3) + Keep(Point(1, 2), 3) + Keep(Point(3, 2), 3) == t[8].1;
    }
  }

  lemma IsTable3(points: seq<(Point, seq<Point>)>)
    requires IsTable(points, 3)
    ensures points == Table3()
  {
    Table3Row0(points);
    Table3Row1(points);
    Table3Row2(points);
  }

  /** The regions after the first k points of Table3(). */
  function Scan3State(k: nat): seq<Region>
  {
    if k == 0 then []
    else if k == 1 then [[Point(0, 0), Point(1, 0)]]
    else if k == 2 then [[Point(0, 0), Point(1, 0)]]
    else if k == 3 then [[Point(0, 0), Point(1, 0)], [Point(0, 2), Point(1, 2)]]
    else if k == 4 then [[Point(0, 0), Point(1, 0), Point(1, 0)], [Point(0, 2), Point(1, 2)]]
    else if k == 5 then [[Point(0, 0), Point(1, 0), Point(1, 0), Point(1, 1)], [Point(0, 2), Point(1, 2)]]
    else if k == 6 then [[Point(0, 0), Point(1, 0), Point(1, 0), Point(1, 1), Point(1, 2)], [Point(0, 2), Point(1, 2)]]
    else if k == 7 then [[Point(0, 0), Point(1, 0), Point(1, 0), Point(1, 1), Point(1, 2), Point(2, 0)], [Point(0, 2), Point(1, 2)]]
    else if k == 8 then [[Point(0, 0), Point(1, 0), Point(1, 0), Point(1, 1), Point(1, 2), Point(2, 0), Point(2, 1)], [Point(0, 2), Point(1, 2)]]
    else [[Point(0, 0), Point(1, 0), Point(1, 0), Point(1, 1), Point(1, 2), Point(2, 0), Point(2, 1), Point(2, 2)], [Point(0, 2), Point(1, 2)]]
  }

  lemma Scan3Step1()
    ensures Place(Board3(), Scan3State(0), Table3()[0]) == Scan3State(1)
  {
    var ts := Scan3State(0);
    assert ts == [];
    assert Table3()[0] == (Point(0, 0), [Point(0, 1), Point(1, 0)]);
    assert [Point(0, 1), Point(1, 0)][1..] == [Point(1, 0)];
    assert [Point(1, 0)][1..] == [];
    assert EmptyOf(Board3(), [Point(0, 1), Point(1, 0)]) == [Point(1, 0)] by { EmptyOfPrefixes(Board3(), [Point(0, 1), Point(1, 0)]); }
    assert At(Board3(), Point(0, 0)) == None;
    assert Scan3State(1) == [[Point(0, 0), Point(1, 0)]];
    assert [Point(0, 0)] + [Point(1, 0)] == [Point(0, 0), Point(1, 0)];
  }

  lemma Scan3Step2()
    ensures Place(Board3(), Scan3State(1), Table3()[1]) == Scan3State(2)
  {
    var ts := Scan3State(1);
    assert ts == [[Point(0, 0), Point(1, 0)]];
    assert Table3()[1] == (Point(0, 1), [Point(0, 0), Point(0, 2), Point(1, 1)]);
    assert At(Board3(), Point(0, 1)) == Some(Black);
    assert Scan3State(2) == [[Point(0, 0), Point(1, 0)]];

  }

  lemma Scan3Step3()
    ensures Place(Board3(), Scan3State(2), Table3()[2]) == Scan3State(3)
  {
    var ts := Scan3State(2);
    assert ts == [[Point(0, 0), Point(1, 0)]];
    assert Table3()[2] == (Point(0, 2), [Point(0, 1), Point(1, 2)]);
    assert [Point(0, 1), Point(1, 2)][1..] == [Point(1, 2)];
    assert [Point(1, 2)][1..] == [];
    assert EmptyOf(Board3(), [Point(0, 1), Point(1, 2)]) == [Point(1, 2)] by { EmptyOfPrefixes(Board3(), [Point(0, 1), Point(1, 2)]); }
    assert At(Board3(), Point(0, 2)) == None;
    assert Scan3State(3) == [[Point(0, 0), Point(1, 0)], [Point(0, 2), Point(1, 2)]];
    assert [Point(0, 2)] + [Point(1, 2)] == [Point(0, 2), Point(1, 2)];
    assert ts + [[Point(0, 2), Point(1, 2)]] == [ts[0], [Point(0, 2), Point(1, 2)]];
  }

  lemma Scan3Step4()
    ensures Place(Board3(), Scan3State(3), Table3()[3]) == Scan3State(4)
  {
    var ts := Scan3State(3);
    assert ts == [[Point(0, 0), Point(1, 0)], [Point(0, 2), Point(1, 2)]];
    assert Table3()[3] == (Point(1, 0), [Point(1, 1), Point(0, 0), Point(2, 0)]);
    assert [Point(1, 1), Point(0, 0), Point(2, 0)][1..] == [Point(0, 0), Point(2, 0)];
    assert [Point(0, 0), Point(2, 0)][1..] == [Point(2, 0)];
    assert [Point(2, 0)][1..] == [];
    assert Point(0, 0) in ts[0];
    assert FirstHit(ts, [Point(1, 1), Point(0, 0), Point(2, 0)]) == Some(0);
    assert At(Board3(), Point(1, 0)) == None;
    assert Scan3State(4) == [[Point(0, 0), Point(1, 0), Point(1, 0)], [Point(0, 2), Point(1, 2)]];
    assert ts[0] + [Point(1, 0)] == [Point(0, 0), Point(1, 0), Point(1, 0)];
    assert ts[0 := ts[0] + [Point(1, 0)]] == [[Point(0, 0), Point(1, 0), Point(1, 0)], ts[1]];
  }

  lemma Scan3Step5()
    ensures Place(Board3(), Scan3State(4), Table3()[4]) == Scan3State(5)
  {
    var ts := Scan3State(4);
    assert ts == [[Point(0, 0), Point(1, 0), Point(1, 0)], [Point(0, 2), Point(1, 2)]];
    assert Table3()[4] == (Point(1, 1), [Point(1, 0), Point(1, 2), Point(0, 1), Point(2, 1)]);
    assert [Point(1, 0), Point(1, 2), Point(0, 1), Point(2, 1)][1..] == [Point(1, 2), Point(0, 1), Point(2, 1)];
    assert [Point(1, 2), Point(0, 1), Point(2, 1)][1..] == [Point(0, 1), Point(2, 1)];
    assert [Point(0, 1), Point(2, 1)][1..] == [Point(2, 1)];
    assert [Point(2, 1)][1..] == [];
    assert Point(1, 0) in ts[0];
    assert FirstHit(ts, [Point(1, 0), Point(1, 2), Point(0, 1), Point(2, 1)]) == Some(0);
    assert At(Board3(), Point(1, 1)) == None;
    assert Scan3State(5) == [[Point(0, 0), Point(1, 0), Point(1, 0), Point(1, 1)], [Point(0, 2), Point(1, 2)]];
    assert ts[0] + [Point(1, 1)] == [Point(0, 0), Point(1, 0), Point(1, 0), Point(1, 1)];
    assert ts[0 := ts[0] + [Point(1, 1)]] == [[Point(0, 0), Point(1, 0), Point(1, 0), Point(1, 1)], ts[1]];
  }

  lemma Scan3Step6()
    ensures Place(Board3(), Scan3State(5), Table3()[5]) == Scan3State(6)
  {
    var ts := Scan3State(5);
    assert ts == [[Point(0, 0), Point(1, 0), Point(1, 0), Point(1, 1)], [Point(0, 2), Point(1, 2)]];
    assert Table3()[5] == (Point(1, 2), [Point(1, 1), Point(0, 2), Point(2, 2)]);
    assert [Point(1, 1), Point(0, 2), Point(2, 2)][1..] == [Point(0, 2), Point(2, 2)];
    assert [Point(0, 2), Point(2, 2)][1..] == [Point(2, 2)];
    assert [Point(2, 2)][1..] == [];
    assert Point(1, 1) in ts[0];
    assert FirstHit(ts, [Point(1, 1), Point(0, 2), Point(2, 2)]) == Some(0);
    assert At(Board3(), Point(1, 2)) == None;
    assert Scan3State(6) == [[Point(0, 0), Point(1, 0), Point(1, 0), Point(1, 1), Point(1, 2)], [Point(0, 2), Point(1, 2)]];
    assert ts[0] + [Point(1, 2)] == [Point(0, 0), Point(1, 0), Point(1, 0), Point(1, 1), Point(1, 2)];
    assert ts[0 := ts[0] + [Point(1, 2)]] == [[Point(0, 0), Point(1, 0), Point(1, 0), Point(1, 1), Point(1, 2)], ts[1]];
  }

  lemma Scan3Step7()
    ensures Place(Board3(), Scan3State(6), Table3()[6]) == Scan3State(7)
  {
    var ts := Scan3State(6);
    assert ts == [[Point(0, 0), Point(1, 0), Point(1, 0), Point(1, 1), Point(1, 2)], [Point(0, 2), Point(1, 2)]];
    assert Table3()[6] == (Point(2, 0), [Point(2, 1), Point(1, 0)]);
    assert [Point(2, 1), Point(1, 0)][1..] == [Point(1, 0)];
    assert [Point(1, 0)][1..] == [];
    assert Point(1, 0) in ts[0];
    assert FirstHit(ts, [Point(2, 1), Point(1, 0)]) == Some(0);
    assert At(Board3(), Point(2, 0)) == None;
    assert Scan3State(7) == [[Point(0, 0), Point(1, 0), Point(1, 0), Point(1, 1), Point(1, 2), Point(2, 0)], [Point(0, 2), Point(1, 2)]];
    assert ts[0] + [Point(2, 0)] == [Point(0, 0), Point(1, 0), Point(1, 0), Point(1, 1), Point(1, 2), Point(2, 0)];
    assert ts[0 := ts[0] + [Point(2, 0)]] == [[Point(0, 0), Point(1, 0), Point(1, 0), Point(1, 1), Point(1, 2), Point(2, 0)], ts[1]];
  }

  lemma Scan3Step8()
    ensures Place(Board3(), Scan3State(7), Table3()[7]) == Scan3State(8)
  {
    var ts := Scan3State(7);
    assert ts == [[Point(0, 0), Point(1, 0), Point(1, 0), Point(1, 1), Point(1, 2), Point(2, 0)], [Point(0, 2), Point(1, 2)]];
    assert Table3()[7] == (Point(2, 1), [Point(2, 0), Point(2, 2), Point(1, 1)]);
    assert [Point(2, 0), Point(2, 2), Point(1, 1)][1..] == [Point(2, 2), Point(1, 1)];
    assert [Point(2, 2), Point(1, 1)][1..] == [Point(1, 1)];
    assert [Point(1, 1)][1..] == [];
    assert Point(2, 0) in ts[0];
    assert FirstHit(ts, [Point(2, 0), Point(2, 2), Point(1, 1)]) == Some(0);
    assert At(Board3(), Point(2, 1)) == None;
    assert Scan3State(8) == [[Point(0, 0), Point(1, 0), Point(1, 0), Point(1, 1), Point(1, 2), Point(2, 0), Point(2, 1)], [Point(0, 2), Point(1, 2)]];
    assert ts[0] + [Point(2, 1)] == [Point(0, 0), Point(1, 0), Point(1, 0), Point(1, 1), Point(1, 2), Point(2, 0), Point(2, 1)];
    assert ts[0 := ts[0] + [Point(2, 1)]] == [[Point(0, 0), Point(1, 0), Point(1, 0), Point(1, 1), Point(1, 2), Point(2, 0), Point(2, 1)], ts[1]];
  }

  lemma Scan3Step9()
    ensures Place(Board3(), Scan3State(8), Table3()[8]) == Scan3State(9)
  {
    var ts := Scan3State(8);
    assert ts == [[Point(0, 0), Point(1, 0), Point(1, 0), Point(1, 1), Point(1, 2), Point(2, 0), Point(2, 1)], [Point(0, 2), Point(1, 2)]];
    assert Table3()[8] == (Point(2, 2), [Point(2, 1), Point(1, 2)]);
    assert [Point(2, 1), Point(1, 2)][1..] == [Point(1, 2)];
    assert [Point(1, 2)][1..] == [];
    assert Point(2, 1) in ts[0];
    assert FirstHit(ts, [Point(2, 1), Point(1, 2)]) == Some(0);
    assert At(Board3(), Point(2, 2)) == None;
    assert Scan3State(9) == [[Point(0, 0), Point(1, 0), Point(1, 0), Point(1, 1), Point(1, 2), Point(2, 0), Point(2, 1), Point(2, 2)], [Point(0, 2), Point(1, 2)]];
    assert ts[0] + [Point(2, 2)] == [Point(0, 0), Point(1, 0), Point(1, 0), Point(1, 1), Point(1, 2), Point(2, 0), Point(2, 1), Point(2, 2)];
    assert ts[0 := ts[0] + [Point(2, 2)]] == [[Point(0, 0), Point(1, 0), Point(1, 0), Point(1, 1), Point(1, 2), Point(2, 0), Point(2, 1), Point(2, 2)], ts[1]];
  }

  lemma Scan3Rows1()
    ensures Scan(Board3(), [], Table3()[..3]) == Scan3State(3)
  {
    var b := Board3();
    var none: seq<Region> := [];
    var t := Table3();
    assert t[..0] == [];
    ScanStep(b, none, t, 0);
    Scan3Step1();
    ScanStep(b, none, t, 1);
    Scan3Step2();
    ScanStep(b, none, t, 2);
    Scan3Step3();
  }

  lemma Scan3Rows2()
    ensures Scan(Board3(), [], Table3()[..6]) == Scan3State(6)
  {
    var b := Board3();
    var none: seq<Region> := [];
    var t := Table3();
    Scan3Rows1();
    ScanStep(b, none, t, 3);
    Scan3Step4();
    ScanStep(b, none, t, 4);
    Scan3Step5();
    ScanStep(b, none, t, 5);
    Scan3Step6();
  }

  lemma Scan3Rows3()
    ensures Scan(Board3(), [], Table3()[..9]) == Scan3State(9)
  {
    var b := Board3();
    var none: seq<Region> := [];
    var t := Table3();
    Scan3Rows2();
    ScanStep(b, none, t, 6);
    Scan3Step7();
    ScanStep(b, none, t, 7);
    Scan3Step8();
    ScanStep(b, none, t, 8);
    Scan3Step9();
  }

  /** Regions may overlap and repeat points: on a 3x3 board with one stone at
      (0, 1), point (1, 2) ends in both regions and (1, 0) twice in the first. */
  lemma RegionsNotPartition(points: seq<(Point, seq<Point>)>)
    requires IsTable(points, 3)
    ensures var ts := Scan(Board3(), [], points);
      |ts| == 2 && Point(1, 2) in ts[0] && Point(1, 2) in ts[1] &&
      |ts[0]| > 2 && ts[0][1] == ts[0][2] == Point(1, 0)
  {
    IsTable3(points);
    Scan3Rows3();
    assert Table3()[..9] == Table3();
  }

  class Territories {
    const size: nat
    const points: seq<(Point, seq<Point>)>
    var totalterritories: seq<seq<Region>>
    var gameterritories: seq<Region>
    var gameskip: bool
    var games: nat

    ghost predicate Valid()
    {
      IsTable(points, size)
    }

    /** __init__ (calcs.py:582-587). */
    constructor (size: nat)
      ensures Valid() && this.size == size
      ensures totalterritories == [] && gameterritories == [] && !gameskip && games == 0
    {
      this.size := size;
      var table := BoardPoints(size);
      points := table;
      totalterritories := [];
      gameterritories := [];
      gameskip := false;
      games := 0;
    }

    /** gamestart (calcs.py:589-591). Reading a missing RU raises KeyError
        before anything changes; ok is false then. */
    method GameStart(header: map<string, string>) returns (ok: bool)
      modifies this
      ensures ok <==> "RU" in header
      ensures ok ==> gameskip == (header["RU"] != "AGA") && gameterritories == []
      ensures !ok ==> gameskip == old(gameskip) && gameterritories == old(gameterritories)
      ensures games == old(games) && totalterritories == old(totalterritories)
    {
      if "RU" !in header {
        return false;
      }
      gameskip := header["RU"] != "AGA";
      gameterritories := [];
      return true;
    }

    /** gameover without its printing (calcs.py:593-616). */
    method GameOver(b: Snapshot, discard: bool)
      modifies this
      ensures discard || old(gameskip) ==> games == old(games) && gameterritories == old(gameterritories)
      ensures !discard && !old(gameskip) ==> games == old(games) + 1
      ensures !discard && !old(gameskip) ==> gameterritories == Scan(b, old(gameterritories), points)
      ensures gameskip == old(gameskip) && totalterritories == old(totalterritories)
    {
      if discard || gameskip {
        return;
      }
      games := games + 1;
      var start := gameterritories;
      var k := 0;
      while k < |points|
        invariant 0 <= k <= |points|
        invariant gameterritories == Scan(b, start, points[..k])
        invariant games == old(games) + 1 && gameskip == old(gameskip) && totalterritories == old(totalterritories)
      {
        ScanStep(b, start, points, k);
        PlacePoint(b, points[k]);
        k := k + 1;
      }
      assert points[..k] == points;
    }

    /** One iteration of the scan of gameover (calcs.py:598-613). */
    method PlacePoint(b: Snapshot, entry: (Point, seq<Point>))
      modifies this
      ensures gameterritories == Place(b, old(gameterritories), entry)
      ensures games == old(games) && gameskip == old(gameskip) && totalterritories == old(totalterritories)
    {
      var point := entry.0;
      var neighs := entry.1;
      if At(b, point) == None {
        var hit := FindHit(gameterritories, neighs);
        if hit.Some? {
          var h := hit.value;
          gameterritories := gameterritories[h := gameterritories[h] + [point]];
        } else {
          var t := NewRegion(b, point, neighs);
          gameterritories := gameterritories + [t];
        }
      }
    }
  }
}
