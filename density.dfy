/** StonesPerSquare of goat/calcs.py: at game over, for each of five
    reference points, the number of black and white stones in growing squares
    around it. Corner points grow their square one perimeter per entry; the
    centre adds a perimeter every second entry. */
module Density {
  import opened Wrappers
  import opened Grid
  import opened Geometry

  /** Stones of colour c on perimeters 0..n-1. */
  function Tally(b: Snapshot, perims: seq<seq<Point>>, n: nat, c: Colour): nat
    requires n <= |perims|
  {
    if n == 0 then 0 else Tally(b, perims, n - 1, c) + CountColour(b, perims[n - 1], c)
  }

  /** The stones of colour c on the board at Chebyshev distance below n from p. */
  function Near(b: Snapshot, p: Point, n: int, c: Colour): set<Point>
  {
    set q | q in BoardSet(|b|) && Dist(p, q) < n && At(b, q) == Some(c)
  }

  /** The first i entries of a corner's list: entry k covers perimeters 0..k. */
  function CumulativeUpTo(b: Snapshot, perims: seq<seq<Point>>, i: nat, c: Colour): (r: seq<nat>)
    requires i <= |perims|
    ensures |r| == i
  {
    if i == 0 then [] else CumulativeUpTo(b, perims, i - 1, c) + [Tally(b, perims, i, c)]
  }

  /** The first i entries of the centre's list: entry k covers perimeters 0..k/2. */
  function HalvedUpTo(b: Snapshot, perims: seq<seq<Point>>, i: nat, c: Colour): (r: seq<nat>)
    requires i <= |perims|
    ensures |r| == i
  {
    if i == 0 then [] else HalvedUpTo(b, perims, i - 1, c) + [Tally(b, perims, (i - 1) / 2 + 1, c)]
  }

  /** An even entry of the centre's list adds perimeter i/2 to the running count. */
  lemma HalvedStepEven(b: Snapshot, perims: seq<seq<Point>>, i: nat, c: Colour)
    requires i < |perims| && i % 2 == 0
    ensures HalvedUpTo(b, perims, i + 1, c) ==
      HalvedUpTo(b, perims, i, c) + [Tally(b, perims, i / 2, c) + CountColour(b, perims[i / 2], c)]
  {
    assert i / 2 + 1 == (i + 1 - 1) / 2 + 1;
  }

  /** An odd entry of the centre's list repeats the one before it. */
  lemma HalvedStepOdd(b: Snapshot, perims: seq<seq<Point>>, i: nat, c: Colour)
    requires i < |perims| && i % 2 == 1
    ensures HalvedUpTo(b, perims, i + 1, c) ==
      HalvedUpTo(b, perims, i, c) + [HalvedUpTo(b, perims, i, c)[i - 1]]
  {
    assert (i - 1) / 2 == i / 2;
    assert HalvedUpTo(b, perims, i, c) == HalvedUpTo(b, perims, i - 1, c) + [Tally(b, perims, (i - 1) / 2 + 1, c)];
  }

  function Cumulative(b: Snapshot, perims: seq<seq<Point>>, c: Colour): seq<nat>
  {
    CumulativeUpTo(b, perims, |perims|, c)
  }

  function Halved(b: Snapshot, perims: seq<seq<Point>>, c: Colour): seq<nat>
  {
    HalvedUpTo(b, perims, |perims|, c)
  }

  lemma {:induction false} CumulativeAt(b: Snapshot, perims: seq<seq<Point>>, i: nat, c: Colour)
    requires i <= |perims|
    ensures |CumulativeUpTo(b, perims, i, c)| == i
    ensures forall k :: 0 <= k < i ==> CumulativeUpTo(b, perims, i, c)[k] == Tally(b, perims, k + 1, c)
  {
    if i > 0 {
      CumulativeAt(b, perims, i - 1, c);
    }
  }

  lemma {:induction false} HalvedAt(b: Snapshot, perims: seq<seq<Point>>, i: nat, c: Colour)
    requires i <= |perims|
    ensures |HalvedUpTo(b, perims, i, c)| == i
    ensures forall k :: 0 <= k < i ==> HalvedUpTo(b, perims, i, c)[k] == Tally(b, perims, k / 2 + 1, c)
  {
    if i > 0 {
      HalvedAt(b, perims, i - 1, c);
    }
  }

  function Sum2(xs: seq<nat>, ys: seq<nat>): seq<nat>
    requires |xs| == |ys|
  {
    seq(|xs|, i requires 0 <= i < |xs| => xs[i] + ys[i])
  }

  lemma Sum2Snoc(xs: seq<nat>, ys: seq<nat>, x: nat, y: nat)
    requires |xs| == |ys|
    ensures Sum2(xs + [x], ys + [y]) == Sum2(xs, ys) + [x + y]
  {
  }

  predicate Nondecreasing(s: seq<nat>)
  {
    forall i, j :: 0 <= i <= j < |s| ==> s[i] <= s[j]
  }

  /** The stones, blacks and whites lists gameover builds for one reference point. */
  datatype Counts = Counts(stones: seq<nat>, blacks: seq<nat>, whites: seq<nat>)

  function AreaCounts(b: Snapshot, corner: bool, perims: seq<seq<Point>>): Counts
  {
    var bl := if corner then Cumulative(b, perims, Black) else Halved(b, perims, Black);
    var wh := if corner then Cumulative(b, perims, White) else Halved(b, perims, White);
    Counts(Sum2(bl, wh), bl, wh)
  }

  lemma {:induction false} TallyMono(b: Snapshot, perims: seq<seq<Point>>, n: nat, m: nat, c: Colour)
    requires n <= m <= |perims|
    ensures Tally(b, perims, n, c) <= Tally(b, perims, m, c)
    decreases m - n
  {
    if n < m {
      TallyMono(b, perims, n, m - 1, c);
    }
  }

  /** The stones nearer than n are those nearer than n-1 plus those on the ring at n-1. */
  lemma NearSplit(b: Snapshot, p: Point, n: nat, c: Colour, ring: seq<Point>)
    requires n >= 1 && IsRing(ring, p, n - 1, |b|)
    ensures Near(b, p, n, c) == Near(b, p, n - 1, c) + WithColour(b, ring, c)
    ensures Near(b, p, n - 1, c) * WithColour(b, ring, c) == {}
  {
    BoardSetMembers(|b|);
    var all, inner, outer := Near(b, p, n, c), Near(b, p, n - 1, c), WithColour(b, ring, c);
    forall q | q in all ensures q in inner || q in outer {
      if Dist(p, q) == n - 1 {
        assert q in ring;
      }
    }
    forall q | q in outer ensures q in all && q !in inner {
      assert InBounds(q, |b|) && Dist(p, q) == n - 1;
    }
  }

  /** Summed over perimeters 0..n-1, the count is that of the stones nearer than n. */
  lemma {:induction false} TallyNear(b: Snapshot, perims: seq<seq<Point>>, p: Point, n: nat, c: Colour)
    requires IsPerimeters(perims, p, |b|) && n <= |b|
    ensures Tally(b, perims, n, c) == |Near(b, p, n, c)|
  {
    if n == 0 {
      assert Near(b, p, n, c) == {};
    } else {
      TallyNear(b, perims, p, n - 1, c);
      assert IsRing(perims[n - 1], p, n - 1, |b|);
      TallyNearStep(b, perims, p, n, c);
    }
  }

  /** One more perimeter adds the stones on its ring. */
  lemma TallyNearStep(b: Snapshot, perims: seq<seq<Point>>, p: Point, n: nat, c: Colour)
    requires 1 <= n <= |perims| && IsRing(perims[n - 1], p, n - 1, |b|)
    requires Tally(b, perims, n - 1, c) == |Near(b, p, n - 1, c)|
    ensures Tally(b, perims, n, c) == |Near(b, p, n, c)|
  {
    var ring := perims[n - 1];
    CountIsCard(b, ring, c);
    NearSplit(b, p, n, c, ring);
  }

  /** From a point on the board, nothing is as far as the board is wide. */
  lemma NearAll(b: Snapshot, p: Point, c: Colour)
    requires InBounds(p, |b|)
    ensures Near(b, p, |b|, c) == Stones(b, c)
  {
    BoardSetMembers(|b|);
  }

  /** A corner's list of one colour is nondecreasing. */
  lemma CumulativeMono(b: Snapshot, perims: seq<seq<Point>>, c: Colour)
    ensures |Cumulative(b, perims, c)| == |perims| && Nondecreasing(Cumulative(b, perims, c))
  {
    var l := Cumulative(b, perims, c);
    CumulativeAt(b, perims, |perims|, c);
    forall i, j | 0 <= i <= j < |perims|
      ensures l[i] <= l[j]
    {
      TallyMono(b, perims, i + 1, j + 1, c);
    }
  }

  /** The centre's list of one colour is nondecreasing. */
  lemma HalvedMono(b: Snapshot, perims: seq<seq<Point>>, c: Colour)
    ensures |Halved(b, perims, c)| == |perims| && Nondecreasing(Halved(b, perims, c))
  {
    var l := Halved(b, perims, c);
    HalvedAt(b, perims, |perims|, c);
    forall i, j | 0 <= i <= j < |perims|
      ensures l[i] <= l[j]
    {
      TallyMono(b, perims, i / 2 + 1, j / 2 + 1, c);
    }
  }

  /** Every list has one entry per perimeter, stones is blacks plus whites,
      and each list is nondecreasing. */
  lemma CountsShape(b: Snapshot, corner: bool, perims: seq<seq<Point>>)
    ensures var r := AreaCounts(b, corner, perims);
      |r.stones| == |perims| && |r.blacks| == |perims| && |r.whites| == |perims| &&
      (forall i :: 0 <= i < |perims| ==> r.stones[i] == r.blacks[i] + r.whites[i]) &&
      Nondecreasing(r.stones) && Nondecreasing(r.blacks) && Nondecreasing(r.whites)
  {
    var bl := if corner then Cumulative(b, perims, Black) else Halved(b, perims, Black);
    var wh := if corner then Cumulative(b, perims, White) else Halved(b, perims, White);
    if corner {
      CumulativeMono(b, perims, Black);
      CumulativeMono(b, perims, White);
    } else {
      HalvedMono(b, perims, Black);
      HalvedMono(b, perims, White);
    }
    var st := Sum2(bl, wh);
    assert AreaCounts(b, corner, perims) == Counts(st, bl, wh);
    assert Nondecreasing(st) by {
      forall i, j | 0 <= i <= j < |st|
        ensures st[i] <= st[j]
      {
        assert bl[i] <= bl[j] && wh[i] <= wh[j];
      }
    }
  }

  /** For a corner, entry i counts the stones within distance i, so the last
      entry counts every stone of that colour. */
  lemma CornerCounts(b: Snapshot, perims: seq<seq<Point>>, p: Point, c: Colour)
    requires IsPerimeters(perims, p, |b|) && InBounds(p, |b|)
    ensures forall i :: 0 <= i < |b| ==> Cumulative(b, perims, c)[i] == |Near(b, p, i + 1, c)|
    ensures Cumulative(b, perims, c)[|b| - 1] == |Stones(b, c)|
  {
    CumulativeAt(b, perims, |perims|, c);
    forall i | 0 <= i < |b|
      ensures Cumulative(b, perims, c)[i] == |Near(b, p, i + 1, c)|
    {
      TallyNear(b, perims, p, i + 1, c);
    }
    NearAll(b, p, c);
  }

  /** For the centre, entry i counts the stones within distance i/2, so each
      odd entry repeats the one before it; on an odd-sized board the last
      entry counts every stone of that colour. */
  lemma CentreCounts(b: Snapshot, perims: seq<seq<Point>>, p: Point, c: Colour)
    requires IsPerimeters(perims, p, |b|)
    ensures forall i :: 0 <= i < |b| ==> Halved(b, perims, c)[i] == |Near(b, p, i / 2 + 1, c)|
    ensures forall i :: 0 < i < |b| && i % 2 == 1 ==> Halved(b, perims, c)[i] == Halved(b, perims, c)[i - 1]
    ensures |b| % 2 == 1 && p == Point((|b| - 1) / 2, (|b| - 1) / 2) ==>
      Halved(b, perims, c)[|b| - 1] == |Stones(b, c)|
  {
    HalvedAt(b, perims, |perims|, c);
    CentreNear(b, perims, p, c);
    HalvedRepeat(b, perims, c);
    if |b| % 2 == 1 && p == Point((|b| - 1) / 2, (|b| - 1) / 2) {
      CentreSpan(b, p, c);
    }
  }

  /** Odd entries of the centre's list repeat the even one before them. */
  lemma HalvedRepeat(b: Snapshot, perims: seq<seq<Point>>, c: Colour)
    requires forall k :: 0 <= k < |perims| ==> Halved(b, perims, c)[k] == Tally(b, perims, k / 2 + 1, c)
    requires |Halved(b, perims, c)| == |perims|
    ensures forall i :: 0 < i < |perims| && i % 2 == 1 ==> Halved(b, perims, c)[i] == Halved(b, perims, c)[i - 1]
  {
    forall i | 0 < i < |perims| && i % 2 == 1
      ensures Halved(b, perims, c)[i] == Halved(b, perims, c)[i - 1]
    {
      assert (i - 1) / 2 == i / 2;
    }
  }

  lemma CentreNear(b: Snapshot, perims: seq<seq<Point>>, p: Point, c: Colour)
    requires IsPerimeters(perims, p, |b|)
    requires forall k :: 0 <= k < |b| ==> Halved(b, perims, c)[k] == Tally(b, perims, k / 2 + 1, c)
    ensures forall i :: 0 <= i < |b| ==> Halved(b, perims, c)[i] == |Near(b, p, i / 2 + 1, c)|
  {
    forall i | 0 <= i < |b|
      ensures Halved(b, perims, c)[i] == |Near(b, p, i / 2 + 1, c)|
    {
      TallyNear(b, perims, p, i / 2 + 1, c);
    }
  }

  /** From the centre of an odd-sized board, half the width reaches every point. */
  lemma CentreSpan(b: Snapshot, p: Point, c: Colour)
    requires |b| % 2 == 1 && p == Point((|b| - 1) / 2, (|b| - 1) / 2)
    ensures Near(b, p, (|b| - 1) / 2 + 1, c) == Stones(b, c)
  {
    BoardSetMembers(|b|);
  }

  /** The inner loop of gameover: add the stones of one perimeter to the running counters. */
  method AddStones(b: Snapshot, perimeter: seq<Point>, blacks0: nat, whites0: nat) returns (blacks: nat, whites: nat)
    ensures blacks == blacks0 + CountColour(b, perimeter, Black)
    ensures whites == whites0 + CountColour(b, perimeter, White)
  {
    blacks, whites := blacks0, whites0;
    var k := 0;
    while k < |perimeter|
      invariant 0 <= k <= |perimeter|
      invariant blacks == blacks0 + CountColour(b, perimeter[..k], Black)
      invariant whites == whites0 + CountColour(b, perimeter[..k], White)
    {
      var color := At(b, perimeter[k]);
      if color == Some(Black) {
        blacks := blacks + 1;
      } else if color == Some(White) {
        whites := whites + 1;
      }
      assert perimeter[..k + 1][..k] == perimeter[..k];
      k := k + 1;
    }
    assert perimeter[..k] == perimeter;
  }

  /** The perimeter loop of gameover for a corner (calcs.py:280-288). */
  method CornerRun(b: Snapshot, perims: seq<seq<Point>>) returns (r: Counts)
    ensures r == AreaCounts(b, true, perims)
  {
    var stones, bl, wh := [], [], [];
    var blacks, whites := 0, 0;
    var i := 0;
    while i < |perims|
      invariant 0 <= i <= |perims|
      invariant blacks == Tally(b, perims, i, Black) && whites == Tally(b, perims, i, White)
      invariant bl == CumulativeUpTo(b, perims, i, Black) && wh == CumulativeUpTo(b, perims, i, White)
      invariant |bl| == |wh| == i && stones == Sum2(bl, wh)
    {
      blacks, whites := AddStones(b, perims[i], blacks, whites);
      Sum2Snoc(bl, wh, blacks, whites);
      stones := stones + [blacks + whites];
      bl := bl + [blacks];
      wh := wh + [whites];
      i := i + 1;
    }
    r := Counts(stones, bl, wh);
  }

  /** The perimeter loop of gameover for the centre (calcs.py:289-301). */
  method CentreRun(b: Snapshot, perims: seq<seq<Point>>) returns (r: Counts)
    ensures r == AreaCounts(b, false, perims)
  {
    var stones, bl, wh := [], [], [];
    var blacks, whites := 0, 0;
    ghost var n := 0;  // perimeters added so far, (i + 1) / 2
    var i := 0;
    while i < |perims|
      invariant 0 <= i <= |perims|
      invariant i == 2 * n || i + 1 == 2 * n
      invariant blacks == Tally(b, perims, n, Black) && whites == Tally(b, perims, n, White)
      invariant bl == HalvedUpTo(b, perims, i, Black) && wh == HalvedUpTo(b, perims, i, White)
      invariant |bl| == |wh| == i && stones == Sum2(bl, wh)
    {
      if i % 2 == 0 {
        assert i / 2 == n;
        HalvedStepEven(b, perims, i, Black);
        HalvedStepEven(b, perims, i, White);
        blacks, whites := AddStones(b, perims[i / 2], blacks, whites);
        Sum2Snoc(bl, wh, blacks, whites);
        stones := stones + [blacks + whites];
        bl := bl + [blacks];
        wh := wh + [whites];
        n := n + 1;
      } else {
        HalvedStepOdd(b, perims, i, Black);
        HalvedStepOdd(b, perims, i, White);
        Sum2Snoc(bl, wh, bl[|bl| - 1], wh[|wh| - 1]);
        stones := stones + [stones[|stones| - 1]];
        bl := bl + [bl[|bl| - 1]];
        wh := wh + [wh[|wh| - 1]];
      }
      i := i + 1;
    }
    r := Counts(stones, bl, wh);
  }

  /** The five reference points: the four corners, then the centre. */
  function References(size: int): seq<Point>
  {
    [Point(0, 0), Point(0, size - 1), Point(size - 1, 0), Point(size - 1, size - 1),
     Point((size - 1) / 2, (size - 1) / 2)]
  }

  function Captions(): seq<string>
  {
    ["Lower Left", "Lower Right", "Upper Left", "Upper Right", "Center"]
  }

  /** Append one game's counts to a reference point (calcs.py:303-311). */
  method Record(center: StoneCountCenterPoint, b: Snapshot, blackwinner: bool)
    modifies center
    ensures var r := AreaCounts(b, center.corner, center.perimeters);
      center.gamestones == old(center.gamestones) + [r.stones] &&
      center.gameblacks == old(center.gameblacks) + [r.blacks] &&
      center.gamewhites == old(center.gamewhites) + [r.whites] &&
      center.gamewiners == old(center.gamewiners) + [if blackwinner then r.blacks else r.whites] &&
      center.gamelosers == old(center.gamelosers) + [if blackwinner then r.whites else r.blacks]
  {
    var r;
    if center.corner {
      r := CornerRun(b, center.perimeters);
    } else {
      r := CentreRun(b, center.perimeters);
    }
    center.gamestones := center.gamestones + [r.stones];
    center.gameblacks := center.gameblacks + [r.blacks];
    center.gamewhites := center.gamewhites + [r.whites];
    if blackwinner {
      center.gamewiners := center.gamewiners + [r.blacks];
      center.gamelosers := center.gamelosers + [r.whites];
    } else {
      center.gamewiners := center.gamewiners + [r.whites];
      center.gamelosers := center.gamelosers + [r.blacks];
    }
  }

  /** c is the reference point p, with its caption, corner flag and perimeters. */
  ghost predicate IsCentre(c: StoneCountCenterPoint, p: Point, caption: string, size: nat)
  {
    c.point == p && c.caption == caption && c.corner == IsCorner(p, size) &&
    IsPerimeters(c.perimeters, p, size)
  }

  /** Five distinct reference points, as __init__ creates them. */
  ghost predicate ReferencePoints(ps: seq<StoneCountCenterPoint>, size: nat)
  {
    |ps| == 5 &&
    (forall i, j :: 0 <= i < j < 5 ==> ps[i] != ps[j]) &&
    forall i :: 0 <= i < 5 ==> IsCentre(ps[i], References(size)[i], Captions()[i], size)
  }

  class StonesPerSquare {
    const size: nat
    const points: seq<StoneCountCenterPoint>
    var games: nat

    ghost predicate Valid()
    {
      ReferencePoints(points, size)
    }

    /** __init__ (calcs.py:234-250). */
    constructor (size: nat)
      ensures Valid() && this.size == size && games == 0
      ensures forall i :: 0 <= i < 5 ==>
        points[i].gamestones == [] && points[i].gameblacks == [] && points[i].gamewhites == [] &&
        points[i].gamewiners == [] && points[i].gamelosers == []
    {
      this.size := size;
      games := 0;
      var refs, caps := References(size), Captions();
      var ll := new StoneCountCenterPoint(refs[0], caps[0], size);
      var lr := new StoneCountCenterPoint(refs[1], caps[1], size);
      var ul := new StoneCountCenterPoint(refs[2], caps[2], size);
      var ur := new StoneCountCenterPoint(refs[3], caps[3], size);
      var ce := new StoneCountCenterPoint(refs[4], caps[4], size);
      var ps := [ll, lr, ul, ur, ce];
      assert ReferencePoints(ps, size) by {
        assert IsCentre(ll, refs[0], caps[0], size) && IsCentre(lr, refs[1], caps[1], size);
        assert IsCentre(ul, refs[2], caps[2], size) && IsCentre(ur, refs[3], caps[3], size);
        assert IsCentre(ce, refs[4], caps[4], size);
      }
      points := ps;
      new;
      var j := 0;
      while j < 5
        invariant 0 <= j <= 5
        invariant games == 0
        invariant forall i :: 0 <= i < j ==>
          points[i].gamestones == [] && points[i].gameblacks == [] && points[i].gamewhites == [] &&
          points[i].gamewiners == [] && points[i].gamelosers == []
      {
        points[j].ClearGames();
        j := j + 1;
      }
    }

    /** gameover(game, board, discard) without its charts (calcs.py:252-311).
        winner is game.winner. */
    method GameOver(b: Snapshot, winner: Option<Colour>, discard: bool)
      requires Valid()
      modifies this, points
      ensures Valid()
      ensures games == if discard then old(games) else old(games) + 1
      ensures forall i :: 0 <= i < 5 ==>
        var r := AreaCounts(b, points[i].corner, points[i].perimeters);
        var won := winner == Some(Black);
        points[i].gamestones == old(points[i].gamestones) + (if discard then [] else [r.stones]) &&
        points[i].gameblacks == old(points[i].gameblacks) + (if discard then [] else [r.blacks]) &&
        points[i].gamewhites == old(points[i].gamewhites) + (if discard then [] else [r.whites]) &&
        points[i].gamewiners == old(points[i].gamewiners) + (if discard then [] else [if won then r.blacks else r.whites]) &&
        points[i].gamelosers == old(points[i].gamelosers) + (if discard then [] else [if won then r.whites else r.blacks])
    {
      if discard {
        return;
      }
      games := games + 1;
      var blackwinner := winner == Some(Black);
      var j := 0;
      while j < 5
        invariant 0 <= j <= 5
        invariant games == old(games) + 1
        invariant forall i :: 0 <= i < j ==>
          var r := AreaCounts(b, points[i].corner, points[i].perimeters);
          points[i].gamestones == old(points[i].gamestones) + [r.stones] &&
          points[i].gameblacks == old(points[i].gameblacks) + [r.blacks] &&
          points[i].gamewhites == old(points[i].gamewhites) + [r.whites] &&
          points[i].gamewiners == old(points[i].gamewiners) + [if blackwinner then r.blacks else r.whites] &&
          points[i].gamelosers == old(points[i].gamelosers) + [if blackwinner then r.whites else r.blacks]
        invariant forall i :: j <= i < 5 ==>
          points[i].gamestones == old(points[i].gamestones) &&
          points[i].gameblacks == old(points[i].gameblacks) &&
          points[i].gamewhites == old(points[i].gamewhites) &&
          points[i].gamewiners == old(points[i].gamewiners) &&
          points[i].gamelosers == old(points[i].gamelosers)
      {
        Record(points[j], b, blackwinner);
        j := j + 1;
      }
    }
  }
}
