/** TimeLine of goat/calcs.py: per move, the number of black and white stones
    on the board and the running totals of captured stones. */
module Timeline {
  import opened Wrappers
  import opened Grid
  import opened Geometry

  /** The counting loop of move (calcs.py:165-170). */
  method CountStones(b: Snapshot, points: seq<(Point, seq<Point>)>) returns (blacks: nat, whites: nat)
    ensures blacks == CountColour(b, TablePoints(points), Black)
    ensures whites == CountColour(b, TablePoints(points), White)
  {
    var ps := TablePoints(points);
    blacks, whites := 0, 0;
    var k := 0;
    while k < |points|
      invariant 0 <= k <= |points|
      invariant blacks == CountColour(b, ps[..k], Black)
      invariant whites == CountColour(b, ps[..k], White)
    {
      var color := At(b, points[k].0);
      if color == Some(Black) {
        blacks := blacks + 1;
      } else if color == Some(White) {
        whites := whites + 1;
      }
      assert ps[..k + 1][..k] == ps[..k];
      k := k + 1;
    }
    assert ps[..k] == ps;
  }

  /** Over a neighbour table, the count is the number of stones of that colour on the board. */
  lemma TableCount(b: Snapshot, points: seq<(Point, seq<Point>)>, c: Colour)
    requires IsTable(points, |b|)
    ensures CountColour(b, TablePoints(points), c) == |Stones(b, c)|
  {
    var ps := TablePoints(points);
    TableCoversBoard(points, |b|);
    CountIsCard(b, ps, c);
    BoardSetMembers(|b|);
    assert WithColour(b, ps, c) == Stones(b, c);
  }

  /** The capture increments of one move (calcs.py:172-180), as (black, white).
      gomill always names the mover; the third branch, which the source
      labels a pass, is for any other colour value. */
  function Captures(mover: Option<Colour>, prevBlacks: int, prevWhites: int, blacks: int, whites: int): (r: (int, int))
    ensures mover == Some(Black) ==> r.0 == 0
    ensures mover == Some(White) ==> r.1 == 0
    ensures mover == None ==> r == (0, 0)
  {
    match mover
    case Some(Black) => (0, prevWhites - whites)
    case Some(White) => (prevBlacks - blacks, 0)
    case None => (0, 0)
  }

  /** A move that leaves the board as it was, as a pass does, adds no capture. */
  lemma UnchangedBoardCapturesNothing(mover: Option<Colour>, blacks: int, whites: int)
    ensures Captures(mover, blacks, whites, blacks, whites) == (0, 0)
  {
  }

  /** A move that captures k opponent stones and puts one stone down adds k
      to the opponent's total and nothing to the mover's. */
  lemma CaptureCounted(prevBlacks: nat, prevWhites: nat, k: nat)
    requires k <= prevWhites
    ensures Captures(Some(Black), prevBlacks, prevWhites, prevBlacks + 1, prevWhites - k) == (0, k)
    ensures k <= prevBlacks ==> Captures(Some(White), prevBlacks, prevWhites, prevBlacks - k, prevWhites + 1) == (k, 0)
  {
  }

  function Last(s: seq<int>): int
    requires |s| > 0
  {
    s[|s| - 1]
  }

  class TimeLine {
    const size: nat
    const points: seq<(Point, seq<Point>)>
    var games: nat
    var totalblacks: seq<seq<int>>
    var totalwhites: seq<seq<int>>
    var totalblackscaptured: seq<seq<int>>
    var totalwhitescaptured: seq<seq<int>>
    var gameblacks: seq<int>
    var gamewhites: seq<int>
    var gameblackscaptured: seq<int>
    var gamewhitescaptured: seq<int>

    ghost predicate Valid()
    {
      IsTable(points, size)
    }

    /** gamestart has run: the four per-game lists hold one entry per board
        seen so far, the initial one included. */
    ghost predicate Started()
      reads this
    {
      |gameblacks| >= 1 && |gamewhites| == |gameblacks| &&
      |gameblackscaptured| == |gameblacks| && |gamewhitescaptured| == |gameblacks|
    }

    /** __init__ (calcs.py:149-156). */
    constructor (size: nat)
      ensures Valid() && this.size == size && games == 0
      ensures totalblacks == [] && totalwhites == [] && totalblackscaptured == [] && totalwhitescaptured == []
    {
      this.size := size;
      var table := BoardPoints(size);
      points := table;
      games := 0;
      totalblacks, totalwhites := [], [];
      totalblackscaptured, totalwhitescaptured := [], [];
    }

    /** gamestart (calcs.py:158-162). */
    method GameStart()
      modifies this
      ensures Started()
      ensures gameblacks == [0] && gamewhites == [0] && gameblackscaptured == [0] && gamewhitescaptured == [0]
      ensures games == old(games) && totalblacks == old(totalblacks) && totalwhites == old(totalwhites)
      ensures totalblackscaptured == old(totalblackscaptured) && totalwhitescaptured == old(totalwhitescaptured)
    {
      gameblacks := [0];
      gamewhites := [0];
      gameblackscaptured := [0];
      gamewhitescaptured := [0];
    }

    /** move (calcs.py:164-186); mover is the colour of the move tuple. */
    method Move(b: Snapshot, mover: Option<Colour>)
      requires Started()
      modifies this
      ensures Started() && |gameblacks| == |old(gameblacks)| + 1
      ensures var blacks := CountColour(b, TablePoints(points), Black);
        var whites := CountColour(b, TablePoints(points), White);
        var inc := Captures(mover, Last(old(gameblacks)), Last(old(gamewhites)), blacks, whites);
        gameblacks == old(gameblacks) + [blacks] &&
        gamewhites == old(gamewhites) + [whites] &&
        gameblackscaptured == old(gameblackscaptured) + [Last(old(gameblackscaptured)) + inc.0] &&
        gamewhitescaptured == old(gamewhitescaptured) + [Last(old(gamewhitescaptured)) + inc.1]
      ensures games == old(games) && totalblacks == old(totalblacks) && totalwhites == old(totalwhites)
      ensures totalblackscaptured == old(totalblackscaptured) && totalwhitescaptured == old(totalwhitescaptured)
    {
      var blacks, whites := CountStones(b, points);
      var blackscaptured, whitescaptured;
      if mover == Some(Black) {
        blackscaptured := 0;
        whitescaptured := gamewhites[|gamewhites| - 1] - whites;
      } else if mover == Some(White) {
        blackscaptured := gameblacks[|gameblacks| - 1] - blacks;
        whitescaptured := 0;
      } else {
        blackscaptured, whitescaptured := 0, 0;
      }
      gameblackscaptured := gameblackscaptured + [gameblackscaptured[|gameblackscaptured| - 1] + blackscaptured];
      gamewhitescaptured := gamewhitescaptured + [gamewhitescaptured[|gamewhitescaptured| - 1] + whitescaptured];
      gameblacks := gameblacks + [blacks];
      gamewhites := gamewhites + [whites];
    }

    /** gameover without its chart (calcs.py:188-197). */
    method GameOver(discard: bool)
      modifies this
      ensures gameblacks == old(gameblacks) && gamewhites == old(gamewhites)
      ensures gameblackscaptured == old(gameblackscaptured) && gamewhitescaptured == old(gamewhitescaptured)
      ensures discard ==> games == old(games) && totalblacks == old(totalblacks) && totalwhites == old(totalwhites)
      ensures discard ==> totalblackscaptured == old(totalblackscaptured) && totalwhitescaptured == old(totalwhitescaptured)
      ensures !discard ==> games == old(games) + 1
      ensures !discard ==> totalblacks == old(totalblacks) + [gameblacks] && totalwhites == old(totalwhites) + [gamewhites]
      ensures !discard ==> totalblackscaptured == old(totalblackscaptured) + [gameblackscaptured]
      ensures !discard ==> totalwhitescaptured == old(totalwhitescaptured) + [gamewhitescaptured]
    {
      if discard {
        return;
      }
      totalblacks := totalblacks + [gameblacks];
      totalwhites := totalwhites + [gamewhites];
      totalblackscaptured := totalblackscaptured + [gameblackscaptured];
      totalwhitescaptured := totalwhitescaptured + [gamewhitescaptured];
      games := games + 1;
    }
  }
}
