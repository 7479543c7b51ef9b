/** go/main.py: the survey script that walks the game collection, samples
    every tenth game of the configured board size that has more than fifty
    plays, and feeds each sampled game's final position to its own
    StonesPerSquare hook, whose every reference point, the centre included,
    counts stones in squares growing one perimeter per entry. */
module GoMain {
  import opened Wrappers
  import opened Grid
  import opened Geometry
  import Density

  /** BOARD_SIZE and GAMES (go/main.py:47-48), the sampling step and the
      play threshold of main. */
  const BoardSize: int := 19
  const GameLimit: nat := 3000
  const SampleEvery: nat := 10
  const MinPlays: nat := 50

  /** One file find_games yields: its size, the number of plays
      get_setup_and_moves returns, the board after those plays and
      game.get_winner(). Replaying the plays is gomill's board.play, which is
      not part of this model, so the final board is given. */
  datatype Candidate = Candidate(size: int, plays: nat, final: Snapshot, winner: Option<Colour>)

  /** How many of the first n files have the configured size: the counter i. */
  function SizedCount(cs: seq<Candidate>, n: nat): (r: nat)
    requires n <= |cs|
    ensures r <= n
  {
    if n == 0 then 0
    else SizedCount(cs, n - 1) + (if cs[n - 1].size == BoardSize then 1 else 0)
  }

  /** File k reaches the hooks (when the quota is not yet met): the right
      size, a multiple of ten among the right-size files, and more than fifty plays. */
  predicate Sampled(cs: seq<Candidate>, k: nat)
    requires k < |cs|
  {
    cs[k].size == BoardSize && SizedCount(cs, k + 1) % SampleEvery == 0 && cs[k].plays > MinPlays
  }

  /** The positions among the first n files that pass the three tests, in order. */
  function SampledUpTo(cs: seq<Candidate>, n: nat): seq<nat>
    requires n <= |cs|
  {
    if n == 0 then []
    else SampledUpTo(cs, n - 1) + (if Sampled(cs, n - 1) then [n - 1] else [])
  }

  function Take(s: seq<nat>, n: nat): (r: seq<nat>)
    ensures |r| == if |s| <= n then |s| else n
    ensures r <= s
  {
    if |s| <= n then s else s[..n]
  }

  /** The games main plays through its hooks: the sampled ones, stopping
      after GAMES of them. */
  function Selected(cs: seq<Candidate>): seq<nat>
  {
    Take(SampledUpTo(cs, |cs|), GameLimit)
  }

  predicate Increasing(s: seq<nat>)
  {
    forall a, b :: 0 <= a < b < |s| ==> s[a] < s[b]
  }

  /** SampledUpTo lists every sampled position below n, each once, in order, and nothing else. */
  lemma {:induction false} SampledFacts(cs: seq<Candidate>, n: nat)
    requires n <= |cs|
    ensures Increasing(SampledUpTo(cs, n))
    ensures forall j :: 0 <= j < |SampledUpTo(cs, n)| ==> SampledUpTo(cs, n)[j] < n && Sampled(cs, SampledUpTo(cs, n)[j])
    ensures forall k :: 0 <= k < n && Sampled(cs, k) ==> k in SampledUpTo(cs, n)
  {
    if n > 0 {
      SampledFacts(cs, n - 1);
    }
  }

  /** A shorter prefix of the files samples a prefix of the longer one's list. */
  lemma {:induction false} SampledPrefix(cs: seq<Candidate>, n: nat, m: nat)
    requires n <= m <= |cs|
    ensures SampledUpTo(cs, n) <= SampledUpTo(cs, m)
    decreases m - n
  {
    if n < m {
      SampledPrefix(cs, n, m - 1);
    }
  }

  /** Only one right-size file in ten can be sampled: the sampled count never
      exceeds a tenth of the right-size files seen. */
  lemma {:induction false} SampleRate(cs: seq<Candidate>, n: nat)
    requires n <= |cs|
    ensures |SampledUpTo(cs, n)| <= SizedCount(cs, n) / SampleEvery
  {
    if n > 0 {
      SampleRate(cs, n - 1);
      var before, now := SizedCount(cs, n - 1), SizedCount(cs, n);
      if Sampled(cs, n - 1) {
        assert now == before + 1 && now % 10 == 0;
        assert now / 10 == before / 10 + 1;
      } else {
        assert before / 10 <= now / 10;
      }
    }
  }

  /** Every played game has the configured size, more than fifty plays and a
      right-size rank divisible by ten; they are played in file order, at
      most GAMES of them. */
  lemma SelectedSound(cs: seq<Candidate>)
    ensures |Selected(cs)| <= GameLimit
    ensures Increasing(Selected(cs))
    ensures forall j :: 0 <= j < |Selected(cs)| ==>
      Selected(cs)[j] < |cs| && cs[Selected(cs)[j]].size == BoardSize &&
      cs[Selected(cs)[j]].plays > MinPlays && SizedCount(cs, Selected(cs)[j] + 1) % SampleEvery == 0
  {
    SampledFacts(cs, |cs|);
    var all := SampledUpTo(cs, |cs|);
    var s := Selected(cs);
    assert forall j :: 0 <= j < |s| ==> s[j] == all[j];
  }

  /** Below the quota nothing is missed: every file that passes the three
      tests is played. */
  lemma SelectedComplete(cs: seq<Candidate>)
    requires |Selected(cs)| < GameLimit
    ensures forall k :: 0 <= k < |cs| && Sampled(cs, k) ==> k in Selected(cs)
  {
    SampledFacts(cs, |cs|);
  }

  /** At most a tenth of the right-size files are played. */
  lemma SelectedRate(cs: seq<Candidate>)
    ensures |Selected(cs)| <= SizedCount(cs, |cs|) / SampleEvery
  {
    SampleRate(cs, |cs|);
  }

  /** The list appended for reference perimeters perims after one game: the
      cumulative count of one kind (stones, blacks, whites, the winner's or
      the loser's stones). */
  datatype Part = Stones | Blacks | Whites | Winners | Losers

  function GameEntry(b: Snapshot, winner: Option<Colour>, perims: seq<seq<Point>>, part: Part): seq<nat>
  {
    var r := Density.AreaCounts(b, true, perims);
    var won := winner == Some(Black);
    match part
    case Stones => r.stones
    case Blacks => r.blacks
    case Whites => r.whites
    case Winners => if won then r.blacks else r.whites
    case Losers => if won then r.whites else r.blacks
  }

  /** The lists of one kind a reference point holds after the games at positions played. */
  function History(cs: seq<Candidate>, played: seq<nat>, perims: seq<seq<Point>>, part: Part): seq<seq<nat>>
    requires forall j :: 0 <= j < |played| ==> played[j] < |cs|
  {
    HistoryUpTo(cs, played, |played|, perims, part)
  }

  /** The lists of the first n games played. */
  function HistoryUpTo(cs: seq<Candidate>, played: seq<nat>, n: nat, perims: seq<seq<Point>>, part: Part): (r: seq<seq<nat>>)
    requires n <= |played| && forall j :: 0 <= j < |played| ==> played[j] < |cs|
    ensures |r| == n
  {
    if n == 0 then []
    else
      var k := played[n - 1];
      HistoryUpTo(cs, played, n - 1, perims, part) + [GameEntry(cs[k].final, cs[k].winner, perims, part)]
  }

  /** The first n lists depend only on the first n games. */
  lemma {:induction false} HistoryPrefix(cs: seq<Candidate>, played: seq<nat>, k: nat, n: nat, perims: seq<seq<Point>>, part: Part)
    requires n <= |played| && k < |cs| && forall j :: 0 <= j < |played| ==> played[j] < |cs|
    ensures HistoryUpTo(cs, played + [k], n, perims, part) == HistoryUpTo(cs, played, n, perims, part)
  {
    if n > 0 {
      HistoryPrefix(cs, played, k, n - 1, perims, part);
      assert (played + [k])[n - 1] == played[n - 1];
    }
  }

  /** Every reference point counts cumulatively: entry d holds the stones of
      each colour within distance d of it, and the stones entry their sum;
      the winner's list is Black's exactly when Black won. */
  lemma {:induction false} EntryCounts(b: Snapshot, winner: Option<Colour>, perims: seq<seq<Point>>, p: Point)
    requires IsPerimeters(perims, p, |b|) && InBounds(p, |b|)
    ensures forall d :: 0 <= d < |b| ==>
      GameEntry(b, winner, perims, Blacks)[d] == |Density.Near(b, p, d + 1, Black)| &&
      GameEntry(b, winner, perims, Whites)[d] == |Density.Near(b, p, d + 1, White)| &&
      GameEntry(b, winner, perims, Stones)[d] == GameEntry(b, winner, perims, Blacks)[d] + GameEntry(b, winner, perims, Whites)[d]
    ensures GameEntry(b, winner, perims, Winners) == GameEntry(b, winner, perims, if winner == Some(Black) then Blacks else Whites)
    ensures GameEntry(b, winner, perims, Losers) == GameEntry(b, winner, perims, if winner == Some(Black) then Whites else Blacks)
  {
    var bl, wh := Density.Cumulative(b, perims, Black), Density.Cumulative(b, perims, White);
    Density.CumulativeAt(b, perims, |perims|, Black);
    Density.CumulativeAt(b, perims, |perims|, White);
    assert GameEntry(b, winner, perims, Blacks) == bl && GameEntry(b, winner, perims, Whites) == wh;
    assert GameEntry(b, winner, perims, Stones) == Density.Sum2(bl, wh);
    Density.CornerCounts(b, perims, p, Black);
    Density.CornerCounts(b, perims, p, White);
  }

  /** The centre of go/main is counted like a corner: with side size, its
      entry d covers the whole distance d, not d/2 as in goat's StonesPerSquare. */
  lemma CentreCumulative(b: Snapshot, winner: Option<Colour>, perims: seq<seq<Point>>)
    requires |b| >= 1 && IsPerimeters(perims, Density.References(|b|)[4], |b|)
    ensures forall d :: 0 <= d < |b| ==>
      GameEntry(b, winner, perims, Blacks)[d] == |Density.Near(b, Density.References(|b|)[4], d + 1, Black)|
  {
    EntryCounts(b, winner, perims, Density.References(|b|)[4]);
  }

  /** Appends one game's lists to a reference point (go/main.py:348-372). */
  method Record(center: StoneCountCenterPoint, b: Snapshot, winner: Option<Colour>)
    modifies center
    ensures center.gamestones == old(center.gamestones) + [GameEntry(b, winner, center.perimeters, Stones)]
    ensures center.gameblacks == old(center.gameblacks) + [GameEntry(b, winner, center.perimeters, Blacks)]
    ensures center.gamewhites == old(center.gamewhites) + [GameEntry(b, winner, center.perimeters, Whites)]
    ensures center.gamewiners == old(center.gamewiners) + [GameEntry(b, winner, center.perimeters, Winners)]
    ensures center.gamelosers == old(center.gamelosers) + [GameEntry(b, winner, center.perimeters, Losers)]
  {
    var blackwinner := winner == Some(Black);
    var r := Density.CornerRun(b, center.perimeters);
    center.gamestones := center.gamestones + [r.stones];
    center.gameblacks := center.gameblacks + [r.blacks];
    center.gamewhites := center.gamewhites + [r.whites];
    if blackwinner {
      center.gamewiners := center.gamewiners + [r.blacks];
      center.gamelosers := center.gamelosers + [r.whites];
    } else {
      center.gamewiners := center.gamewiners + [r.whites];
      center.gamelosers := center.gamelosers + [r.blacks];
    }
  }

  /** The five lists of a reference point are the histories of the games played. */
  ghost predicate Holds(center: StoneCountCenterPoint, cs: seq<Candidate>, played: seq<nat>)
    reads center
    requires forall j :: 0 <= j < |played| ==> played[j] < |cs|
  {
    center.gamestones == History(cs, played, center.perimeters, Stones) &&
    center.gameblacks == History(cs, played, center.perimeters, Blacks) &&
    center.gamewhites == History(cs, played, center.perimeters, Whites) &&
    center.gamewiners == History(cs, played, center.perimeters, Winners) &&
    center.gamelosers == History(cs, played, center.perimeters, Losers)
  }

  /** go/main's StonesPerSquare hook (go/main.py:317-372). */
  class StonesPerSquare {
    const size: nat
    const points: seq<StoneCountCenterPoint>

    ghost predicate Valid()
    {
      Density.ReferencePoints(points, size)
    }

    /** __init__ (go/main.py:318-332): the four corners and the centre
        ((size-1)/2, (size-1)/2), each with empty game lists. */
    constructor (size: nat)
      ensures Valid() && this.size == size
      ensures forall i :: 0 <= i < 5 ==>
        points[i].gamestones == [] && points[i].gameblacks == [] && points[i].gamewhites == [] &&
        points[i].gamewiners == [] && points[i].gamelosers == []
      ensures fresh(points[0]) && fresh(points[1]) && fresh(points[2]) && fresh(points[3]) && fresh(points[4])
    {
      this.size := size;
      var refs, caps := Density.References(size), Density.Captions();
      var ll := new StoneCountCenterPoint(refs[0], caps[0], size);
      var lr := new StoneCountCenterPoint(refs[1], caps[1], size);
      var ul := new StoneCountCenterPoint(refs[2], caps[2], size);
      var ur := new StoneCountCenterPoint(refs[3], caps[3], size);
      var ce := new StoneCountCenterPoint(refs[4], caps[4], size);
      var ps := [ll, lr, ul, ur, ce];
      assert Density.ReferencePoints(ps, size) by {
        assert Density.IsCentre(ll, refs[0], caps[0], size) && Density.IsCentre(lr, refs[1], caps[1], size);
        assert Density.IsCentre(ul, refs[2], caps[2], size) && Density.IsCentre(ur, refs[3], caps[3], size);
        assert Density.IsCentre(ce, refs[4], caps[4], size);
      }
      points := ps;
      new;
      var j := 0;
      while j < 5
        invariant 0 <= j <= 5
        invariant forall i :: 0 <= i < j ==>
          points[i].gamestones == [] && points[i].gameblacks == [] && points[i].gamewhites == [] &&
          points[i].gamewiners == [] && points[i].gamelosers == []
      {
        points[j].ClearGames();
        j := j + 1;
      }
    }

    /** gameover(game, board, chart) without its charts (go/main.py:334-372):
        every reference point, the centre included, gets one more list of each kind. */
    method GameOver(b: Snapshot, winner: Option<Colour>)
      requires Valid()
      modifies points
      ensures Valid()
      ensures forall i :: 0 <= i < 5 ==>
        points[i].gamestones == old(points[i].gamestones) + [GameEntry(b, winner, points[i].perimeters, Stones)] &&
        points[i].gameblacks == old(points[i].gameblacks) + [GameEntry(b, winner, points[i].perimeters, Blacks)] &&
        points[i].gamewhites == old(points[i].gamewhites) + [GameEntry(b, winner, points[i].perimeters, Whites)] &&
        points[i].gamewiners == old(points[i].gamewiners) + [GameEntry(b, winner, points[i].perimeters, Winners)] &&
        points[i].gamelosers == old(points[i].gamelosers) + [GameEntry(b, winner, points[i].perimeters, Losers)]
    {
      var j := 0;
      while j < 5
        invariant 0 <= j <= 5
        invariant forall i :: 0 <= i < j ==>
          points[i].gamestones == old(points[i].gamestones) + [GameEntry(b, winner, points[i].perimeters, Stones)] &&
          points[i].gameblacks == old(points[i].gameblacks) + [GameEntry(b, winner, points[i].perimeters, Blacks)] &&
          points[i].gamewhites == old(points[i].gamewhites) + [GameEntry(b, winner, points[i].perimeters, Whites)] &&
          points[i].gamewiners == old(points[i].gamewiners) + [GameEntry(b, winner, points[i].perimeters, Winners)] &&
          points[i].gamelosers == old(points[i].gamelosers) + [GameEntry(b, winner, points[i].perimeters, Losers)]
        invariant forall i :: j <= i < 5 ==>
          points[i].gamestones == old(points[i].gamestones) &&
          points[i].gameblacks == old(points[i].gameblacks) &&
          points[i].gamewhites == old(points[i].gamewhites) &&
          points[i].gamewiners == old(points[i].gamewiners) &&
          points[i].gamelosers == old(points[i].gamelosers)
      {
        Record(points[j], b, winner);
        j := j + 1;
      }
    }
  }

  /** One more game played: its lists join every reference point's history. */
  lemma HistorySnoc(cs: seq<Candidate>, played: seq<nat>, k: nat, perims: seq<seq<Point>>, part: Part)
    requires forall j :: 0 <= j < |played| ==> played[j] < |cs|
    requires k < |cs|
    ensures History(cs, played + [k], perims, part) ==
      History(cs, played, perims, part) + [GameEntry(cs[k].final, cs[k].winner, perims, part)]
  {
    HistoryPrefix(cs, played, k, |played|, perims, part);
    assert (played + [k])[|played|] == k;
  }

  /** The hooks' gameover for the game at position k (go/main.py:207-211). */
  method Play(hook: StonesPerSquare, cs: seq<Candidate>, played: seq<nat>, k: nat)
    requires hook.Valid() && k < |cs|
    requires forall j :: 0 <= j < |played| ==> played[j] < |cs|
    requires forall p :: 0 <= p < 5 ==> Holds(hook.points[p], cs, played)
    modifies hook.points
    ensures hook.Valid()
    ensures forall p :: 0 <= p < 5 ==> Holds(hook.points[p], cs, played + [k])
  {
    hook.GameOver(cs[k].final, cs[k].winner);
    forall part: Part, perims: seq<seq<Point>>
      ensures History(cs, played + [k], perims, part) ==
        History(cs, played, perims, part) + [GameEntry(cs[k].final, cs[k].winner, perims, part)]
    {
      HistorySnoc(cs, played, k, perims, part);
    }
  }

  /** One pass of main's loop body over the file at position k (go/main.py:178-211). */
  method Visit(hook: StonesPerSquare, cs: seq<Candidate>, played: seq<nat>, i: nat, k: nat)
    returns (played': seq<nat>, i': nat, sampled: bool)
    requires hook.Valid() && k < |cs|
    requires played == SampledUpTo(cs, k) && i == SizedCount(cs, k)
    requires forall j :: 0 <= j < |played| ==> played[j] < k
    requires forall p :: 0 <= p < 5 ==> Holds(hook.points[p], cs, played)
    modifies hook.points
    ensures hook.Valid()
    ensures played' == SampledUpTo(cs, k + 1) && i' == SizedCount(cs, k + 1)
    ensures sampled == Sampled(cs, k)
    ensures played' == played + (if sampled then [k] else [])
    ensures forall j :: 0 <= j < |played'| ==> played'[j] < k + 1
    ensures forall p :: 0 <= p < 5 ==> Holds(hook.points[p], cs, played')
  {
    var game := cs[k];
    played', i', sampled := played, i, false;
    if game.size != BoardSize {
      return;
    }
    i' := i + 1;
    if i' % SampleEvery != 0 {
      return;
    }
    if game.plays <= MinPlays {
      return;
    }
    Play(hook, cs, played, k);
    played', sampled := played + [k], true;
  }

  /** The loop of main (go/main.py:175-215) over the files, feeding hook. */
  method Feed(hook: StonesPerSquare, cs: seq<Candidate>) returns (played: seq<nat>, games: nat)
    requires hook.Valid()
    requires forall p :: 0 <= p < 5 ==> Holds(hook.points[p], cs, [])
    modifies hook.points
    ensures hook.Valid()
    ensures played == Selected(cs) && games == |played|
    ensures forall j :: 0 <= j < |played| ==> played[j] < |cs|
    ensures forall p :: 0 <= p < 5 ==> Holds(hook.points[p], cs, played)
  {
    played := [];
    games := 0;
    var i := 0;
    var k := 0;
    while k < |cs|
      invariant 0 <= k <= |cs|
      invariant hook.Valid()
      invariant played == SampledUpTo(cs, k)
      invariant forall j :: 0 <= j < |played| ==> played[j] < k
      invariant i == SizedCount(cs, k)
      invariant games == |played| < GameLimit
      invariant forall p :: 0 <= p < 5 ==> Holds(hook.points[p], cs, played)
    {
      var sampled;
      played, i, sampled := Visit(hook, cs, played, i, k);
      k := k + 1;
      if sampled {
        games := games + 1;
        if games == GameLimit {
          SampledPrefix(cs, k, |cs|);
          return;
        }
      }
    }
  }

  /** main (go/main.py:173-215) without its logging and charts: a hook for
      BOARD_SIZE, then every selected game's final position to its gameover,
      in file order, with games counting them. */
  method Survey(cs: seq<Candidate>) returns (hook: StonesPerSquare, played: seq<nat>, games: nat)
    ensures fresh(hook) && hook.Valid() && hook.size == BoardSize
    ensures played == Selected(cs) && games == |played|
    ensures forall j :: 0 <= j < |played| ==> played[j] < |cs|
    ensures forall p :: 0 <= p < 5 ==> Holds(hook.points[p], cs, played)
  {
    hook := new StonesPerSquare(BoardSize);
    played, games := Feed(hook, cs);
  }
}
