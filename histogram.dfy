/** MoveHistogram of goat/calcs.py: the number of moves of every recorded
    game, and the "survivors" table of how many games outlast each move
    number. */
module Histogram {

  predicate Sorted(s: seq<nat>)
  {
    forall i, j :: 0 <= i <= j < |s| ==> s[i] <= s[j]
  }

  /** x put into its place in a sorted list. */
  function Insert(x: nat, s: seq<nat>): (r: seq<nat>)
    requires Sorted(s)
    ensures Sorted(r)
    ensures multiset(r) == multiset(s) + multiset{x}
    ensures |r| == |s| + 1
    ensures r[0] == if s == [] || x <= s[0] then x else s[0]
  {
    if s == [] || x <= s[0] then
      ConsSorted(x, s);
      [x] + s
    else
      assert s == [s[0]] + s[1..];
      var rest := Insert(x, s[1..]);
      ConsSorted(s[0], rest);
      [s[0]] + rest
  }

  lemma ConsSorted(h: nat, t: seq<nat>)
    requires Sorted(t) && (t == [] || h <= t[0])
    ensures Sorted([h] + t)
  {
  }

  /** list.sort(): the ascending permutation. */
  function Sort(s: seq<nat>): (r: seq<nat>)
    ensures Sorted(r)
    ensures multiset(r) == multiset(s)
    ensures |r| == |s|
  {
    if s == [] then []
    else
      assert s == [s[0]] + s[1..];
      Insert(s[0], Sort(s[1..]))
  }

  /** max() of a non-empty list. */
  function SeqMax(s: seq<nat>): (r: nat)
    requires |s| > 0
    ensures forall k :: 0 <= k < |s| ==> s[k] <= r
    ensures exists k :: 0 <= k < |s| && s[k] == r
  {
    if |s| == 1 then s[0]
    else
      var m := SeqMax(s[1..]);
      assert forall k :: 1 <= k < |s| ==> s[k] == s[1..][k - 1];
      if s[0] < m then m else s[0]
  }

  /** The number of games with more than m moves. */
  function CountAbove(s: seq<nat>, m: int): nat
  {
    if s == [] then 0 else (if s[0] > m then 1 else 0) + CountAbove(s[1..], m)
  }

  /** In a sorted list whose first i entries are at most m and the rest above it,
      exactly the last |s| - i entries are above m. */
  lemma {:induction false} CountAboveSplit(s: seq<nat>, m: int, i: nat)
    requires i <= |s|
    requires forall k :: 0 <= k < i ==> s[k] <= m
    requires forall k :: i <= k < |s| ==> s[k] > m
    ensures CountAbove(s, m) == |s| - i
  {
    if s != [] {
      CountAboveSplit(s[1..], m, if i == 0 then 0 else i - 1);
    }
  }

  lemma {:induction false} CountAboveMono(s: seq<nat>, m: int, m': int)
    requires m <= m'
    ensures CountAbove(s, m') <= CountAbove(s, m)
  {
    if s != [] {
      CountAboveMono(s[1..], m, m');
    }
  }

  lemma {:induction false} CountAboveNone(s: seq<nat>, m: int)
    requires forall k :: 0 <= k < |s| ==> s[k] <= m
    ensures CountAbove(s, m) == 0
  {
    if s != [] {
      CountAboveNone(s[1..], m);
    }
  }

  /** The survivors table is nonincreasing and ends at 0: no game outlasts the longest. */
  lemma SurvivorsShape(s: seq<nat>)
    requires |s| > 0
    ensures forall m, m' :: 0 <= m <= m' <= SeqMax(s) ==> CountAbove(s, m') <= CountAbove(s, m)
    ensures CountAbove(s, SeqMax(s)) == 0
  {
    forall m, m' | 0 <= m <= m' <= SeqMax(s)
      ensures CountAbove(s, m') <= CountAbove(s, m)
    {
      CountAboveMono(s, m, m');
    }
    CountAboveNone(s, SeqMax(s));
  }

  /** The survivors loop of end (calcs.py:131-138) over the sorted list. */
  method Survivors(movespergame: seq<nat>) returns (survivors: seq<nat>)
    requires |movespergame| > 0 && Sorted(movespergame)
    ensures |survivors| == SeqMax(movespergame) + 1
    ensures forall m :: 0 <= m < |survivors| ==> survivors[m] == CountAbove(movespergame, m)
  {
    var s := movespergame;
    var games := |s|;
    survivors := [];
    var gamesleft := games;
    var i := 0;
    var m := 0;
    var top := SeqMax(s);
    while m < top + 1
      invariant 0 <= m <= top + 1
      invariant 0 <= i <= games && gamesleft == games - i
      invariant forall k :: 0 <= k < i ==> s[k] < m
      invariant forall k :: i <= k < games ==> s[k] >= m
      invariant |survivors| == m
      invariant forall m' :: 0 <= m' < m ==> survivors[m'] == CountAbove(s, m')
    {
      while i < games && m == s[i]
        invariant 0 <= i <= games && gamesleft == games - i
        invariant forall k :: 0 <= k < i ==> s[k] <= m
        invariant forall k :: i <= k < games ==> s[k] >= m
      {
        gamesleft := gamesleft - 1;
        i := i + 1;
      }
      CountAboveSplit(s, m, i);
      survivors := survivors + [gamesleft];
      m := m + 1;
    }
  }

  class MoveHistogram {
    var movespergame: seq<nat>
    var moves: nat
    var games: nat

    /** Every recorded game is one entry of movespergame. */
    ghost predicate Valid()
      reads this
    {
      games == |movespergame|
    }

    /** __init__ (calcs.py:92-95). */
    constructor ()
      ensures Valid() && movespergame == [] && moves == 0 && games == 0
    {
      movespergame := [];
      moves := 0;
      games := 0;
    }

    /** gamestart (calcs.py:97-98). */
    method GameStart()
      modifies this
      ensures moves == 0 && movespergame == old(movespergame) && games == old(games)
    {
      moves := 0;
    }

    /** move (calcs.py:100-101). */
    method Move()
      modifies this
      ensures moves == old(moves) + 1 && movespergame == old(movespergame) && games == old(games)
    {
      moves := moves + 1;
    }

    /** gameover (calcs.py:103-111): every 2000th recorded game runs end,
        which sorts movespergame in place. */
    method GameOver(discard: bool)
      requires Valid()
      modifies this
      ensures Valid() && moves == old(moves)
      ensures discard ==> movespergame == old(movespergame) && games == old(games)
      ensures !discard ==> games == old(games) + 1
      ensures !discard && games % 2000 == 0 ==> movespergame == Sort(old(movespergame) + [old(moves)])
      ensures !discard && games % 2000 != 0 ==> movespergame == old(movespergame) + [old(moves)]
      ensures !discard ==> multiset(movespergame) == multiset(old(movespergame)) + multiset{old(moves)}
    {
      if discard {
        return;
      }
      movespergame := movespergame + [moves];
      games := games + 1;
      if games % 2000 == 0 {
        var _ := End();
      }
    }

    /** end without its chart (calcs.py:113-138): sorts movespergame and builds
        the survivors table. min() over an empty list raises, hence the requires. */
    method End() returns (survivors: seq<nat>)
      requires |movespergame| > 0
      modifies this
      ensures movespergame == Sort(old(movespergame)) && moves == old(moves) && games == old(games)
      ensures |survivors| == SeqMax(movespergame) + 1
      ensures forall m :: 0 <= m < |survivors| ==> survivors[m] == CountAbove(movespergame, m)
    {
      movespergame := Sort(movespergame);
      survivors := Survivors(movespergame);
    }
  }
}
