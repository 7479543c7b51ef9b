/** filter_game_header of goat/library.py: the ordered checks an SGF header
    must pass before a game is imported, each failure counted once. */
module HeaderFilter {
  import opened Wrappers
  import opened Text
  import opened PyNumbers

  /** The root node's properties, by SGF identifier. */
  type Header = map<string, string>

  /** The reasons a game is skipped, one per key of the skip dictionary
      ('rules', 'handicap', ..., 'duplicate', and 'nopro' for a rank below 6
      dan that is not professional). */
  datatype Reason = Rules | Handicap | Result | NoPro | Rank | Size | FewMoves | Error | Duplicate

  /** RU is present and reads "japanese" in any case. */
  predicate RulesOk(h: Header)
  {
    "RU" in h && Lower(h["RU"]) == "japanese"
  }

  /** The text after the first '+' of RE, lowercased, when there is one. */
  function ResultTail(h: Header): Option<string>
  {
    if "RE" !in h then None
    else
      var parts := Split(h["RE"], '+');
      if |parts| < 2 then None else Some(Lower(parts[1]))
  }

  /** A win by resignation, time or forfeit starts with r, t or f. */
  predicate NotByPoints(tail: string)
  {
    |tail| > 0 && (tail[0] == 'r' || tail[0] == 't' || tail[0] == 'f')
  }

  /** The result check passes a tail that is empty or is a number. */
  predicate ResultOk(h: Header)
  {
    ResultTail(h).Some? &&
    var tail := ResultTail(h).value;
    tail == "" || (!NotByPoints(tail) && FloatText(tail))
  }

  /** The length of rank[:-1]. */
  function LevelEnd(rank: string): (n: nat)
    ensures n <= |rank|
  {
    if |rank| == 0 then 0 else |rank| - 1
  }

  /** The fault of one player's rank: a level that is no integer is Rank, a
      grade other than professional or at least 6 dan is NoPro. */
  function RankFault(rank: string): (r: Option<Reason>)
    ensures r.Some? ==> r.value == Rank || r.value == NoPro
  {
    if !IntTextTo(rank, LevelEnd(rank)) then Some(Rank)
    else
      var grade := rank[|rank| - 1];
      if (grade != 'd' && grade != 'p') || (grade == 'd' && IntValueTo(rank, LevelEnd(rank)) < 6) then Some(NoPro)
      else None
  }

  /** Both BR and WR are looked up before either is examined, so a missing
      one is a Rank fault whatever the other holds; then BR, then WR. */
  function RanksFault(h: Header): Option<Reason>
  {
    if "BR" !in h || "WR" !in h then Some(Rank)
    else if RankFault(h["BR"]).Some? then RankFault(h["BR"])
    else RankFault(h["WR"])
  }

  /** The first check the header fails, or None when it passes all five. */
  function Verdict(h: Header, size: int, boardSize: int): (r: Option<Reason>)
    ensures r.Some? ==> r.value in FilterReasons
  {
    if !RulesOk(h) then Some(Rules)
    else if "HA" in h then Some(Handicap)
    else if !ResultOk(h) then Some(Result)
    else if RanksFault(h).Some? then RanksFault(h)
    else if size != boardSize then Some(Size)
    else None
  }

  /** A rank the filter admits, stated on its own: a level that int() reads,
      then p, or d with a level of at least 6. */
  predicate ProRank(h: Header, key: string)
  {
    key in h && |h[key]| >= 1 && IntTextTo(h[key], |h[key]| - 1) &&
    (h[key][|h[key]| - 1] == 'p' || (h[key][|h[key]| - 1] == 'd' && IntValueTo(h[key], |h[key]| - 1) >= 6))
  }

  lemma RankFaultNone(h: Header, key: string)
    requires key in h
    ensures RankFault(h[key]).None? <==> ProRank(h, key)
    ensures RankFault(h[key]).Some? ==> RankFault(h[key]) == Some(Rank) || RankFault(h[key]) == Some(NoPro)
  {
    if IntTextTo(h[key], LevelEnd(h[key])) {
      assert |h[key]| >= 1;
    }
  }

  /** A header passes exactly when it meets all five requirements: Japanese
      rules, no handicap, a result by points or unstated margin, two
      professional or high-dan players, and the configured board size. */
  lemma PassesExactly(h: Header, size: int, boardSize: int)
    ensures Verdict(h, size, boardSize).None? <==>
      RulesOk(h) && "HA" !in h && ResultOk(h) && ProRank(h, "BR") && ProRank(h, "WR") && size == boardSize
  {
    if "BR" in h && "WR" in h {
      RankFaultNone(h, "BR");
      RankFaultNone(h, "WR");
    }
  }

  /** A missing WR is counted as a rank fault even when BR alone would have
      been refused as below professional. */
  lemma MissingRankFirst(h: Header)
    requires "BR" in h && RankFault(h["BR"]) == Some(NoPro)
    ensures RanksFault(h) == (if "WR" in h then Some(NoPro) else Some(Rank))
  {
  }

  /** Any HA property refuses the game, whatever its value, once the rules pass. */
  lemma HandicapAnyValue(h: Header, v: string, size: int, boardSize: int)
    requires RulesOk(h)
    ensures Verdict(h["HA" := v], size, boardSize) == Some(Handicap)
  {
    assert h["HA" := v]["RU"] == h["RU"];
  }

  /** Size is checked last: a header refused for its size passed every other check. */
  lemma SizeLast(h: Header, size: int, boardSize: int)
    ensures Verdict(h, size, boardSize) == Some(Size) <==> Verdict(h, boardSize, boardSize).None? && size != boardSize
  {
  }

  /** A game imported from the library never has "AGA" as its RU property. */
  lemma PassedNotAga(h: Header, size: int, boardSize: int)
    requires Verdict(h, size, boardSize).None?
    ensures "RU" in h && h["RU"] != "AGA"
  {
  }

  /** The refusals of filter_game_header. */
  const FilterReasons: set<Reason> := {Rules, Handicap, Result, NoPro, Rank, Size}

  /** The counters an import run keeps (library.py:88-97); there is no 'nopro'. */
  const ImportCounters: set<Reason> := {Size, Result, Rank, Handicap, FewMoves, Rules, Error, Duplicate}

  /** The counters filter_game_header bumps directly. */
  const FilterCounters: set<Reason> := {Rules, Handicap, Result, Rank, Size}

  /** The counter a refusal bumps: its own, except that a NoPro refusal on a
      table without 'nopro' raises KeyError, whose handler bumps 'rank'. */
  function CounterFor(c: Reason, keys: set<Reason>): (k: Reason)
    ensures k == c || (c == NoPro && k == Rank && NoPro !in keys)
  {
    if c == NoPro && NoPro !in keys then Rank else c
  }

  /** Under the import run's table every refusal of the filter bumps one of
      its own counters, a NoPro refusal the 'rank' counter. */
  lemma ImportCounterExists(c: Reason)
    requires c in FilterReasons
    ensures CounterFor(c, ImportCounters) in ImportCounters
    ensures c == NoPro ==> CounterFor(c, ImportCounters) == Rank
  {
  }

  /** The skip dictionary, which filter_game_header updates in place. */
  class SkipTable {
    var counts: map<Reason, int>

    constructor (counts: map<Reason, int>)
      ensures this.counts == counts
    {
      this.counts := counts;
    }

    /** skip[key] += 1 */
    method Bump(key: Reason)
      requires key in counts
      modifies this
      ensures counts == old(counts)[key := old(counts)[key] + 1]
    {
      counts := counts[key := counts[key] + 1];
    }

    /** The counter update of one refusal: skip['nopro'] += 1 raises
        KeyError on a table without that key, and the handler of the rank
        check then bumps skip['rank'] (library.py:186-191). */
    method Refuse(c: Reason)
      requires FilterCounters <= counts.Keys && c in FilterReasons
      modifies this
      ensures counts == Bumped(old(counts), c)
    {
      if c == NoPro && NoPro !in counts {
        Bump(Rank);
      } else {
        Bump(c);
      }
    }
  }

  /** The table after one refusal for c. */
  function Bumped(counts: map<Reason, int>, c: Reason): (r: map<Reason, int>)
    requires FilterCounters <= counts.Keys && c in FilterReasons
    ensures r.Keys == counts.Keys
    ensures forall key :: key in counts && key != CounterFor(c, counts.Keys) ==> r[key] == counts[key]
    ensures r[CounterFor(c, counts.Keys)] == counts[CounterFor(c, counts.Keys)] + 1
  {
    var k := CounterFor(c, counts.Keys);
    counts[k := counts[k] + 1]
  }

  /** The rank check of filter_game_header (library.py:183-191), BR then WR. */
  method CheckRanks(skip: SkipTable, header: Header) returns (ok: bool)
    requires FilterCounters <= skip.counts.Keys
    modifies skip
    ensures ok <==> RanksFault(header).None?
    ensures ok ==> skip.counts == old(skip.counts)
    ensures !ok ==> skip.counts == Bumped(old(skip.counts), RanksFault(header).value)
  {
    if "BR" !in header || "WR" !in header {
      skip.Refuse(Rank);
      return false;
    }
    var ranks := [header["BR"], header["WR"]];
    var k := 0;
    while k < |ranks|
      invariant 0 <= k <= |ranks|
      invariant forall j :: 0 <= j < k ==> RankFault(ranks[j]).None?
      invariant skip.counts == old(skip.counts)
    {
      var fault := RankFault(ranks[k]);
      if fault.Some? {
        if k == 1 {
          assert RankFault(ranks[0]).None?;
        }
        assert RanksFault(header) == fault;
        skip.Refuse(fault.value);
        return false;
      }
      k := k + 1;
    }
    assert RankFault(ranks[0]).None? && RankFault(ranks[1]).None?;
    ok := true;
  }

  /** filter_game_header (library.py:153-198): true when the header passes;
      otherwise the counter of the first failed check goes up by one. A
      direct skip[...] on a missing key would raise, hence the requires. */
  method FilterGameHeader(skip: SkipTable, header: Header, size: int, boardSize: int) returns (passed: bool)
    requires FilterCounters <= skip.counts.Keys
    modifies skip
    ensures passed <==> Verdict(header, size, boardSize).None?
    ensures passed ==> skip.counts == old(skip.counts)
    ensures !passed ==> skip.counts == Bumped(old(skip.counts), Verdict(header, size, boardSize).value)
  {
    if !RulesOk(header) {
      skip.Refuse(Rules);
      return false;
    }
    if "HA" in header {
      skip.Refuse(Handicap);
      return false;
    }
    var tail := ResultTail(header);
    if tail.None? {
      skip.Refuse(Result);
      return false;
    }
    var result := tail.value;
    if result != "" {
      if NotByPoints(result) {
        skip.Refuse(Result);
        return false;
      }
      if !FloatText(result) {
        skip.Refuse(Result);
        return false;
      }
    }
    assert ResultOk(header);
    var ranked := CheckRanks(skip, header);
    if !ranked {
      return false;
    }
    if size != boardSize {
      skip.Refuse(Size);
      return false;
    }
    passed := true;
  }
}
