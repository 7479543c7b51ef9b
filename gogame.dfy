/** goat/gogame.py: a game's identifier, its replay into one board per move,
    and the Board wrapper around a gomill board. */
module GoGame {
  import opened Wrappers
  import opened Grid
  import opened Text
  import Geometry

  /** A move of gomill's move list: the colour and the point, None for a pass. */
  datatype SgfMove = SgfMove(colour: Colour, coord: Option<Point>)

  /** The colour strings 'b' and 'w' (gogame.py:33-34). */
  function ColourChar(c: Colour): char
  {
    match c
    case Black => 'b'
    case White => 'w'
  }

  /** The lower-case letter of an SGF coordinate, 'a' for 0. */
  function Letter(i: nat): (ch: char)
    requires i < 26
    ensures 'a' <= ch <= 'z'
  {
    (('a' as int) + i) as char
  }

  /** The Point value type of SGF FF[4], as gomill serialises a move: None
      stands for the ValueError raised on a bad size or an off-board point. */
  function SerialisePoint(coord: Option<Point>, size: int): (r: Option<string>)
    ensures r.Some? <==> 1 <= size <= 26 && (coord.None? || InBounds(coord.value, size))
    ensures r.Some? && coord.None? ==> r.value == if size <= 19 then "tt" else ""
    ensures r.Some? && coord.Some? ==> (|r.value| == 2 &&
      r.value[0] == Letter(coord.value.col) && r.value[1] == Letter(size - 1 - coord.value.row))
  {
    if !(1 <= size <= 26) then None
    else match coord
      case None => Some(if size <= 19 then "tt" else "")
      case Some(p) =>
        if InBounds(p, size) then Some([Letter(p.col), Letter(size - 1 - p.row)]) else None
  }

  /** Two on-board points serialise alike only if they are the same point,
      and no point serialises as a pass does on a board of up to 19 lines. */
  lemma SerialiseInjective(x: Option<Point>, y: Option<Point>, size: int)
    requires SerialisePoint(x, size).Some? && SerialisePoint(x, size) == SerialisePoint(y, size)
    requires size <= 19
    ensures x == y
  {
    var s := SerialisePoint(x, size).value;
    if x.Some? && y.Some? {
      assert x.value.col == y.value.col by { assert s[0] == Letter(x.value.col) == Letter(y.value.col); }
      assert x.value.row == y.value.row by { assert s[1] == Letter(size - 1 - x.value.row) == Letter(size - 1 - y.value.row); }
    }
  }

  /** The move numbers whose points make up a game's identifier (gogame.py:74). */
  const Probes: seq<nat> := [20, 40, 60, 31, 51, 71]

  /** What a probe sees: the point of move m (1-based), or nothing when the game is shorter. */
  function ProbeData(plays: seq<SgfMove>, m: nat): Option<Option<Point>>
  {
    if 1 <= m <= |plays| then Some(plays[m - 1].coord) else None
  }

  /** One two-character piece of the identifier, "--" past the end of the game. */
  function Segment(plays: seq<SgfMove>, size: int, m: nat): (r: Option<string>)
    ensures ProbeData(plays, m).None? ==> r == Some("--")
    ensures ProbeData(plays, m).Some? ==> r == SerialisePoint(ProbeData(plays, m).value, size)
  {
    if 1 <= m <= |plays| then SerialisePoint(plays[m - 1].coord, size) else Some("--")
  }

  /** The pieces of the given probes concatenated; None once one raises. */
  function IdFrom(plays: seq<SgfMove>, size: int, probes: seq<nat>): Option<string>
  {
    if probes == [] then Some("")
    else match IdFrom(plays, size, probes[..|probes| - 1])
      case None => None
      case Some(s) =>
        match Segment(plays, size, probes[|probes| - 1])
        case None => None
        case Some(t) => Some(s + t)
  }

  function GameIdSpec(plays: seq<SgfMove>, size: int): Option<string>
  {
    IdFrom(plays, size, Probes)
  }

  /** _gameid (gogame.py:71-79); None is the ValueError of a bad point or size. */
  method GameId(sgfplays: seq<SgfMove>, size: int) returns (id: Option<string>)
    ensures id == GameIdSpec(sgfplays, size)
  {
    var acc := "";
    var moves := |sgfplays|;
    var k := 0;
    while k < |Probes|
      invariant 0 <= k <= |Probes|
      invariant IdFrom(sgfplays, size, Probes[..k]) == Some(acc)
    {
      var move := Probes[k];
      assert Probes[..k + 1][..k] == Probes[..k];
      if move <= moves {
        var s := SerialisePoint(sgfplays[move - 1].coord, size);
        if s.None? {
          IdFromRaises(sgfplays, size, Probes, k + 1);
          return None;
        }
        acc := acc + s.value;
      } else {
        acc := acc + "--";
      }
      k := k + 1;
    }
    assert Probes[..k] == Probes;
    id := Some(acc);
  }

  lemma {:induction false} IdFromRaises(plays: seq<SgfMove>, size: int, probes: seq<nat>, k: nat)
    requires k <= |probes| && IdFrom(plays, size, probes[..k]).None?
    ensures IdFrom(plays, size, probes).None?
    decreases |probes| - k
  {
    if k < |probes| {
      assert probes[..k + 1][..k] == probes[..k];
      IdFromRaises(plays, size, probes, k + 1);
    } else {
      assert probes[..k] == probes;
    }
  }

  /** Games with the same moves at the probed numbers get the same identifier. */
  lemma {:induction false} IdFromDependsOnProbes(p1: seq<SgfMove>, p2: seq<SgfMove>, size: int, probes: seq<nat>)
    requires forall k :: 0 <= k < |probes| ==> ProbeData(p1, probes[k]) == ProbeData(p2, probes[k])
    ensures IdFrom(p1, size, probes) == IdFrom(p2, size, probes)
    decreases |probes|
  {
    if probes != [] {
      IdFromDependsOnProbes(p1, p2, size, probes[..|probes| - 1]);
    }
  }

  /** On a board of 1 to 19 lines every piece has two characters. */
  lemma {:induction false} IdFromWidth(plays: seq<SgfMove>, size: int, probes: seq<nat>)
    requires 1 <= size <= 19 && IdFrom(plays, size, probes).Some?
    ensures |IdFrom(plays, size, probes).value| == 2 * |probes|
    decreases |probes|
  {
    if probes != [] {
      IdFromWidth(plays, size, probes[..|probes| - 1]);
    }
  }

  /** Equal identifiers on a board of 1 to 19 lines mean equal probed moves. */
  lemma {:induction false} IdFromInjective(p1: seq<SgfMove>, p2: seq<SgfMove>, size: int, probes: seq<nat>)
    requires 1 <= size <= 19
    requires IdFrom(p1, size, probes).Some? && IdFrom(p1, size, probes) == IdFrom(p2, size, probes)
    ensures forall k :: 0 <= k < |probes| ==> ProbeData(p1, probes[k]) == ProbeData(p2, probes[k])
    decreases |probes|
  {
    if probes != [] {
      var init := probes[..|probes| - 1];
      var m := probes[|probes| - 1];
      var s1 := IdFrom(p1, size, init);
      var s2 := IdFrom(p2, size, init);
      assert s1.Some? && s2.Some?;
      IdFromWidth(p1, size, init);
      IdFromWidth(p2, size, init);
      var t1 := Segment(p1, size, m).value;
      var t2 := Segment(p2, size, m).value;
      assert s1.value + t1 == s2.value + t2;
      assert s1.value == (s1.value + t1)[..2 * |init|];
      assert s2.value == (s2.value + t2)[..2 * |init|];
      assert t1 == (s1.value + t1)[2 * |init|..];
      assert t2 == (s2.value + t2)[2 * |init|..];
      IdFromInjective(p1, p2, size, init);
      if ProbeData(p1, m).Some? && ProbeData(p2, m).Some? {
        SerialiseInjective(ProbeData(p1, m).value, ProbeData(p2, m).value, size);
      }
      assert forall k :: 0 <= k < |init| ==> probes[k] == init[k];
    }
  }

  /** On a board of 1 to 19 lines the identifier has twelve characters, and
      two games share it exactly when they agree on the six probed moves. */
  lemma GameIdIdentifies(p1: seq<SgfMove>, p2: seq<SgfMove>, size: int)
    requires 1 <= size <= 19 && GameIdSpec(p1, size).Some? && GameIdSpec(p2, size).Some?
    ensures |GameIdSpec(p1, size).value| == 12
    ensures GameIdSpec(p1, size) == GameIdSpec(p2, size) <==>
      forall k :: 0 <= k < |Probes| ==> ProbeData(p1, Probes[k]) == ProbeData(p2, Probes[k])
  {
    IdFromWidth(p1, size, Probes);
    if GameIdSpec(p1, size) == GameIdSpec(p2, size) {
      IdFromInjective(p1, p2, size, Probes);
    }
    if forall k :: 0 <= k < |Probes| ==> ProbeData(p1, Probes[k]) == ProbeData(p2, Probes[k]) {
      IdFromDependsOnProbes(p1, p2, size, Probes);
    }
  }

  lemma {:induction false} IdFromPastEnd(plays: seq<SgfMove>, size: int, probes: seq<nat>)
    requires forall k :: 0 <= k < |probes| ==> probes[k] > |plays|
    ensures IdFrom(plays, size, probes).Some?
    ensures forall i :: 0 <= i < |IdFrom(plays, size, probes).value| ==> IdFrom(plays, size, probes).value[i] == '-'
    ensures |IdFrom(plays, size, probes).value| == 2 * |probes|
    decreases |probes|
  {
    if probes != [] {
      IdFromPastEnd(plays, size, probes[..|probes| - 1]);
    }
  }

  /** A game of fewer than 20 moves, on any board, has the identifier "------------". */
  lemma ShortGameId(plays: seq<SgfMove>, size: int)
    requires |plays| < 20
    ensures GameIdSpec(plays, size) == Some("------------")
  {
    IdFromPastEnd(plays, size, Probes);
    var id := GameIdSpec(plays, size).value;
    assert |id| == 12;
    assert id == "------------";
  }

  /** The errors play raises: the GoGameError of a failed setup, the KeyError
      of a root property the description of setup needs, the GoGameError of
      a move the board refuses, and the ValueError of a point that cannot be
      serialised for that message. */
  datatype PlayError =
    | SetupFailed
    | MissingProperty(key: string)
    | InvalidMove(index: nat, colour: string, point: string)
    | UnserialisablePoint

  /** The error for refused move number index (1-based). */
  function MoveError(m: SgfMove, index: nat, size: int): (e: PlayError)
    ensures SerialisePoint(m.coord, size).Some? ==>
      e == InvalidMove(index, [UpperChar(ColourChar(m.colour))], SerialisePoint(m.coord, size).value)
    ensures SerialisePoint(m.coord, size).None? ==> e == UnserialisablePoint
  {
    match SerialisePoint(m.coord, size)
    case None => UnserialisablePoint
    case Some(s) => InvalidMove(index, [UpperChar(ColourChar(m.colour))], s)
  }

  /** gomill's Board.play: the board after a stone, or None when it raises. */
  type Engine = (Snapshot, Point, Colour) -> Option<Snapshot>

  /** The replay loop of play from move number base + 1 on: one (move, board)
      pair per move until the board refuses one. */
  function Replay(engine: Engine, board: Snapshot, moves: seq<SgfMove>, size: int, base: nat): (seq<(SgfMove, Snapshot)>, Option<PlayError>)
    decreases |moves|
  {
    if moves == [] then ([], None)
    else
      var m := moves[0];
      match m.coord
      case None =>
        var rest := Replay(engine, board, moves[1..], size, base + 1);
        ([(m, board)] + rest.0, rest.1)
      case Some(p) =>
        match engine(board, p, m.colour)
        case None => ([], Some(MoveError(m, base + 1, size)))
        case Some(after) =>
          var rest := Replay(engine, after, moves[1..], size, base + 1);
          ([(m, after)] + rest.0, rest.1)
  }

  /** The board before move i of a replay that started on board. */
  function BoardBefore(board: Snapshot, pairs: seq<(SgfMove, Snapshot)>, i: nat): Snapshot
    requires i <= |pairs|
  {
    if i == 0 then board else pairs[i - 1].1
  }

  /** One replayed move: a pass repeats the board before it, a stone gives
      the board the engine returns. */
  predicate StepOk(engine: Engine, before: Snapshot, m: SgfMove, after: Snapshot)
  {
    if m.coord.None? then after == before else engine(before, m.coord.value, m.colour) == Some(after)
  }

  /** The pairs of a replay follow the moves in order, each board being the
      result of its move on the board before it. */
  predicate Follows(engine: Engine, board: Snapshot, moves: seq<SgfMove>, pairs: seq<(SgfMove, Snapshot)>)
  {
    |pairs| <= |moves| &&
    forall i :: 0 <= i < |pairs| ==> pairs[i].0 == moves[i] && StepOk(engine, BoardBefore(board, pairs, i), moves[i], pairs[i].1)
  }

  lemma FollowsCons(engine: Engine, board: Snapshot, next: Snapshot, moves: seq<SgfMove>, rest: seq<(SgfMove, Snapshot)>)
    requires moves != [] && StepOk(engine, board, moves[0], next)
    requires Follows(engine, next, moves[1..], rest)
    ensures Follows(engine, board, moves, [(moves[0], next)] + rest)
  {
    var pairs := [(moves[0], next)] + rest;
    forall i | 1 <= i < |pairs|
      ensures pairs[i].0 == moves[i] && StepOk(engine, BoardBefore(board, pairs, i), moves[i], pairs[i].1)
    {
      assert pairs[i] == rest[i - 1] && moves[i] == moves[1..][i - 1];
      assert BoardBefore(board, pairs, i) == BoardBefore(next, rest, i - 1);
    }
  }

  /** A replay pairs every move it reaches with the board after it, and it
      reaches every move exactly when no error is raised. */
  lemma {:induction false} ReplayFollows(engine: Engine, board: Snapshot, moves: seq<SgfMove>, size: int, base: nat)
    ensures Follows(engine, board, moves, Replay(engine, board, moves, size, base).0)
    ensures Replay(engine, board, moves, size, base).1.None? <==> |Replay(engine, board, moves, size, base).0| == |moves|
    decreases |moves|
  {
    if moves != [] {
      var m := moves[0];
      if m.coord.None? || engine(board, m.coord.value, m.colour).Some? {
        var next := if m.coord.None? then board else engine(board, m.coord.value, m.colour).value;
        ReplayFollows(engine, next, moves[1..], size, base + 1);
        FollowsCons(engine, board, next, moves, Replay(engine, next, moves[1..], size, base + 1).0);
      }
    }
  }

  /** An error names the first move the board refuses, by its 1-based number. */
  lemma {:induction false} ReplayError(engine: Engine, board: Snapshot, moves: seq<SgfMove>, size: int, base: nat)
    ensures var (pairs, err) := Replay(engine, board, moves, size, base);
      err.Some? ==> (|pairs| < |moves| && moves[|pairs|].coord.Some? &&
        engine(BoardBefore(board, pairs, |pairs|), moves[|pairs|].coord.value, moves[|pairs|].colour).None? &&
        err == Some(MoveError(moves[|pairs|], base + |pairs| + 1, size)))
    decreases |moves|
  {
    if moves != [] {
      var m := moves[0];
      if m.coord.None? || engine(board, m.coord.value, m.colour).Some? {
        var next := if m.coord.None? then board else engine(board, m.coord.value, m.colour).value;
        ReplayError(engine, next, moves[1..], size, base + 1);
        var rest := Replay(engine, next, moves[1..], size, base + 1);
        var pairs := [(m, next)] + rest.0;
        if rest.1.Some? {
          assert moves[|pairs|] == moves[1..][|rest.0|];
          assert BoardBefore(board, pairs, |pairs|) == BoardBefore(next, rest.0, |rest.0|);
        }
      }
    }
  }

  /** One step of the replay loop, for the loop invariant of play. */
  lemma ReplayStep(engine: Engine, board: Snapshot, moves: seq<SgfMove>, size: int, base: nat)
    requires moves != []
    ensures moves[0].coord.None? ==> (Replay(engine, board, moves, size, base) ==
      var rest := Replay(engine, board, moves[1..], size, base + 1); ([(moves[0], board)] + rest.0, rest.1))
    ensures moves[0].coord.Some? && engine(board, moves[0].coord.value, moves[0].colour).None? ==>
      Replay(engine, board, moves, size, base) == ([], Some(MoveError(moves[0], base + 1, size)))
    ensures moves[0].coord.Some? && engine(board, moves[0].coord.value, moves[0].colour).Some? ==>
      var after := engine(board, moves[0].coord.value, moves[0].colour).value;
      Replay(engine, board, moves, size, base) ==
        var rest := Replay(engine, after, moves[1..], size, base + 1); ([(moves[0], after)] + rest.0, rest.1)
  {
  }

  /** The root properties the description of setup looks up
      (gogame.py:86-91), in the order Python evaluates them. */
  const DescriptionKeys: seq<string> := ["PB", "BR", "PW", "WR", "RE", "DT"]

  /** The first of keys that header lacks, whose lookup raises gomill's
      KeyError; None when header has them all. */
  function FirstMissing(keys: seq<string>, header: map<string, string>): (r: Option<string>)
    ensures r.None? <==> forall i :: 0 <= i < |keys| ==> keys[i] in header
    ensures r.Some? ==> exists i :: 0 <= i < |keys| && keys[i] == r.value && r.value !in header &&
                                  forall j :: 0 <= j < i ==> keys[j] in header
    decreases |keys|
  {
    if keys == [] then None
    else if keys[0] !in header then Some(keys[0])
    else
      var r := FirstMissing(keys[1..], header);
      assert r.Some? ==> exists i :: 0 <= i < |keys| && keys[i] == r.value && r.value !in header &&
                                   forall j :: 0 <= j < i ==> keys[j] in header by {
        if r.Some? {
          var i :| 0 <= i < |keys| - 1 && keys[1..][i] == r.value && r.value !in header &&
            forall j :: 0 <= j < i ==> keys[1..][j] in header;
          assert keys[i + 1] == r.value;
          assert forall j :: 0 <= j < i + 1 ==> keys[j] in header by {
            forall j | 0 <= j < i + 1
              ensures keys[j] in header
            {
              if j > 0 {
                assert keys[j] == keys[1..][j - 1];
              }
            }
          }
        }
      }
      assert r.None? ==> forall i :: 0 <= i < |keys| ==> keys[i] in header by {
        if r.None? {
          forall i | 0 <= i < |keys|
            ensures keys[i] in header
          {
            if i > 0 {
              assert keys[i] == keys[1..][i - 1];
            }
          }
        }
      }
      r
  }

  /** The description "PB(BR) vs PW(WR) RE DT" of setup (gogame.py:86-91). */
  function Description(header: map<string, string>): string
    requires FirstMissing(DescriptionKeys, header).None?
  {
    assert DescriptionKeys[0] == "PB" && DescriptionKeys[1] == "BR" && DescriptionKeys[2] == "PW";
    assert DescriptionKeys[3] == "WR" && DescriptionKeys[4] == "RE" && DescriptionKeys[5] == "DT";
    header["PB"] + "(" + header["BR"] + ") vs " + header["PW"] + "(" + header["WR"] + ") " +
    header["RE"] + " " + header["DT"]
  }

  /** What setup does to (sgfboard, sgfplays, id, description) and what it
      raises, None when it returns; setup is gomill's get_setup_and_moves,
      None when it raises.  The identifier is assigned before the header is
      read, so a missing property leaves the new identifier in place. */
  function AfterSetup(setup: Option<(Snapshot, seq<SgfMove>)>, size: int, header: map<string, string>,
                      before: (Snapshot, seq<SgfMove>, string, string)): (r: ((Snapshot, seq<SgfMove>, string, string), Option<PlayError>))
    ensures r.1 == Some(SetupFailed) <==> setup.None? || GameIdSpec(setup.value.1, size).None?
    ensures r.1.None? <==>
      setup.Some? && GameIdSpec(setup.value.1, size).Some? && FirstMissing(DescriptionKeys, header).None?
    ensures r.1.Some? && r.1.value.MissingProperty? ==> FirstMissing(DescriptionKeys, header) == Some(r.1.value.key)
    ensures r.1.Some? ==> r.1.value.SetupFailed? || r.1.value.MissingProperty?
    ensures setup.None? ==> r.0 == before
    ensures setup.Some? ==> r.0.0 == setup.value.0 && r.0.1 == setup.value.1
    ensures r.0.2 == if r.1 != Some(SetupFailed) then GameIdSpec(setup.value.1, size).value else before.2
    ensures r.0.3 == if r.1.None? then Description(header) else before.3
  {
    match setup
    case None => (before, Some(SetupFailed))
    case Some((board, plays)) =>
      match GameIdSpec(plays, size)
      case None => ((board, plays, before.2, before.3), Some(SetupFailed))
      case Some(id) =>
        match FirstMissing(DescriptionKeys, header)
        case Some(key) => ((board, plays, id, before.3), Some(MissingProperty(key)))
        case None => ((board, plays, id, Description(header)), None)
  }

  /** On a board of 1 to 19 lines, a setup that raises KeyError has already
      given the game its identifier, so a second play does not run it again. */
  lemma MissingPropertyKeepsId(setup: Option<(Snapshot, seq<SgfMove>)>, size: int, header: map<string, string>,
                               before: (Snapshot, seq<SgfMove>, string, string))
    requires 1 <= size <= 19
    requires AfterSetup(setup, size, header, before).1.Some?
    requires AfterSetup(setup, size, header, before).1.value.MissingProperty?
    ensures |AfterSetup(setup, size, header, before).0.2| == 12
  {
    IdFromWidth(setup.value.1, size, Probes);
  }

  /** GoGame (gogame.py:41-114), built with autosetup and autoplay off;
      the default construction runs Setup and then Play.  The header is the
      root node's properties. */
  class Game {
    const size: int
    const header: map<string, string>
    const setup: Option<(Snapshot, seq<SgfMove>)>
    var initialboard: Snapshot
    var sgfboard: Snapshot
    var sgfplays: seq<SgfMove>
    var id: string
    var description: string
    var plays: seq<(SgfMove, Snapshot)>

    /** The fields setup assigns, besides initialboard. */
    function Fields(): (Snapshot, seq<SgfMove>, string, string)
      reads this
    {
      (sgfboard, sgfplays, id, description)
    }

    /** __init__ (gogame.py:42-62) with autosetup and autoplay off; the
        description, which __init__ does not assign, starts empty. */
    constructor (size: int, header: map<string, string>, setup: Option<(Snapshot, seq<SgfMove>)>)
      ensures this.size == size && this.header == header && this.setup == setup
      ensures id == "" && plays == [] && sgfboard == [] && sgfplays == [] && description == ""
    {
      this.size := size;
      this.header := header;
      this.setup := setup;
      initialboard, sgfboard, sgfplays := [], [], [];
      id, description := "", "";
      plays := [];
    }

    /** setup (gogame.py:81-93); err is what it raises. */
    method Setup() returns (err: Option<PlayError>)
      modifies this
      ensures (Fields(), err) == AfterSetup(setup, size, header, old(Fields()))
      ensures setup.Some? ==> initialboard == setup.value.0
      ensures setup.None? ==> initialboard == old(initialboard)
      ensures plays == old(plays)
    {
      if setup.None? {
        return Some(SetupFailed);
      }
      sgfboard, sgfplays := setup.value.0, setup.value.1;
      initialboard := sgfboard;
      var gid := GameId(sgfplays, size);
      if gid.None? {
        return Some(SetupFailed);
      }
      id := gid.value;
      var missing := FirstMissing(DescriptionKeys, header);
      if missing.Some? {
        return Some(MissingProperty(missing.value));
      }
      description := Description(header);
      err := None;
    }

    /** play (gogame.py:95-114); boards holds the identifiers whose board
        file exists, in which case no move is replayed. */
    method Play(engine: Engine, boards: set<string>) returns (err: Option<PlayError>)
      modifies this
      ensures old(id) != "" ==> Fields() == old(Fields()) && initialboard == old(initialboard)
      ensures old(id) == "" ==> Fields() == AfterSetup(setup, size, header, old(Fields())).0
      ensures old(id) == "" && setup.Some? ==> initialboard == setup.value.0
      ensures old(id) == "" && AfterSetup(setup, size, header, old(Fields())).1.Some? ==>
        err == AfterSetup(setup, size, header, old(Fields())).1 && plays == []
      ensures (old(id) != "" || AfterSetup(setup, size, header, old(Fields())).1.None?) && id in boards ==>
        err == None && plays == []
      ensures (old(id) != "" || AfterSetup(setup, size, header, old(Fields())).1.None?) && id !in boards ==>
        (plays, err) == Replay(engine, sgfboard, sgfplays, size, 0)
    {
      plays := [];
      if id == "" {
        err := Setup();
        if err.Some? {
          return;
        }
      }
      if id in boards {
        return None;
      }
      err := ReplayMoves(engine);
    }

    /** The replay loop of play (gogame.py:104-114) over the prepared moves. */
    method ReplayMoves(engine: Engine) returns (err: Option<PlayError>)
      modifies this
      ensures (plays, err) == Replay(engine, sgfboard, sgfplays, size, 0)
      ensures Fields() == old(Fields()) && initialboard == old(initialboard)
    {
      plays := [];
      var board := sgfboard;
      var i := 0;
      ghost var whole := Replay(engine, sgfboard, sgfplays, size, 0);
      assert sgfplays[0..] == sgfplays;
      assert [] + whole.0 == whole.0;
      while i < |sgfplays|
        invariant 0 <= i <= |sgfplays|
        invariant unchanged(this`sgfboard, this`sgfplays, this`id, this`description, this`initialboard)
        invariant whole.0 == plays + Replay(engine, board, sgfplays[i..], size, i).0
        invariant whole.1 == Replay(engine, board, sgfplays[i..], size, i).1
      {
        var move := sgfplays[i];
        ReplayStep(engine, board, sgfplays[i..], size, i);
        assert sgfplays[i..][1..] == sgfplays[i + 1..];
        if move.coord.Some? {
          var after := engine(board, move.coord.value, move.colour);
          if after.None? {
            assert plays + [] == plays;
            return Some(MoveError(move, i + 1, size));
          }
          board := after.value;
        }
        ghost var rest := Replay(engine, board, sgfplays[i + 1..], size, i + 1);
        assert plays + ([(move, board)] + rest.0) == (plays + [(move, board)]) + rest.0;
        plays := plays + [(move, board)];
        i := i + 1;
      }
      assert sgfplays[i..] == [];
      assert plays + [] == plays;
      err := None;
    }
  }

  /** The characters of Board.ascii (gogame.py:119-123). */
  function AsciiChar(c: Cell): char
  {
    match c
    case None => ' '
    case Some(Black) => '#'
    case Some(White) => 'o'
  }

  /** The inverse of AsciiChar; None for any other character. */
  function CellOf(ch: char): Option<Cell>
  {
    if ch == ' ' then Some(None)
    else if ch == '#' then Some(Some(Black))
    else if ch == 'o' then Some(Some(White))
    else None
  }

  function RowText(row: seq<Cell>): (line: string)
    ensures |line| == |row| && '\n' !in line
  {
    seq(|row|, c requires 0 <= c < |row| => AsciiChar(row[c]))
  }

  /** The lines of Board.ascii: the top row first. */
  function AsciiLines(cells: Snapshot): (lines: seq<string>)
    ensures |lines| == |cells|
    ensures forall k :: 0 <= k < |cells| ==> lines[k] == RowText(cells[|cells| - 1 - k])
  {
    seq(|cells|, k requires 0 <= k < |cells| => RowText(cells[|cells| - 1 - k]))
  }

  function AsciiText(cells: Snapshot): string
  {
    Join("\n", AsciiLines(cells))
  }

  /** Reading a line back: a cell per character, None if any is foreign. */
  function DecodeRow(line: string): Option<seq<Cell>>
  {
    if line == [] then Some([])
    else match (CellOf(line[0]), DecodeRow(line[1..]))
      case (Some(c), Some(rest)) => Some([c] + rest)
      case _ => None
  }

  lemma {:induction false} DecodeRowText(row: seq<Cell>)
    ensures DecodeRow(RowText(row)) == Some(row)
    decreases |row|
  {
    if row != [] {
      DecodeRowText(row[1..]);
      assert RowText(row)[1..] == RowText(row[1..]);
      assert [row[0]] + row[1..] == row;
    }
  }

  /** Board.ascii's text loses nothing: on a board of one line or more it
      splits into one line per row, read from the top, and every line
      decodes back to its row. */
  lemma AsciiRoundTrip(cells: Snapshot)
    requires |cells| >= 1
    ensures Split(AsciiText(cells), '\n') == AsciiLines(cells)
    ensures forall k :: 0 <= k < |cells| ==> DecodeRow(Split(AsciiText(cells), '\n')[k]) == Some(cells[|cells| - 1 - k])
  {
    SplitJoin(AsciiLines(cells), '\n');
    forall k | 0 <= k < |cells| ensures DecodeRow(AsciiLines(cells)[k]) == Some(cells[|cells| - 1 - k]) {
      DecodeRowText(cells[|cells| - 1 - k]);
    }
  }

  /** The rows of a board one after the other. */
  function Flatten(rows: Snapshot): seq<Cell>
  {
    if rows == [] then [] else Flatten(rows[..|rows| - 1]) + rows[|rows| - 1]
  }

  lemma {:induction false} FlattenLength(rows: Snapshot, size: nat)
    requires forall r :: 0 <= r < |rows| ==> |rows[r]| == size
    ensures |Flatten(rows)| == |rows| * size
    decreases |rows|
  {
    if rows != [] {
      FlattenLength(rows[..|rows| - 1], size);
    }
  }

  /** Cell (i, j) is entry i * size + j of the flattened rows. */
  lemma {:induction false} FlattenAt(rows: Snapshot, size: nat, i: nat, j: nat)
    requires forall r :: 0 <= r < |rows| ==> |rows[r]| == size
    requires i < |rows| && j < size
    ensures 0 <= i * size + j < |Flatten(rows)| && Flatten(rows)[i * size + j] == rows[i][j]
    decreases |rows|
  {
    var n := |rows| - 1;
    var init := rows[..n];
    FlattenLength(init, size);
    assert Flatten(rows) == Flatten(init) + rows[n];
    if i == n {
      assert i * size + j == |Flatten(init)| + j;
    } else {
      FlattenAt(init, size, i, j);
      assert init[i] == rows[i];
    }
  }




  /** Board (gogame.py:117-157): a view of a gomill board's rows, which it
      shares rather than copies. */
  class Board {
    const size: int
    const board: array2<Cell>

    /** __init__ (gogame.py:131-133): the board is the very array given. */
    constructor (size: int, cells: array2<Cell>)
      ensures this.size == size && board == cells
    {
      this.size := size;
      board := cells;
    }

    /** Python's reading of an index into a list of n items. */
    static function PyIndex(i: int, n: int): (k: int)
      requires -n <= i < n
      ensures 0 <= k < n && (k == i || k == i + n)
    {
      if i < 0 then i + n else i
    }

    /** get (gogame.py:139-140); a negative index counts from the end. */
    function Get(row: int, col: int): (c: Cell)
      requires -board.Length0 <= row < board.Length0 && -board.Length1 <= col < board.Length1
      reads board
      ensures 0 <= row && 0 <= col ==> c == board[row, col]
    {
      board[PyIndex(row, board.Length0), PyIndex(col, board.Length1)]
    }

    /** set (gogame.py:142-143): one cell changes, and no other. */
    method Set(row: int, col: int, value: Cell)
      requires -board.Length0 <= row < board.Length0 && -board.Length1 <= col < board.Length1
      modifies board
      ensures Get(row, col) == value
      ensures forall i, j :: (0 <= i < board.Length0 && 0 <= j < board.Length1 &&
        (i, j) != (PyIndex(row, board.Length0), PyIndex(col, board.Length1))) ==> board[i, j] == old(board[i, j])
    {
      board[PyIndex(row, board.Length0), PyIndex(col, board.Length1)] := value;
    }

    predicate Fits()
    {
      0 <= size <= board.Length0 && size <= board.Length1
    }

    /** The size-by-size corner of the board as rows. */
    function Cells(): (cells: Snapshot)
      requires Fits()
      reads board
      ensures IsBoard(cells, size)
      ensures forall i, j :: 0 <= i < size && 0 <= j < size ==> cells[i][j] == board[i, j]
    {
      seq(size, i requires 0 <= i < size reads board =>
        seq(size, j requires 0 <= j < size reads board => board[i, j]))
    }

    /** What points yields has one entry per cell. */
    lemma PointsLength()
      requires Fits()
      ensures |Flatten(Cells())| == size * size
    {
      FlattenLength(Cells(), size);
    }

    /** Cell (i, j) is entry i * size + j of what points yields. */
    lemma PointsLayout(i: nat, j: nat)
      requires Fits() && i < size && j < size
      ensures 0 <= i * size + j < |Flatten(Cells())| && Flatten(Cells())[i * size + j] == board[i, j]
    {
      FlattenAt(Cells(), size, i, j);
    }

    /** points (gogame.py:145-148): every cell, row by row. */
    method Points() returns (cells: seq<Cell>)
      requires Fits()
      ensures cells == Flatten(Cells())
    {
      ghost var rows := Cells();
      cells := [];
      var row := 0;
      while row < size
        invariant 0 <= row <= size
        invariant cells == Flatten(rows[..row])
      {
        var col := 0;
        while col < size
          invariant 0 <= col <= size
          invariant cells == Flatten(rows[..row]) + rows[row][..col]
        {
          assert rows[row][..col + 1] == rows[row][..col] + [board[row, col]];
          cells := cells + [board[row, col]];
          col := col + 1;
        }
        assert rows[..row + 1][..row] == rows[..row];
        assert rows[row][..col] == rows[row];
        row := row + 1;
      }
      assert rows[..row] == rows;
    }

    /** ascii (gogame.py:150-157). */
    method Ascii() returns (text: string)
      requires Fits()
      ensures text == AsciiText(Cells())
    {
      var lines: seq<string> := [];
      var row := size - 1;
      while row >= 0
        invariant -1 <= row < size
        invariant |lines| == size - 1 - row
        invariant forall k :: 0 <= k < |lines| ==> lines[k] == RowText(Cells()[size - 1 - k])
      {
        var line := "";
        var col := 0;
        while col < size
          invariant 0 <= col <= size
          invariant |line| == col
          invariant forall c :: 0 <= c < col ==> line[c] == AsciiChar(board[row, c])
        {
          line := line + [AsciiChar(board[row, col])];
          col := col + 1;
        }
        lines := lines + [line];
        row := row - 1;
      }
      assert lines == AsciiLines(Cells());
      text := Join("\n", lines);
    }
  }
}
