/** import_sources and the file-name test of find_games and walk
    (goat/library.py): each source file is parsed, filtered, loaded and
    either copied into the library under its game id or counted under the
    reason it was skipped. */
module Importer {
  import opened Wrappers
  import opened Text
  import opened HeaderFilter

  /** The index of the last ch in s before j, or -1. */
  function LastBefore(s: string, ch: char, j: nat): (r: int)
    requires j <= |s|
    ensures -1 <= r < j
    ensures r >= 0 ==> s[r] == ch
    ensures forall k :: r < k < j ==> s[k] != ch
  {
    if j == 0 then -1
    else if s[j - 1] == ch then j - 1
    else LastBefore(s, ch, j - 1)
  }

  /** Some character of s[i..j] is not a dot. */
  predicate NotAllDots(s: string, i: nat, j: nat)
    requires i <= j <= |s|
    ensures NotAllDots(s, i, j) <==> exists k :: i <= k < j && s[k] != '.'
    decreases j - i
  {
    i < j && (s[i] != '.' || NotAllDots(s, i + 1, j))
  }

  /** The dot at d starts the extension of path p under the rule of
      os.path.splitext on POSIX: it is the last dot, no '/' follows it, and
      some character other than a dot precedes it in the last path
      component (so ".sgf" and "a/..sgf" have no extension). */
  ghost predicate ExtensionDot(p: string, d: int)
  {
    0 <= d < |p| && p[d] == '.' &&
    (forall m :: d < m < |p| ==> p[m] != '.' && p[m] != '/') &&
    exists k :: 0 <= k < d && p[k] != '.' && forall m :: k <= m < d ==> p[m] != '/'
  }

  /** os.path.splitext on POSIX: the last path component's extension
      starts at its last dot, when that dot follows some other character
      of the component. */
  function SplitExt(p: string): (parts: (string, string))
    ensures parts.0 + parts.1 == p
    ensures parts.1 != "" ==> ExtensionDot(p, |parts.0|)
    ensures parts.1 == "" ==> forall d :: !ExtensionDot(p, d)
  {
    var sep := LastBefore(p, '/', |p|);
    var dot := LastBefore(p, '.', |p|);
    if dot > sep && NotAllDots(p, sep + 1, dot) then
      assert p[..dot] + p[dot..] == p;
      (p[..dot], p[dot..])
    else (p, "")
  }

  /** A name with no '/' whose last dot is at d > 0, after a character
      other than a dot, has the extension that starts at d. */
  lemma SplitExtAt(p: string, d: nat)
    requires d < |p| && p[d] == '.' && p[0] != '.' && '/' !in p
    requires forall k :: d < k < |p| ==> p[k] != '.'
    ensures SplitExt(p).1 == p[d..]
  {
    assert LastBefore(p, '.', |p|) == d;
    assert NotAllDots(p, 0, d);
  }

  /** os.path.splitext(name)[1][1:].lower(): the lower-cased text after
      the dot that starts the extension, or "" when there is none. */
  function Extension(name: string): (ext: string)
    ensures forall d :: ExtensionDot(name, d) ==> ext == Lower(name[d + 1..])
    ensures (forall d :: !ExtensionDot(name, d)) ==> ext == ""
  {
    var parts := SplitExt(name);
    if parts.1 == "" then ""
    else
      assert forall d :: ExtensionDot(name, d) ==> d == |parts.0|;
      assert parts.1[1..] == name[|parts.0| + 1..];
      Lower(parts.1[1..])
  }

  datatype Kind = GameFile | ArchiveFile | OtherFile

  /** How find_games treats a file name: "sgf" files are games, "zip", "gz"
      and "bz2" files are archives to extract, everything else is ignored.
      walk keeps the same "sgf" files. */
  function Classify(name: string): (k: Kind)
    ensures k == GameFile <==> Extension(name) == "sgf"
    ensures k == ArchiveFile <==> Extension(name) in ["zip", "gz", "bz2"]
  {
    var ext := Extension(name);
    if ext == "sgf" then GameFile
    else if ext in ["zip", "gz", "bz2"] then ArchiveFile
    else OtherFile
  }

  /** The extension is compared in lower case. */
  lemma ClassifyUpperCase()
    ensures Classify("game.SGF") == GameFile
  {
    SplitExtAt("game.SGF", 4);
    assert "game.SGF"[4..][1..] == "SGF";
    assert Lower("SGF") == "sgf";
  }

  /** Only the part after the last dot counts: a compressed tarball is an archive. */
  lemma ClassifyLastDot()
    ensures Classify("games.tar.gz") == ArchiveFile
  {
    SplitExtAt("games.tar.gz", 9);
    assert "games.tar.gz"[9..][1..] == "gz";
    assert Extension("games.tar.gz") == "gz";
  }

  /** Only the part after the last dot counts: an SGF file renamed to .txt is ignored. */
  lemma ClassifyLastDotOther()
    ensures Classify("x.sgf.txt") == OtherFile
  {
    SplitExtAt("x.sgf.txt", 5);
    assert "x.sgf.txt"[5..][1..] == "txt";
    assert Extension("x.sgf.txt") == "txt";
  }

  /** Leading dots do not start an extension, and a bare "sgf" has none. */
  lemma ClassifyNoExtension()
    ensures Classify(".sgf") == OtherFile
    ensures Classify("..sgf") == OtherFile
    ensures Classify("sgf") == OtherFile
  {
    assert LastBefore(".sgf", '.', 4) == 0;
    assert LastBefore("..sgf", '.', 5) == 1;
    assert !NotAllDots("..sgf", 0, 1);
    assert LastBefore("sgf", '.', 3) == -1;
  }

  /** Only the last path component counts: a dot in a directory name does
      not start an extension. */
  lemma ClassifyDirectoryDot()
    ensures Classify("games.sgf/readme") == OtherFile
  {
    assert LastBefore("games.sgf/readme", '/', 16) == 9;
    assert LastBefore("games.sgf/readme", '.', 16) == 5;
  }

  /** A leading dot of the file name does not start an extension, even
      after a directory. */
  lemma ClassifyHiddenInDirectory()
    ensures Classify("games/.sgf") == OtherFile
  {
    assert LastBefore("games/.sgf", '/', 10) == 5;
    assert LastBefore("games/.sgf", '.', 10) == 6;
  }

  /** The extension of a file inside a directory. */
  lemma ClassifyInDirectory()
    ensures Classify("games/x.sgf") == GameFile
  {
    var q := "games/x.sgf";
    assert q[6] == 'x' && forall m :: 6 <= m < 7 ==> q[m] != '/';
    assert ExtensionDot(q, 7);
    assert q[8..] == "sgf";
  }

  /** What load_moves yields: the game id and the number of plays. */
  datatype Loaded = Loaded(id: string, plays: nat)

  /** A source file as import_sources sees it: Unparsable when from_sgf
      raises GoGameError, otherwise its header, its board size and the
      outcome of load_moves (None when that raises GoGameError). */
  datatype SourceFile = Unparsable | Parsed(header: Header, size: int, loaded: Option<Loaded>)

  /** The run's counters and the ids already in the library directory. */
  datatype Tally = Tally(files: nat, games: nat, skip: map<Reason, int>, library: set<string>)

  /** The skip dictionary at the start of a run (library.py:88-97). */
  function InitialSkip(): (m: map<Reason, int>)
    ensures m.Keys == ImportCounters
    ensures forall k :: k in m ==> m[k] == 0
  {
    map k | k in ImportCounters :: 0
  }

  /** The sum of the eight skip counters. */
  function Skipped(m: map<Reason, int>): int
    requires ImportCounters <= m.Keys
  {
    m[Size] + m[Result] + m[Rank] + m[Handicap] + m[FewMoves] + m[Rules] + m[Error] + m[Duplicate]
  }

  /** One more refusal under key. */
  function Count(t: Tally, key: Reason): Tally
    requires key in t.skip
  {
    t.(skip := t.skip[key := t.skip[key] + 1])
  }

  /** The moves load, the game is new to the library and has more than 50 plays. */
  predicate Loads(t: Tally, loaded: Option<Loaded>)
  {
    loaded.Some? && loaded.value.id !in t.library && loaded.value.plays > 50
  }

  /** The file is copied into the library. */
  predicate Accepted(t: Tally, f: SourceFile, boardSize: int)
  {
    f.Parsed? && Verdict(f.header, f.size, boardSize).None? && Loads(t, f.loaded)
  }

  /** The part of a pass after the header filter (library.py:117-143). */
  function Load(t: Tally, loaded: Option<Loaded>): (r: Tally)
    requires ImportCounters <= t.skip.Keys
    ensures r.files == t.files && r.skip.Keys == t.skip.Keys
    ensures Loads(t, loaded) ==>
      r.games == t.games + 1 && r.skip == t.skip && r.library == t.library + {loaded.value.id}
    ensures !Loads(t, loaded) ==> r.games == t.games && r.library == t.library
  {
    if loaded.None? then Count(t, Error)
    else if loaded.value.id in t.library then Count(t, Duplicate)
    else if loaded.value.plays <= 50 then Count(t, FewMoves)
    else t.(games := t.games + 1, library := t.library + {loaded.value.id})
  }

  /** One pass of the loop of import_sources (library.py:100-143) without the
      quota test. */
  function Step(t: Tally, f: SourceFile, boardSize: int): (r: Tally)
    requires ImportCounters <= t.skip.Keys
    ensures r.files == t.files + 1 && r.skip.Keys == t.skip.Keys
    ensures Accepted(t, f, boardSize) ==>
      r.games == t.games + 1 && r.skip == t.skip && r.library == t.library + {f.loaded.value.id}
    ensures !Accepted(t, f, boardSize) ==> r.games == t.games && r.library == t.library
  {
    var t1 := t.(files := t.files + 1);
    match f
    case Unparsable => Count(t1, Error)
    case Parsed(header, size, loaded) =>
      var verdict := Verdict(header, size, boardSize);
      if verdict.Some? then t1.(skip := Bumped(t1.skip, verdict.value))
      else Load(t1, loaded)
  }

  /** The loop stops right after the import that reaches a non-zero quota. */
  predicate Stops(r: Tally, quota: int, imported: bool)
  {
    imported && quota != 0 && r.games >= quota
  }

  /** The whole loop of import_sources over the files find_games yields. */
  function Run(t: Tally, fs: seq<SourceFile>, quota: int, boardSize: int): Tally
    requires ImportCounters <= t.skip.Keys
    decreases |fs|
  {
    if fs == [] then t
    else
      var r := Step(t, fs[0], boardSize);
      if Stops(r, quota, Accepted(t, fs[0], boardSize)) then r
      else Run(r, fs[1..], quota, boardSize)
  }

  /** Run from the k-th file on takes one step, then stops or goes on. */
  lemma RunAt(t: Tally, fs: seq<SourceFile>, k: nat, quota: int, boardSize: int)
    requires ImportCounters <= t.skip.Keys && k < |fs|
    ensures var s := Step(t, fs[k], boardSize);
      Run(t, fs[k..], quota, boardSize) ==
        if Stops(s, quota, Accepted(t, fs[k], boardSize)) then s else Run(s, fs[k + 1..], quota, boardSize)
  {
    assert fs[k..][0] == fs[k] && fs[k..][1..] == fs[k + 1..];
  }

  /** The state import_sources starts from, given the ids already in the library. */
  function Start(library: set<string>): Tally
  {
    Tally(0, 0, InitialSkip(), library)
  }

  /** The checks after the header filter (library.py:117-135): true when
      the file is to be copied. */
  method LoadChecks(skip: SkipTable, loaded: Option<Loaded>, ids: set<string>, ghost t: Tally) returns (accepted: bool)
    requires skip.counts == t.skip && ids == t.library && ImportCounters <= t.skip.Keys
    modifies skip
    ensures accepted <==> Loads(t, loaded)
    ensures skip.counts == Load(t, loaded).skip
  {
    if loaded.None? {
      skip.Bump(Error);
      return false;
    }
    if loaded.value.id in ids {
      skip.Bump(Duplicate);
      return false;
    }
    if loaded.value.plays <= 50 {
      skip.Bump(FewMoves);
      return false;
    }
    accepted := true;
  }

  /** The body of the loop of import_sources for one file, up to the copy
      (library.py:105-139): true when the file is to be copied. */
  method ProcessFile(skip: SkipTable, f: SourceFile, ids: set<string>, boardSize: int, ghost t: Tally) returns (accepted: bool)
    requires skip.counts == t.skip && ids == t.library && ImportCounters <= t.skip.Keys
    modifies skip
    ensures accepted <==> Accepted(t, f, boardSize)
    ensures skip.counts == Step(t, f, boardSize).skip
  {
    if f.Unparsable? {
      skip.Bump(Error);
      return false;
    }
    var passed := FilterGameHeader(skip, f.header, f.size, boardSize);
    if !passed {
      StepRefused(t, f, boardSize);
      return false;
    }
    StepPassed(t, f, boardSize);
    accepted := LoadChecks(skip, f.loaded, ids, t.(files := t.files + 1));
  }

  /** One pass of import_sources's loop over a source file (library.py:104-141),
      without the quota test. */
  method ImportOne(skip: SkipTable, f: SourceFile, files: nat, games: nat, ids: set<string>, boardSize: int)
    returns (files': nat, games': nat, ids': set<string>, accepted: bool)
    requires ImportCounters <= skip.counts.Keys
    modifies skip
    ensures accepted == Accepted(Tally(files, games, old(skip.counts), ids), f, boardSize)
    ensures Tally(files', games', skip.counts, ids') == Step(Tally(files, games, old(skip.counts), ids), f, boardSize)
  {
    ghost var before := Tally(files, games, skip.counts, ids);
    files', games', ids' := files + 1, games, ids;
    accepted := ProcessFile(skip, f, ids, boardSize, before);
    if accepted {
      ids' := ids + {f.loaded.value.id};
      games' := games + 1;
    }
  }

  /** import_sources (library.py:83-150) without its logging: the library
      is a set of game ids, copying a file adds its id. */
  method ImportSources(sources: seq<SourceFile>, library: set<string>, quota: int, boardSize: int)
    returns (files: nat, games: nat, skip: SkipTable, ids: set<string>)
    ensures fresh(skip)
    ensures Tally(files, games, skip.counts, ids) == Run(Start(library), sources, quota, boardSize)
  {
    files := 0;
    games := 0;
    skip := new SkipTable(InitialSkip());
    ids := library;
    var k := 0;
    while k < |sources|
      invariant 0 <= k <= |sources|
      invariant skip.counts.Keys == ImportCounters
      invariant Run(Start(library), sources, quota, boardSize) ==
        Run(Tally(files, games, skip.counts, ids), sources[k..], quota, boardSize)
    {
      ghost var before := Tally(files, games, skip.counts, ids);
      RunAt(before, sources, k, quota, boardSize);
      var accepted;
      files, games, ids, accepted := ImportOne(skip, sources[k], files, games, ids, boardSize);
      if accepted && quota != 0 && games >= quota {
        return;
      }
      k := k + 1;
    }
  }

  /** files == games + the sum of the skip counters, kept by every pass. */
  predicate Balanced(t: Tally)
  {
    t.skip.Keys == ImportCounters && t.files == t.games + Skipped(t.skip)
  }

  /** One more refusal under a counter of the run adds one to the skipped total. */
  lemma BumpSkipped(m: map<Reason, int>, key: Reason)
    requires m.Keys == ImportCounters && key in ImportCounters
    ensures m[key := m[key] + 1].Keys == ImportCounters
    ensures Skipped(m[key := m[key] + 1]) == Skipped(m) + 1
  {
  }

  lemma StepBalanced(t: Tally, f: SourceFile, boardSize: int)
    requires Balanced(t)
    ensures Balanced(Step(t, f, boardSize))
  {
    var t1 := t.(files := t.files + 1);
    match f
    case Unparsable =>
      BumpSkipped(t.skip, Error);
    case Parsed(header, size, loaded) =>
      var verdict := Verdict(header, size, boardSize);
      if verdict.Some? {
        ImportCounterExists(verdict.value);
        BumpSkipped(t.skip, CounterFor(verdict.value, t.skip.Keys));
        assert Step(t, f, boardSize).skip == Bumped(t.skip, verdict.value);
      } else if loaded.None? {
        BumpSkipped(t.skip, Error);
      } else if loaded.value.id in t.library {
        BumpSkipped(t.skip, Duplicate);
      } else if !Loads(t, loaded) {
        BumpSkipped(t.skip, FewMoves);
      }
  }

  /** Every file read is either imported or counted once under a reason. */
  lemma {:induction false} RunBalanced(t: Tally, fs: seq<SourceFile>, quota: int, boardSize: int)
    requires Balanced(t)
    ensures Balanced(Run(t, fs, quota, boardSize))
    decreases |fs|
  {
    if fs != [] {
      StepBalanced(t, fs[0], boardSize);
      RunBalanced(Step(t, fs[0], boardSize), fs[1..], quota, boardSize);
    }
  }

  /** The offered game id of a file that loads. */
  predicate Offers(f: SourceFile, id: string)
  {
    f.Parsed? && f.loaded.Some? && f.loaded.value.id == id
  }

  /** The library only grows, by exactly one new id per imported game, and
      each new id is the id of one of the files; so no game is imported twice. */
  lemma {:induction false} RunLibrary(t: Tally, fs: seq<SourceFile>, quota: int, boardSize: int)
    requires ImportCounters <= t.skip.Keys
    ensures var r := Run(t, fs, quota, boardSize);
      t.library <= r.library && r.games >= t.games &&
      |r.library| == |t.library| + r.games - t.games
    ensures var r := Run(t, fs, quota, boardSize);
      forall id :: id in r.library && id !in t.library ==> exists k :: 0 <= k < |fs| && Offers(fs[k], id)
    decreases |fs|
  {
    if fs != [] {
      var s := Step(t, fs[0], boardSize);
      var r := Run(t, fs, quota, boardSize);
      if !Stops(s, quota, Accepted(t, fs[0], boardSize)) {
        RunLibrary(s, fs[1..], quota, boardSize);
        forall id | id in r.library && id !in t.library
          ensures exists k :: 0 <= k < |fs| && Offers(fs[k], id)
        {
          if id in s.library {
            assert Offers(fs[0], id);
          } else {
            var j :| 0 <= j < |fs[1..]| && Offers(fs[1..][j], id);
            assert Offers(fs[1 + j], id);
          }
        }
      } else {
        forall id | id in r.library && id !in t.library
          ensures exists k :: 0 <= k < |fs| && Offers(fs[k], id)
        {
          assert Offers(fs[0], id);
        }
      }
    }
  }

  /** A non-zero quota is never exceeded; and only a reached quota leaves
      files unread. */
  lemma {:induction false} RunQuota(t: Tally, fs: seq<SourceFile>, quota: int, boardSize: int)
    requires ImportCounters <= t.skip.Keys
    requires quota > 0 && t.games < quota
    ensures Run(t, fs, quota, boardSize).games <= quota
    ensures Run(t, fs, quota, boardSize).games < quota ==> Run(t, fs, quota, boardSize).files == t.files + |fs|
    decreases |fs|
  {
    if fs != [] {
      var s := Step(t, fs[0], boardSize);
      if !Stops(s, quota, Accepted(t, fs[0], boardSize)) {
        RunQuota(s, fs[1..], quota, boardSize);
      }
    }
  }

  /** Without a quota every file is read. */
  lemma {:induction false} RunUnlimited(t: Tally, fs: seq<SourceFile>, boardSize: int)
    requires ImportCounters <= t.skip.Keys
    ensures Run(t, fs, 0, boardSize).files == t.files + |fs|
    ensures Run(t, fs, 0, boardSize).games <= t.games + |fs|
    decreases |fs|
  {
    if fs != [] {
      RunUnlimited(Step(t, fs[0], boardSize), fs[1..], boardSize);
    }
  }

  /** A game already in the library is counted as a duplicate before its
      number of moves is looked at. */
  lemma DuplicateBeforeFewMoves(t: Tally, header: Header, size: int, boardSize: int, game: Loaded)
    requires ImportCounters <= t.skip.Keys
    requires Verdict(header, size, boardSize).None? && game.id in t.library
    ensures Step(t, Parsed(header, size, Some(game)), boardSize) == Count(t.(files := t.files + 1), Duplicate)
  {
  }

  /** A pass over a file whose header passes goes on to the load checks. */
  lemma StepPassed(t: Tally, f: SourceFile, boardSize: int)
    requires ImportCounters <= t.skip.Keys
    requires f.Parsed? && Verdict(f.header, f.size, boardSize).None?
    ensures Step(t, f, boardSize) == Load(t.(files := t.files + 1), f.loaded)
    ensures Accepted(t, f, boardSize) == Loads(t.(files := t.files + 1), f.loaded)
  {
  }

  /** The run's table has no 'nopro' key, so a NoPro refusal bumps 'rank'. */
  lemma BumpedNoPro(m: map<Reason, int>)
    requires m.Keys == ImportCounters
    ensures Bumped(m, NoPro) == m[Rank := m[Rank] + 1]
  {
    assert NoPro !in m.Keys;
    assert CounterFor(NoPro, m.Keys) == Rank;
  }

  /** A pass over a file the header filter refuses bumps the counter of its reason. */
  lemma StepRefused(t: Tally, f: SourceFile, boardSize: int)
    requires ImportCounters <= t.skip.Keys
    requires f.Parsed? && Verdict(f.header, f.size, boardSize).Some?
    ensures Step(t, f, boardSize) == t.(files := t.files + 1, skip := Bumped(t.skip, Verdict(f.header, f.size, boardSize).value))
  {
  }

  /** Every imported game passed the header filter, so under Japanese rules
      and never with "AGA" rules, which Territories skips. */
  lemma AcceptedPassed(t: Tally, f: SourceFile, boardSize: int)
    requires Accepted(t, f, boardSize)
    ensures RulesOk(f.header) && "HA" !in f.header && f.size == boardSize
    ensures f.header["RU"] != "AGA"
  {
    PassedNotAga(f.header, f.size, boardSize);
  }

  /** The last log line, as written: 100. * games / files, which divides by
      zero when no file was found. */
  function ImportedPercentAsWritten(t: Tally): Result<real, string>
  {
    if t.files == 0 then Err("ZeroDivisionError") else Ok(100.0 * t.games as real / t.files as real)
  }

  lemma EmptyRunDivides(library: set<string>, quota: int, boardSize: int)
    ensures ImportedPercentAsWritten(Run(Start(library), [], quota, boardSize)).Err?
  {
  }

  /** The share of files imported, 0 for an empty run. */
  function ImportedPercent(t: Tally): real
  {
    if t.files == 0 then 0.0 else 100.0 * t.games as real / t.files as real
  }

  /** After any run the share lies between 0 and 100. */
  lemma ImportedPercentBounds(library: set<string>, fs: seq<SourceFile>, quota: int, boardSize: int)
    ensures var r := Run(Start(library), fs, quota, boardSize);
      0.0 <= ImportedPercent(r) <= 100.0
  {
    assert Balanced(Start(library));
    RunBalanced(Start(library), fs, quota, boardSize);
    SkippedNonNegative(Start(library), fs, quota, boardSize);
    var r := Run(Start(library), fs, quota, boardSize);
    assert Balanced(r);
    assert r.skip[Size] >= 0 && r.skip[Result] >= 0 && r.skip[Rank] >= 0 && r.skip[Handicap] >= 0;
    assert r.skip[FewMoves] >= 0 && r.skip[Rules] >= 0 && r.skip[Error] >= 0 && r.skip[Duplicate] >= 0;
    assert r.games <= r.files;
    if r.files > 0 {
      var g := r.games as real;
      var n := r.files as real;
      PercentBounds(g, n);
    }
  }

  lemma PercentBounds(g: real, n: real)
    requires 0.0 <= g <= n && n > 0.0
    ensures 0.0 <= 100.0 * g / n <= 100.0
  {
    assert g / n <= 1.0;
  }

  /** Counters only go up. */
  lemma {:induction false} SkippedNonNegative(t: Tally, fs: seq<SourceFile>, quota: int, boardSize: int)
    requires ImportCounters <= t.skip.Keys
    requires forall k :: k in t.skip ==> t.skip[k] >= 0
    ensures forall k :: k in Run(t, fs, quota, boardSize).skip ==> Run(t, fs, quota, boardSize).skip[k] >= 0
    decreases |fs|
  {
    if fs != [] {
      var s := Step(t, fs[0], boardSize);
      assert forall k :: k in s.skip ==> s.skip[k] >= 0;
      if !Stops(s, quota, Accepted(t, fs[0], boardSize)) {
        assert Run(t, fs, quota, boardSize) == Run(s, fs[1..], quota, boardSize);
        SkippedNonNegative(s, fs[1..], quota, boardSize);
      }
    }
  }
}
