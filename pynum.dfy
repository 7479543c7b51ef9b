/** What Python 2's int() and float() accept when given a byte string: the
    two conversions goat/library.py relies on to read ranks and results.
    Both read the text s[..n] in place, by index, so that a rank's level
    rank[:-1] is the text before its last character. */
module PyNumbers {
  import opened Text

  /** C isspace: space, tab, newline, vertical tab, form feed, carriage return. */
  predicate IsSpace(ch: char)
  {
    ch == ' ' || 9 <= ch as int <= 13
  }

  /** The index of the first non-blank of s[i..n], or n. */
  function SkipBlanks(s: string, i: nat, n: nat): (j: nat)
    requires i <= n <= |s|
    ensures i <= j <= n
    ensures forall k :: i <= k < j ==> IsSpace(s[k])
    ensures j == n || !IsSpace(s[j])
    decreases n - i
  {
    if i < n && IsSpace(s[i]) then SkipBlanks(s, i + 1, n) else i
  }

  /** The index just past the last non-blank before j, or 0. */
  function TrimBlanks(s: string, j: nat): (i: nat)
    requires j <= |s|
    ensures i <= j
    ensures forall k :: i <= k < j ==> IsSpace(s[k])
    ensures i == 0 || !IsSpace(s[i - 1])
  {
    if j > 0 && IsSpace(s[j - 1]) then TrimBlanks(s, j - 1) else j
  }

  /** s[lo..hi] is a non-empty run of decimal digits. */
  predicate DigitsIn(s: string, lo: nat, hi: nat)
  {
    lo < hi <= |s| && forall k :: lo <= k < hi ==> IsDigit(s[k])
  }

  /** The number the digits s[lo..hi] spell. */
  function DigitsValue(s: string, lo: nat, hi: nat): nat
    requires DigitsIn(s, lo, hi)
    decreases hi - lo
  {
    var d := s[hi - 1] as int - '0' as int;
    if hi - lo == 1 then d else DigitsValue(s, lo, hi - 1) * 10 + d
  }

  predicate IsSign(ch: char)
  {
    ch == '+' || ch == '-'
  }

  /** Where int() looks for digits in s[..n]: after the leading blanks and an
      optional sign, itself optionally followed by blanks (PyOS_strtol skips
      both), up to the trailing blanks. */
  function IntDigits(s: string, n: nat): (r: (nat, nat))
    requires n <= |s|
    ensures r.1 <= n
  {
    var i := SkipBlanks(s, 0, n);
    var j := TrimBlanks(s, n);
    if j <= i then (i, i)
    else if IsSign(s[i]) then (SkipBlanks(s, i + 1, j), j)
    else (i, j)
  }

  /** int(s[:n]) returns rather than raising ValueError. */
  predicate IntTextTo(s: string, n: nat)
    requires n <= |s|
  {
    var r := IntDigits(s, n);
    DigitsIn(s, r.0, r.1)
  }

  /** The value int(s[:n]) returns. */
  function IntValueTo(s: string, n: nat): int
    requires n <= |s| && IntTextTo(s, n)
  {
    var r := IntDigits(s, n);
    var i := SkipBlanks(s, 0, n);
    var v: int := DigitsValue(s, r.0, r.1);
    if i < n && s[i] == '-' then -v else v
  }

  predicate IntText(s: string)
  {
    IntTextTo(s, |s|)
  }

  function IntValue(s: string): int
    requires IntText(s)
  {
    IntValueTo(s, |s|)
  }

  /** The index just past the run of digits of s[..n] that starts at i. */
  function DigitRun(s: string, i: nat, n: nat): (j: nat)
    requires i <= n <= |s|
    ensures i <= j <= n
    ensures forall k :: i <= k < j ==> IsDigit(s[k])
    ensures j == n || !IsDigit(s[j])
    decreases n - i
  {
    if i < n && IsDigit(s[i]) then DigitRun(s, i + 1, n) else i
  }

  /** s[b..n] is empty or an exponent: e or E, an optional sign, digits. */
  predicate ExponentTail(s: string, b: nat, n: nat)
    requires b <= n <= |s|
  {
    b == n ||
    ((s[b] == 'e' || s[b] == 'E') &&
      var c := if b + 1 < n && IsSign(s[b + 1]) then b + 2 else b + 1;
      c <= n && DigitRun(s, c, n) > c && DigitRun(s, c, n) == n)
  }

  /** s[a..n] is digits [. digits] or . digits, with at least one digit,
      then an optional exponent. */
  predicate DecimalText(s: string, a: nat, n: nat)
    requires a <= n <= |s|
  {
    var p := DigitRun(s, a, n);
    if p < n && s[p] == '.' then
      var q := DigitRun(s, p + 1, n);
      (p > a || q > p + 1) && ExponentTail(s, q, n)
    else p > a && ExponentTail(s, p, n)
  }

  /** s[a..n] spells w in any case. */
  predicate WordAt(s: string, a: nat, n: nat, w: string)
    requires a <= n <= |s|
  {
    n - a == |w| && forall k :: 0 <= k < |w| ==> LowerChar(s[a + k]) == w[k]
  }

  /** The words float() knows, in any case. */
  predicate FloatWord(s: string, a: nat, n: nat)
    requires a <= n <= |s|
  {
    WordAt(s, a, n, "inf") || WordAt(s, a, n, "infinity") || WordAt(s, a, n, "nan")
  }

  /** float(s) returns rather than raising ValueError: blanks around an
      optional sign directly followed by a decimal number, inf, infinity
      or nan. */
  predicate FloatText(s: string)
  {
    var i := SkipBlanks(s, 0, |s|);
    var j := TrimBlanks(s, |s|);
    i < j &&
    var a := if IsSign(s[i]) then i + 1 else i;
    FloatWord(s, a, j) || DecimalText(s, a, j)
  }

  /** The value of digits depends only on those digits. */
  lemma {:induction false} DigitsValueSame(s: string, t: string, lo: nat, hi: nat)
    requires DigitsIn(s, lo, hi) && hi <= |t|
    requires forall k :: lo <= k < hi ==> s[k] == t[k]
    ensures DigitsIn(t, lo, hi) && DigitsValue(t, lo, hi) == DigitsValue(s, lo, hi)
    decreases hi - lo
  {
    if hi - lo > 1 {
      DigitsValueSame(s, t, lo, hi - 1);
    }
  }

  /** "%d" % n spells n. */
  lemma {:induction false} DecimalValue(n: nat)
    ensures DigitsIn(Decimal(n), 0, |Decimal(n)|) && DigitsValue(Decimal(n), 0, |Decimal(n)|) == n
    decreases n
  {
    if n >= 10 {
      DecimalValue(n / 10);
      var d := Decimal(n);
      var e := Decimal(n / 10);
      assert d == e + [DigitChar(n % 10)];
      DigitsValueSame(e, d, 0, |e|);
    }
  }

  /** A run of digits of s[..n] reaches n when every character up to n is a digit. */
  lemma {:induction false} DigitRunAll(s: string, i: nat, n: nat)
    requires i <= n <= |s| && forall k :: i <= k < n ==> IsDigit(s[k])
    ensures DigitRun(s, i, n) == n
    decreases n - i
  {
    if i < n {
      DigitRunAll(s, i + 1, n);
    }
  }

  /** int() reads back what "%d" writes, and float() accepts it. */
  lemma IntRoundTrip(n: nat)
    ensures IntText(Decimal(n)) && IntValue(Decimal(n)) == n
    ensures FloatText(Decimal(n))
  {
    var d := Decimal(n);
    DecimalValue(n);
    assert !IsSpace(d[0]) && !IsSign(d[0]) && !IsSpace(d[|d| - 1]);
    assert SkipBlanks(d, 0, |d|) == 0;
    assert TrimBlanks(d, |d|) == |d|;
    assert IntDigits(d, |d|) == (0, |d|);
    DigitRunAll(d, 0, |d|);
    assert DecimalText(d, 0, |d|);
  }

  /** Levels the rank check reads: "9" from "9d", and a sign may stand apart. */
  lemma IntAccepts()
    ensures IntText("9") && IntValue("9") == 9
    ensures IntText("- 5") && IntValue("- 5") == -5
  {
    assert SkipBlanks("9", 0, 1) == 0 && TrimBlanks("9", 1) == 1;
    assert SkipBlanks("- 5", 0, 3) == 0 && TrimBlanks("- 5", 3) == 3;
    assert SkipBlanks("- 5", 1, 3) == 2;
  }

  /** The level of "d", "-d" or "1.5d" is no integer. */
  lemma IntRejects()
    ensures !IntText("") && !IntText("-") && !IntText("1.5")
  {
    assert SkipBlanks("-", 0, 1) == 0 && TrimBlanks("-", 1) == 1;
    assert SkipBlanks("-", 1, 1) == 1;
    assert SkipBlanks("1.5", 0, 3) == 0 && TrimBlanks("1.5", 3) == 3;
    assert !IsDigit("1.5"[1]);
  }

  /** The level is read in place: int("10d"[:2]) is 10, and blanks around
      it are skipped. */
  lemma IntPrefix()
    ensures IntTextTo("10d", 2) && IntValueTo("10d", 2) == 10
    ensures IntTextTo(" 7 d", 3) && IntValueTo(" 7 d", 3) == 7
  {
    assert SkipBlanks("10d", 0, 2) == 0 && TrimBlanks("10d", 2) == 2;
    assert SkipBlanks(" 7 d", 0, 3) == 1 && TrimBlanks(" 7 d", 3) == 2;
  }

  /** Numbers float() accepts. */
  lemma FloatAccepts()
    ensures FloatText("0.5") && FloatText("5.") && FloatText(".5")
  {
    assert SkipBlanks("0.5", 0, 3) == 0 && TrimBlanks("0.5", 3) == 3;
    assert DecimalText("0.5", 0, 3);
    assert SkipBlanks("5.", 0, 2) == 0 && TrimBlanks("5.", 2) == 2;
    assert DecimalText("5.", 0, 2);
    assert SkipBlanks(".5", 0, 2) == 0 && TrimBlanks(".5", 2) == 2;
    assert DecimalText(".5", 0, 2);
  }

  lemma FloatAcceptsExponent()
    ensures FloatText("1e3") && FloatText(" 2 ")
  {
    assert SkipBlanks("1e3", 0, 3) == 0 && TrimBlanks("1e3", 3) == 3;
    assert DecimalText("1e3", 0, 3);
    assert SkipBlanks(" 2 ", 0, 3) == 1 && TrimBlanks(" 2 ", 3) == 2;
    assert DecimalText(" 2 ", 1, 2);
  }

  lemma FloatAcceptsSigned()
    ensures FloatText("-2.5e-1")
  {
    assert SkipBlanks("-2.5e-1", 0, 7) == 0 && TrimBlanks("-2.5e-1", 7) == 7;
    assert DecimalText("-2.5e-1", 1, 7);
  }

  lemma FloatWords()
    ensures FloatText("inf") && FloatText("NaN")
  {
    assert SkipBlanks("inf", 0, 3) == 0 && TrimBlanks("inf", 3) == 3;
    assert WordAt("inf", 0, 3, "inf");
    assert SkipBlanks("NaN", 0, 3) == 0 && TrimBlanks("NaN", 3) == 3;
    assert WordAt("NaN", 0, 3, "nan");
  }

  lemma FloatWordSigned()
    ensures FloatText("-Infinity")
  {
    var s := "-Infinity";
    assert SkipBlanks(s, 0, 9) == 0 && TrimBlanks(s, 9) == 9;
    assert forall k :: 0 <= k < 8 ==> LowerChar(s[1 + k]) == "infinity"[k];
    assert WordAt(s, 1, 9, "infinity");
  }

  /** Texts float() refuses. */
  lemma FloatRejects()
    ensures !FloatText("") && !FloatText(".") && !FloatText("e5")
  {
    assert SkipBlanks(".", 0, 1) == 0 && TrimBlanks(".", 1) == 1;
    assert !DecimalText(".", 0, 1);
    assert SkipBlanks("e5", 0, 2) == 0 && TrimBlanks("e5", 2) == 2;
    assert !DecimalText("e5", 0, 2);
  }

  lemma FloatRejectsBareExponent()
    ensures !FloatText("1e")
  {
    assert SkipBlanks("1e", 0, 2) == 0 && TrimBlanks("1e", 2) == 2;
    assert !DecimalText("1e", 0, 2);
  }

  lemma FloatRejectsHex()
    ensures !FloatText("0x10")
  {
    assert SkipBlanks("0x10", 0, 4) == 0 && TrimBlanks("0x10", 4) == 4;
    assert !DecimalText("0x10", 0, 4);
    assert LowerChar("0x10"[0]) == '0';
  }

  lemma FloatRejectsSpacedSign()
    ensures !FloatText("- 5")
  {
    assert SkipBlanks("- 5", 0, 3) == 0 && TrimBlanks("- 5", 3) == 3;
    assert !DecimalText("- 5", 1, 3);
  }

  lemma FloatRejectsWords()
    ensures !FloatText("5 points") && !FloatText("in")
  {
    var s := "5 points";
    assert SkipBlanks(s, 0, 8) == 0 && TrimBlanks(s, 8) == 8;
    assert DigitRun(s, 0, 8) == 1 && s[1] == ' ';
    assert !DecimalText(s, 0, 8);
    assert LowerChar(s[0]) != "infinity"[0];
    assert SkipBlanks("in", 0, 2) == 0 && TrimBlanks("in", 2) == 2;
    assert !DecimalText("in", 0, 2);
  }
}
