/** goat/ascii.py: the text layout of a board, rows from the top down and a
    column header of two-digit indices. */
module Ascii {
  import opened Wrappers
  import opened Grid
  import opened Text

  /** The column header: the indices 00 .. size-1 joined by single spaces. */
  function ColumnHeader(size: int): string
  {
    if size <= 0 then "" else Join(" ", seq(size, i requires 0 <= i => ZeroPad2(i)))
  }

  /** The row label: "%2d " when size > 9, otherwise "%d ". */
  function RowStart(size: int, row: nat): string
  {
    if size > 9 then SpacePad2(row) + " " else Decimal(row) + " "
  }

  /** The formatted points of one row, left to right. */
  function RowCells(f: (int, int) -> string, size: int, row: int): seq<string>
  {
    if size <= 0 then [] else seq(size, col => f(row, col))
  }

  function RowLine(f: (int, int) -> string, size: int, row: nat): string
  {
    RowStart(size, row) + Join(" ", RowCells(f, size, row))
  }

  function HeaderLine(size: int): string
  {
    (if size > 9 then " " else "") + "  " + ColumnHeader(size)
  }

  /** What render_grid returns: the rows size-1 down to 0, then the header. */
  function GridLines(f: (int, int) -> string, size: int): (lines: seq<string>)
    ensures |lines| == (if size <= 0 then 0 else size) + 1
    ensures lines[|lines| - 1] == HeaderLine(size)
    ensures forall k :: 0 <= k < |lines| - 1 ==> lines[k] == RowLine(f, size, size - 1 - k)
  {
    (if size <= 0 then [] else seq(size, k requires 0 <= k < size => RowLine(f, size, size - 1 - k))) + [HeaderLine(size)]
  }

  /** render_grid (ascii.py:1-22). */
  method RenderGrid(f: (int, int) -> string, size: int) returns (result: seq<string>)
    ensures result == GridLines(f, size)
  {
    var header := ColumnHeader(size);
    result := [];
    var k := 0;
    while k < size
      invariant 0 <= k <= (if size > 0 then size else 0)
      invariant |result| == k
      invariant forall j :: 0 <= j < k ==> result[j] == RowLine(f, size, size - 1 - j)
    {
      var row := size - 1 - k;
      result := result + [RowStart(size, row) + Join(" ", RowCells(f, size, row))];
      k := k + 1;
    }
    result := result + [(if size > 9 then " " else "") + "  " + header];
    assert |result| == |GridLines(f, size)|;
  }

  /** The header line is as wide as every row. */
  lemma HeaderWidth(size: int)
    requires 1 <= size <= 100
    ensures |HeaderLine(size)| == if size > 9 then 3 * size + 2 else 3 * size + 1
  {
    var idx := seq(size, i requires 0 <= i => ZeroPad2(i));
    forall i | 0 <= i < size ensures |idx[i]| == 2 {
      DecimalWidth(i);
    }
    JoinLength(" ", idx, 2);
  }

  /** A row of two-character points: its label and size cells apart by spaces. */
  lemma RowWidth(f: (int, int) -> string, size: int, row: nat)
    requires 1 <= size <= 100 && row < size
    requires forall r, c :: |f(r, c)| == 2
    ensures |RowLine(f, size, row)| == if size > 9 then 3 * size + 2 else 3 * size + 1
  {
    JoinLength(" ", RowCells(f, size, row), 2);
    DecimalWidth(row);
  }

  /** For 1 <= size <= 100 and two-character points every line has the same
      width: 3*size+2 when size > 9, otherwise 3*size+1. */
  lemma GridWidths(f: (int, int) -> string, size: int)
    requires 1 <= size <= 100
    requires forall r, c :: |f(r, c)| == 2
    ensures forall k :: 0 <= k < |GridLines(f, size)| ==>
      |GridLines(f, size)[k]| == if size > 9 then 3 * size + 2 else 3 * size + 1
  {
    var lines := GridLines(f, size);
    forall k | 0 <= k < |lines|
      ensures |lines[k]| == if size > 9 then 3 * size + 2 else 3 * size + 1
    {
      if k == |lines| - 1 {
        HeaderWidth(size);
      } else {
        RowWidth(f, size, size - 1 - k);
      }
    }
  }

  /** _point_strings: every cell value has a string, so the " ?" fallback is never used. */
  function PointString(c: Cell): (s: string)
    ensures |s| == 2 && '\n' !in s
  {
    match c
    case None => "  "
    case Some(Black) => " #"
    case Some(White) => " o"
  }

  /** format_pt of render_board. */
  function FormatPt(b: Snapshot): (int, int) -> string
  {
    (row, col) => PointString(At(b, Point(row, col)))
  }

  /** render_board (ascii.py:30-38): its lines joined by "\n". */
  function RenderBoard(b: Snapshot): string
  {
    Join("\n", GridLines(FormatPt(b), |b|))
  }

  lemma {:induction false} JoinNoChar(sep: string, parts: seq<string>, ch: char)
    requires ch !in sep
    requires forall k :: 0 <= k < |parts| ==> ch !in parts[k]
    ensures ch !in Join(sep, parts)
    decreases |parts|
  {
    if |parts| > 1 {
      JoinNoChar(sep, parts[1..], ch);
    }
  }

  lemma DecimalNoNewline(n: nat)
    ensures '\n' !in Decimal(n) && '\n' !in SpacePad2(n) && '\n' !in ZeroPad2(n)
  {
    var d := Decimal(n);
    assert forall k :: 0 <= k < |d| ==> IsDigit(d[k]);
  }

  /** No line of render_grid holds a newline. */
  lemma LinesNoNewline(b: Snapshot)
    ensures forall k :: 0 <= k < |GridLines(FormatPt(b), |b|)| ==> '\n' !in GridLines(FormatPt(b), |b|)[k]
  {
    var f := FormatPt(b);
    var size := |b|;
    var lines := GridLines(f, size);
    forall k | 0 <= k < |lines| ensures '\n' !in lines[k] {
      if k == |lines| - 1 {
        if size > 0 {
          var idx := seq(size, i requires 0 <= i => ZeroPad2(i));
          forall i | 0 <= i < size ensures '\n' !in idx[i] {
            DecimalNoNewline(i);
          }
          JoinNoChar(" ", idx, '\n');
        }
      } else {
        var row := size - 1 - k;
        JoinNoChar(" ", RowCells(f, size, row), '\n');
        DecimalNoNewline(row);
      }
    }
  }

  /** The header line ends in a digit or a space, never in a newline. */
  lemma HeaderLast(size: int)
    ensures |HeaderLine(size)| >= 2 && HeaderLine(size)[|HeaderLine(size)| - 1] != '\n'
  {
    var h := HeaderLine(size);
    if size > 0 {
      var idx := seq(size, i requires 0 <= i => ZeroPad2(i));
      var ld := Decimal(size - 1);
      assert forall k :: 0 <= k < |ld| ==> IsDigit(ld[k]);
      JoinLast(" ", idx);
      assert h[|h| - 1] == ColumnHeader(size)[|ColumnHeader(size)| - 1];
    }
  }

  /** render_board's text splits back into render_grid's lines (size + 1 of
      them) and has no final newline. */
  lemma RenderBoardLines(b: Snapshot)
    ensures Split(RenderBoard(b), '\n') == GridLines(FormatPt(b), |b|)
    ensures |Split(RenderBoard(b), '\n')| == |b| + 1
    ensures |RenderBoard(b)| > 0 && RenderBoard(b)[|RenderBoard(b)| - 1] != '\n'
  {
    var lines := GridLines(FormatPt(b), |b|);
    LinesNoNewline(b);
    SplitJoin(lines, '\n');
    HeaderLast(|b|);
    JoinLast("\n", lines);
  }
}
