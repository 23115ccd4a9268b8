// The whitespace-table reader behind the table view: an optional '#' header
// line naming the columns, then rows of numbers, one row per line.
module AsciiLoaders {
  import opened Wrappers
  import Text

  // ---------------------------------------------------------------------
  // Lines of a stream

  const NewLine: set<char> := {'\n'}

  /** The separators `operator>>` skips between words. */
  const Whitespace: set<char> := {' ', '\t', '\n', '\r', '\U{B}', '\U{C}'}

  /**
   * The lines `std::getline` hands to a `while (stream)` loop: the pieces
   * between newlines, then one more empty line. After a final newline the
   * next `getline` extracts nothing and fails, but its empty line is still
   * processed; after a last line with no newline, that `getline` sets only
   * the end-of-file flag, the stream still tests true, and one more pass
   * reads nothing into an empty line. Empty text gives that one empty line.
   */
  function Lines(s: string): (ls: seq<string>)
    ensures |ls| >= 1 && ls[|ls| - 1] == ""
    ensures s != "" ==> |ls| >= 2
    ensures forall k, i :: 0 <= k < |ls| && 0 <= i < |ls[k]| ==> ls[k][i] != '\n'
    decreases |s|
  {
    var n := Text.RunLength(s, NewLine);
    if n == |s| then (if |s| == 0 then [s] else [s, ""]) else [s[..n]] + Lines(s[n + 1..])
  }

  function JoinLines(ls: seq<string>): string
    requires |ls| >= 1
  {
    if |ls| == 1 then ls[0] else ls[0] + "\n" + JoinLines(ls[1..])
  }

  /** The text a reader sees when it supplies the final newline a file may lack. */
  function Terminated(s: string): (t: string)
    ensures t == s || t == s + "\n"
    ensures t == "" || t[|t| - 1] == '\n'
  {
    if s == "" || s[|s| - 1] == '\n' then s else s + "\n"
  }

  /**
   * Splitting into lines loses nothing: joining the lines with newlines gives
   * the text back, with a final newline added when it had none.
   */
  lemma {:induction false} LinesRoundTrip(s: string)
    ensures JoinLines(Lines(s)) == Terminated(s)
    decreases |s|
  {
    var n := Text.RunLength(s, NewLine);
    if n < |s| {
      var rest := s[n + 1..];
      LinesRoundTrip(rest);
      var ls := Lines(rest);
      assert Lines(s) == [s[..n]] + ls;
      JoinLinesCons(s[..n], ls);
      TerminatedAfterNewline(s, n);
    } else if |s| > 0 {
      assert s[..n] == s;
      assert s[|s| - 1] != '\n';
      assert Lines(s) == [s, ""];
    }
  }

  lemma JoinLinesCons(line: string, ls: seq<string>)
    requires |ls| >= 1
    ensures JoinLines([line] + ls) == line + "\n" + JoinLines(ls)
  {
    assert ([line] + ls)[1..] == ls;
  }

  lemma TerminatedAfterNewline(s: string, n: nat)
    requires n < |s| && s[n] == '\n'
    ensures Terminated(s) == s[..n] + "\n" + Terminated(s[n + 1..])
  {
    var rest := s[n + 1..];
    assert s == s[..n] + "\n" + rest;
    if rest != "" {
      assert rest[|rest| - 1] == s[|s| - 1];
    }
  }

  /** Appending a newline does not move the first newline, if there is one. */
  lemma RunLengthAfterNewline(s: string)
    ensures Text.RunLength(s + "\n", NewLine) == Text.RunLength(s, NewLine)
  {
    var t := s + "\n";
    var n := Text.RunLength(s, NewLine);
    assert forall i :: 0 <= i < |s| ==> t[i] == s[i];
    assert t[n] in NewLine;
    assert forall i :: 0 <= i < n ==> t[i] !in NewLine;
  }

  /** A file whose last line has no newline is read as if it had one: the same lines. */
  lemma {:induction false} UnterminatedReadsAsTerminated(s: string)
    requires s != "" && s[|s| - 1] != '\n'
    ensures Lines(s) == Lines(s + "\n")
    decreases |s|
  {
    var t := s + "\n";
    var n := Text.RunLength(s, NewLine);
    RunLengthAfterNewline(s);
    if n < |s| {
      assert t[n + 1..] == s[n + 1..] + "\n";
      assert t[..n] == s[..n];
      UnterminatedReadsAsTerminated(s[n + 1..]);
    } else {
      assert t[..n] == s;
      assert t[n + 1..] == "";
    }
  }

  // ---------------------------------------------------------------------
  // The table and one line's effect on it

  datatype Table = Table(numColumns: nat, numRows: nat, data: seq<real>, names: seq<string>, status: string)

  const Empty := Table(0, 0, [], [], "")

  /** `line[0] == '#'`; the first character of an empty `std::string` is '\0'. */
  predicate IsComment(line: string)
  {
    |line| > 0 && line[0] == '#'
  }

  /** The header's words without the leading '#' word. */
  function HeaderNames(line: string): (names: seq<string>)
    requires IsComment(line)
    ensures |names| + 1 == |Text.Tokens(line, Whitespace)|
    ensures names == Text.Tokens(line, Whitespace)[1..]
  {
    Text.Tokens(line, Whitespace)[1..]
  }

  function ColumnName(i: nat): string
  {
    "Col " + Text.IntToString(i)
  }

  /** The generated names "Col 0" ... "Col n-1". */
  function ColumnNames(n: nat): (names: seq<string>)
    ensures |names| == n && forall i :: 0 <= i < n ==> names[i] == ColumnName(i)
  {
    seq(n, i requires 0 <= i => ColumnName(i))
  }

  function MissingData(fileLine: nat): string
  {
    "Missing data on line " + Text.IntToString(fileLine)
  }

  /**
   * What one pass of the constructor's loop does to the table. `row` is the
   * line read as numbers with `std::istream_iterator<double>`.
   */
  function Step(t: Table, line: string, fileLine: nat, row: seq<real>): Table
  {
    if IsComment(line) then
      if |t.data| == 0 then
        var names := HeaderNames(line);
        t.(names := names, numColumns := |names|)
      else t
    else
      var cols := if |t.names| == 0 && |t.data| == 0 then |row| else t.numColumns;
      var names := if |t.names| == 0 then ColumnNames(cols) else t.names;
      var u := t.(numColumns := cols, names := names);
      if |row| == cols then u.(data := t.data + row, numRows := t.numRows + 1)
      else if |row| != 0 then u.(status := MissingData(fileLine))
      else u
  }

  /** The table after the first |lines| lines; line k (from 0) is line k + 1 of the file. */
  function Load(lines: seq<string>, parseRow: string -> seq<real>): Table
    decreases |lines|
  {
    if |lines| == 0 then Empty
    else
      var n := |lines| - 1;
      Step(Load(lines[..n], parseRow), lines[n], n + 1, parseRow(lines[n]))
  }

  /** Every row holds `numColumns` numbers. */
  predicate Rectangular(t: Table)
  {
    |t.data| == t.numRows * t.numColumns
  }

  // ---------------------------------------------------------------------
  // What one line does

  /** A '#' line read before any data replaces the names with the header's words. */
  lemma HeaderLine(t: Table, line: string, fileLine: nat, row: seq<real>)
    requires IsComment(line) && |t.data| == 0
    ensures var u := Step(t, line, fileLine, row);
      u.numColumns == |u.names| && u.names == Text.Tokens(line, Whitespace)[1..]
      && u.data == t.data && u.numRows == t.numRows && u.status == t.status
  {
  }

  /** Once data has been read, '#' lines are ignored. */
  lemma LateCommentIgnored(t: Table, line: string, fileLine: nat, row: seq<real>)
    requires IsComment(line) && |t.data| > 0
    ensures Step(t, line, fileLine, row) == t
  {
  }

  /** Without a header, the first line read as data fixes the column count and the names become "Col i". */
  lemma FirstRowNamesColumns(t: Table, line: string, fileLine: nat, row: seq<real>)
    requires !IsComment(line) && t.names == [] && t.data == []
    ensures var u := Step(t, line, fileLine, row);
      u.numColumns == |row| && |u.names| == |row|
      && forall i :: 0 <= i < |row| ==> u.names[i] == "Col " + Text.IntToString(i)
  {
  }

  /** A data line is kept, whole and at the end, exactly when it holds `numColumns` numbers. */
  lemma RowKeptIffComplete(t: Table, line: string, fileLine: nat, row: seq<real>)
    requires !IsComment(line)
    ensures var u := Step(t, line, fileLine, row);
      (|row| == u.numColumns ==> u.data == t.data + row && u.numRows == t.numRows + 1)
      && (|row| != u.numColumns ==> u.data == t.data && u.numRows == t.numRows)
  {
  }

  /** A non-empty line with the wrong count sets the status to its 1-based line number; other lines keep the status. */
  lemma IncompleteRowSetsStatus(t: Table, line: string, fileLine: nat, row: seq<real>)
    requires !IsComment(line)
    ensures var u := Step(t, line, fileLine, row);
      (|row| != 0 && |row| != u.numColumns ==>
        u.status == MissingData(fileLine) && Text.IntValue(u.status[|"Missing data on line "|..]) == fileLine)
      && (|row| == 0 || |row| == u.numColumns ==> u.status == t.status)
  {
    var u := Step(t, line, fileLine, row);
    if |row| != 0 && |row| != u.numColumns {
      assert u.status[|"Missing data on line "|..] == Text.IntToString(fileLine);
      Text.IntValueOfIntToString(fileLine);
    }
  }

  /**
   * A status message always names a line that was read as an incomplete row:
   * some non-comment line k + 1 with a non-empty row of the wrong width.
   */
  lemma {:induction false} StatusNamesBadLine(lines: seq<string>, parseRow: string -> seq<real>)
    ensures var t := Load(lines, parseRow);
      t.status == "" ||
      exists k :: 0 <= k < |lines| && t.status == MissingData(k + 1) && !IsComment(lines[k]) && |parseRow(lines[k])| != 0
    decreases |lines|
  {
    if |lines| > 0 {
      var n := |lines| - 1;
      var prefix := lines[..n];
      StatusNamesBadLine(prefix, parseRow);
      var t := Load(prefix, parseRow);
      var u := Load(lines, parseRow);
      if u.status != t.status {
        assert !IsComment(lines[n]) && |parseRow(lines[n])| != 0;
        assert u.status == MissingData(n + 1);
      } else if t.status != "" {
        var k :| 0 <= k < |prefix| && t.status == MissingData(k + 1)
          && !IsComment(prefix[k]) && |parseRow(prefix[k])| != 0;
        assert prefix[k] == lines[k];
      }
    }
  }

  // ---------------------------------------------------------------------
  // An empty line before the data breaks the table's shape

  /**
   * While no column count is known (`numColumns` is 0) an empty line has the
   * "right" number of values, so it is counted as a row. A file starting with
   * an empty line therefore ends with one row more than its data holds.
   */
  lemma LeadingEmptyLineCountsAsRow()
    ensures var parseRow := (l: string) => if l == "1 2" then [1.0, 2.0] else [];
      var t := Load(["", "1 2", ""], parseRow);
      t.numRows == 2 && t.numColumns == 2 && |t.data| == 2 && !Rectangular(t)
  {
    var parseRow := (l: string) => if l == "1 2" then [1.0, 2.0] else [];
    var lines := ["", "1 2", ""];
    assert parseRow("") == [] && parseRow("1 2") == [1.0, 2.0];
    var l1, l2 := [""], ["", "1 2"];
    assert l1[..0] == [] && l2[..1] == l1 && lines[..2] == l2;
    var t1 := Load(l1, parseRow);
    assert ColumnNames(0) == [];
    assert t1 == Table(0, 1, [], [], "");
    var t2 := Load(l2, parseRow);
    assert t2.numRows == 2 && t2.numColumns == 2 && |t2.data| == 2;
  }

  /**
   * A file "abc" with no final newline is read as "abc" and then an empty
   * line; neither holds a number, and with no columns yet both count as rows.
   */
  lemma UnterminatedTextGetsEmptyPass()
    ensures Lines("abc") == ["abc", ""]
    ensures Load(Lines("abc"), (l: string) => []).numRows == 2
  {
    var s := "abc";
    assert Text.RunLength(s, NewLine) == 3 by {
      assert s[0] !in NewLine && s[1] !in NewLine && s[2] !in NewLine;
    }
    var parseRow := (l: string) => [];
    var lines := ["abc", ""];
    assert lines[..1] == ["abc"] && lines[..1][..0] == [];
    assert ColumnNames(0) == [];
    assert Load(lines[..1], parseRow) == Table(0, 1, [], [], "");
  }

  /** The evidently intended reading: a line with no values is never a row. */
  function StepFixed(t: Table, line: string, fileLine: nat, row: seq<real>): Table
  {
    if !IsComment(line) && |row| == 0 then t else Step(t, line, fileLine, row)
  }

  function LoadFixed(lines: seq<string>, parseRow: string -> seq<real>): Table
    decreases |lines|
  {
    if |lines| == 0 then Empty
    else
      var n := |lines| - 1;
      StepFixed(LoadFixed(lines[..n], parseRow), lines[n], n + 1, parseRow(lines[n]))
  }

  /** Rows are counted only when they carry values. */
  predicate Counted(t: Table)
  {
    Rectangular(t) && (t.numRows == 0 || t.numColumns > 0)
  }

  lemma StepFixedKeepsShape(t: Table, line: string, fileLine: nat, row: seq<real>)
    requires Counted(t)
    ensures Counted(StepFixed(t, line, fileLine, row))
  {
    if !IsComment(line) && |row| > 0 && |t.data| == 0 {
      assert t.numRows == 0;
    }
  }

  /** With the fix, every table read holds exactly `numRows * numColumns` values. */
  lemma {:induction false} LoadFixedIsRectangular(lines: seq<string>, parseRow: string -> seq<real>)
    ensures Rectangular(LoadFixed(lines, parseRow))
    ensures Counted(LoadFixed(lines, parseRow))
    decreases |lines|
  {
    if |lines| > 0 {
      var n := |lines| - 1;
      LoadFixedIsRectangular(lines[..n], parseRow);
      StepFixedKeepsShape(LoadFixed(lines[..n], parseRow), lines[n], n + 1, parseRow(lines[n]));
    }
  }

  // ---------------------------------------------------------------------
  // The loader object

  class AsciiLoader {
    var numColumns: nat
    var numRows: nat
    var data: seq<real>
    var names: seq<string>
    var status: string

    function State(): Table
      reads this
    {
      Table(numColumns, numRows, data, names, status)
    }

    /** Reads every line of `text`; `parseRow` reads one line as numbers. */
    constructor (text: string, parseRow: string -> seq<real>)
      ensures State() == Load(Lines(text), parseRow)
    {
      numColumns, numRows, data, names, status := 0, 0, [], [], "";
      new;
      var lines := Lines(text);
      var k := 0;
      while k < |lines|
        invariant 0 <= k <= |lines|
        invariant State() == Load(lines[..k], parseRow)
      {
        ReadLine(lines[k], k + 1, parseRow(lines[k]));
        assert lines[..k + 1][..k] == lines[..k];
        k := k + 1;
      }
      assert lines[..k] == lines;
    }

    method ReadLine(line: string, fileLine: nat, row: seq<real>)
      modifies this
      ensures State() == Step(old(State()), line, fileLine, row)
    {
      if IsComment(line) && |data| == 0 {
        names := HeaderNames(line);
        numColumns := |names|;
      } else if !IsComment(line) {
        if |names| == 0 && |data| == 0 {
          numColumns := |row|;
        }
        if |names| == 0 {
          ghost var before := State();
          var i := 0;
          while i < numColumns
            invariant 0 <= i <= numColumns
            invariant names == ColumnNames(i)
            invariant State() == before.(names := names)
          {
            names := names + [ColumnName(i)];
            i := i + 1;
          }
        }
        if |row| == numColumns {
          data := data + row;
          numRows := numRows + 1;
        } else if |row| != 0 {
          status := MissingData(fileLine);
        }
      }
    }

    /** Column j: the j-th value of every row, top to bottom. */
    method GetColumnData(j: int) returns (column: seq<real>)
      requires Rectangular(State()) && 0 <= j < numColumns
      ensures |column| == numRows
      ensures forall i :: 0 <= i < numRows ==> column[i] == Cell(State(), i, j)
    {
      column := [];
      var i := 0;
      while i < numRows
        invariant 0 <= i <= numRows
        invariant |column| == i
        invariant forall r :: 0 <= r < i ==> column[r] == Cell(State(), r, j)
      {
        column := column + [Cell(State(), i, j)];
        i := i + 1;
      }
    }

    /** Row i: its `numColumns` values, left to right, as they appeared on the line. */
    method GetRowData(i: int) returns (row: seq<real>)
      requires Rectangular(State()) && 0 <= i < numRows
      ensures |row| == numColumns
      ensures forall j :: 0 <= j < numColumns ==> row[j] == Cell(State(), i, j)
    {
      row := [];
      var j := 0;
      while j < numColumns
        invariant 0 <= j <= numColumns
        invariant |row| == j
        invariant forall c :: 0 <= c < j ==> row[c] == Cell(State(), i, c)
      {
        row := row + [Cell(State(), i, j)];
        j := j + 1;
      }
    }

    /** `names.at (index)`: out-of-range indices raise `std::out_of_range`. */
    function GetColumnName(index: int): (r: Result<string>)
      reads this
      ensures r.Ok? <==> 0 <= index < |names|
      ensures r.Ok? ==> r.value == names[index]
    {
      if 0 <= index < |names| then Ok(names[index]) else Err("out_of_range")
    }
  }

  /** `data[i * numColumns + j]`, the value in row i and column j. */
  function Cell(t: Table, i: nat, j: nat): real
    requires Rectangular(t) && i < t.numRows && j < t.numColumns
  {
    RowIndexInRange(i, j, t.numRows, t.numColumns);
    t.data[i * t.numColumns + j]
  }

  lemma RowIndexInRange(i: nat, j: nat, rows: nat, cols: nat)
    requires i < rows && j < cols
    ensures i * cols + j < rows * cols
  {
    var d := rows - (i + 1);
    assert rows * cols == (i + 1) * cols + d * cols;
    assert (i + 1) * cols == i * cols + cols;
    assert d * cols >= 0;
  }
}
