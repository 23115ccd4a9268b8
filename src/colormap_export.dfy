// The colormaps export script: every listed matplotlib colour map that is
// not a reversed copy is written to "<name>.cmap" as a whitespace table of
// integers, one line per colour, which the colour-map reader parses back.
module ColourMapExport {
  import opened Numbers
  import opened Wrappers
  import opened Colours
  import ColourMaps
  import Text

  /** A listed colour map: its name and its colours, each a row of channels in [0, 1]. */
  datatype ListedMap = ListedMap(name: string, colours: seq<seq<real>>)

  /** A written file: its name and its text. */
  datatype OutFile = OutFile(name: string, text: string)

  // ---------------------------------------------------------------------
  // The table: ×256, truncated toward zero

  /** One channel as written: `int (channel * 256)`. */
  function ScaledValue(c: real): int
  {
    Trunc(c * 256.0)
  }

  /** A channel in [0, 1] gives an integer in [0, 256], and 256 only for exactly 1. */
  lemma ScaledValueRange(c: real)
    requires 0.0 <= c <= 1.0
    ensures 0 <= ScaledValue(c) <= 256
    ensures ScaledValue(c) == 256 <==> c == 1.0
  {
  }

  /** `(np.array (colors) * 256).astype (int)`. */
  function Scaled(colours: seq<seq<real>>): (t: seq<seq<int>>)
    ensures |t| == |colours|
    ensures forall n :: 0 <= n < |t| ==> |t[n]| == |colours[n]|
    ensures forall n, j :: 0 <= n < |t| && 0 <= j < |t[n]| ==> t[n][j] == ScaledValue(colours[n][j])
  {
    seq(|colours|, n requires 0 <= n < |colours| =>
      seq(|colours[n]|, j requires 0 <= j < |colours[n]| => ScaledValue(colours[n][j])))
  }

  // ---------------------------------------------------------------------
  // The text: `np.savetxt (..., fmt='%d')`

  /** One line: the values as `%d`, separated by single spaces, ended by a newline. */
  function RowText(row: seq<int>): string
  {
    if |row| == 0 then "\n"
    else if |row| == 1 then Text.IntToString(row[0]) + "\n"
    else Text.IntToString(row[0]) + " " + RowText(row[1..])
  }

  /** The whole file: one line per row. */
  function TableText(rows: seq<seq<int>>): string
  {
    if |rows| == 0 then "" else RowText(rows[0]) + TableText(rows[1..])
  }

  /** The printed values of a row. */
  function RowWords(row: seq<int>): (w: seq<string>)
    ensures |w| == |row|
  {
    if |row| == 0 then [] else [Text.IntToString(row[0])] + RowWords(row[1..])
  }

  /** The printed values of a row of three. */
  lemma RowWordsOfTriple(row: seq<int>)
    requires |row| == 3
    ensures RowWords(row) == [Text.IntToString(row[0]), Text.IntToString(row[1]), Text.IntToString(row[2])]
  {
    var a, b, c := Text.IntToString(row[0]), Text.IntToString(row[1]), Text.IntToString(row[2]);
    var r1, r2 := row[1..], row[2..];
    assert r1[0] == row[1] && r1[1..] == r2 && r2[0] == row[2] && r2[1..] == [];
    assert RowWords(r2) == [c] + RowWords([]);
    assert RowWords(r1) == [b] + RowWords(r2);
    assert RowWords(row) == [a] + RowWords(r1);
  }

  /** The printed values of every row, in order. */
  function Words(rows: seq<seq<int>>): seq<string>
  {
    if |rows| == 0 then [] else RowWords(rows[0]) + Words(rows[1..])
  }

  /** A printed integer holds neither a space nor a newline. */
  lemma PrintedHasNoSeparators(i: int)
    ensures forall k :: 0 <= k < |Text.IntToString(i)| ==> Text.IntToString(i)[k] !in Text.LineAndSpace
  {
    var s := Text.IntToString(i);
    if i < 0 {
      assert forall k :: 1 <= k < |s| ==> s[k] == Text.NatToString(-i)[k - 1];
    }
  }

  /** A printed integer followed by a separator is one token ahead of the rest. */
  lemma WordThen(i: int, sep: char, rest: string)
    requires sep in Text.LineAndSpace
    ensures Text.Tokens(Text.IntToString(i) + [sep] + rest, Text.LineAndSpace) ==
      [Text.IntToString(i)] + Text.Tokens(rest, Text.LineAndSpace)
  {
    PrintedHasNoSeparators(i);
    Text.TokensOfJoin(Text.IntToString(i), sep, rest, Text.LineAndSpace);
    Text.TokensOfWord(Text.IntToString(i), Text.LineAndSpace);
  }

  /** The tokens of a line and what follows it are the line's values, then the rest's tokens. */
  lemma {:induction false} TokensOfRow(row: seq<int>, rest: string)
    ensures Text.Tokens(RowText(row) + rest, Text.LineAndSpace) == RowWords(row) + Text.Tokens(rest, Text.LineAndSpace)
    decreases |row|
  {
    if |row| == 0 {
      Text.TokensOfJoin("", '\n', rest, Text.LineAndSpace);
      assert "" + ['\n'] + rest == RowText(row) + rest;
    } else if |row| == 1 {
      LastValueThen(row, rest);
    } else {
      TokensOfRow(row[1..], rest);
      ValueThen(row, rest);
    }
  }

  /** A line of one value. */
  lemma LastValueThen(row: seq<int>, rest: string)
    requires |row| == 1
    ensures Text.Tokens(RowText(row) + rest, Text.LineAndSpace) == RowWords(row) + Text.Tokens(rest, Text.LineAndSpace)
  {
    WordThen(row[0], '\n', rest);
    assert RowText(row) + rest == Text.IntToString(row[0]) + ['\n'] + rest;
    assert RowWords(row) == [Text.IntToString(row[0])];
  }

  /** A line of several values: the first value, then the line of the others. */
  lemma ValueThen(row: seq<int>, rest: string)
    requires |row| > 1
    requires Text.Tokens(RowText(row[1..]) + rest, Text.LineAndSpace) == RowWords(row[1..]) + Text.Tokens(rest, Text.LineAndSpace)
    ensures Text.Tokens(RowText(row) + rest, Text.LineAndSpace) == RowWords(row) + Text.Tokens(rest, Text.LineAndSpace)
  {
    var s, x := Text.IntToString(row[0]), RowText(row[1..]) + rest;
    RowTextCons(row, rest);
    WordThen(row[0], ' ', x);
    Regroup(Text.Tokens(RowText(row) + rest, Text.LineAndSpace), Text.Tokens(x, Text.LineAndSpace), s,
      RowWords(row[1..]), Text.Tokens(rest, Text.LineAndSpace), RowWords(row));
  }

  /** Word lists regrouped: `[s] + (w + t)` is `([s] + w) + t`. */
  lemma Regroup(all: seq<string>, tail: seq<string>, s: string, w: seq<string>, t: seq<string>, sw: seq<string>)
    requires all == [s] + tail && tail == w + t && sw == [s] + w
    ensures all == sw + t
  {
  }

  /** A line of several values is the first value, a space, and the line of the others. */
  lemma RowTextCons(row: seq<int>, rest: string)
    requires |row| > 1
    ensures RowText(row) + rest == Text.IntToString(row[0]) + [' '] + (RowText(row[1..]) + rest)
    ensures RowWords(row) == [Text.IntToString(row[0])] + RowWords(row[1..])
  {
    var s, line := Text.IntToString(row[0]), RowText(row[1..]);
    assert RowText(row) == s + [' '] + line;
    Regroup3(s, [' '], line, rest);
  }

  /** Concatenation regrouped. */
  lemma Regroup3(a: string, b: string, c: string, d: string)
    ensures a + b + c + d == a + b + (c + d)
  {
  }

  /** Tokenising the file gives back every printed value, row by row. */
  lemma {:induction false} TokensOfTable(rows: seq<seq<int>>)
    ensures Text.Tokens(TableText(rows), Text.LineAndSpace) == Words(rows)
    decreases |rows|
  {
    if |rows| > 0 {
      TokensOfRow(rows[0], TableText(rows[1..]));
      TokensOfTable(rows[1..]);
    }
  }

  /** In a table of three-value rows, value `j` of row `n` is word `3n + j`. */
  lemma {:induction false} WordsOfTriples(rows: seq<seq<int>>)
    requires forall n :: 0 <= n < |rows| ==> |rows[n]| == 3
    ensures |Words(rows)| == 3 * |rows|
    ensures forall n, j :: 0 <= n < |rows| && 0 <= j < 3 ==> Words(rows)[3 * n + j] == Text.IntToString(rows[n][j])
    decreases |rows|
  {
    if |rows| > 0 {
      var tail := rows[1..];
      WordsOfTriples(tail);
      var all, first, rest := Words(rows), RowWords(rows[0]), Words(tail);
      assert all == first + rest;
      RowWordsOfTriple(rows[0]);
      forall n, j | 0 <= n < |rows| && 0 <= j < 3
        ensures all[3 * n + j] == Text.IntToString(rows[n][j])
      {
        if n > 0 {
          assert all[3 * n + j] == rest[3 * (n - 1) + j];
          assert rows[n] == tail[n - 1];
        }
      }
    }
  }

  /** What the reader makes of three-value rows: one opaque colour per row, each value reduced to a byte. */
  function RowColours(rows: seq<seq<int>>): (cs: seq<Colour>)
    requires forall n :: 0 <= n < |rows| ==> |rows[n]| == 3
    ensures |cs| == |rows|
    ensures forall n :: 0 <= n < |rows| ==> cs[n] == FromRGB(rows[n][0], rows[n][1], rows[n][2])
  {
    seq(|rows|, n requires 0 <= n < |rows| => FromRGB(rows[n][0], rows[n][1], rows[n][2]))
  }

  /** The reader parses a written table of three-value rows back to one colour per row. */
  lemma TableReadsBack(rows: seq<seq<int>>)
    requires forall n :: 0 <= n < |rows| ==> |rows[n]| == 3
    ensures ColourMaps.ParseRGBTable(TableText(rows)) == Ok(RowColours(rows))
  {
    TokensOfTable(rows);
    WordsOfTriples(rows);
    ParseOfWords(TableText(rows), rows);
  }

  /** A text whose tokens are the printed values of three-value rows parses to those rows' colours. */
  lemma ParseOfWords(text: string, rows: seq<seq<int>>)
    requires forall n :: 0 <= n < |rows| ==> |rows[n]| == 3
    requires |ColourMaps.TableTokens(text)| == 3 * |rows|
    requires forall n, j :: 0 <= n < |rows| && 0 <= j < 3 ==> ColourMaps.TableTokens(text)[3 * n + j] == Text.IntToString(rows[n][j])
    ensures ColourMaps.ParseRGBTable(text) == Ok(RowColours(rows))
  {
    var t := ColourMaps.TableTokens(text);
    var r := ColourMaps.ParseRGBTable(text);
    assert r.Ok? && |r.value| == |rows|;
    forall n | 0 <= n < |rows|
      ensures r.value[n] == RowColours(rows)[n]
    {
      assert r.value[n] == ColourMaps.TableColour(t, n);
      ParsedRow(t, rows[n], n);
    }
    assert r.value == RowColours(rows);
  }

  /** The colour read from three printed values is the colour of those values. */
  lemma ParsedRow(t: seq<string>, row: seq<int>, n: nat)
    requires |row| == 3 && 3 * n + 2 < |t|
    requires t[3 * n] == Text.IntToString(row[0]) && t[3 * n + 1] == Text.IntToString(row[1]) && t[3 * n + 2] == Text.IntToString(row[2])
    ensures ColourMaps.TableColour(t, n) == FromRGB(row[0], row[1], row[2])
  {
    Text.IntValueOfIntToString(row[0]);
    Text.IntValueOfIntToString(row[1]);
    Text.IntValueOfIntToString(row[2]);
  }

  // ---------------------------------------------------------------------
  // The export loop

  /** The maps the script writes: those whose names do not end in "_r", in order. */
  function Kept(maps: seq<ListedMap>): (kept: seq<ListedMap>)
    ensures forall m :: m in kept <==> m in maps && !Text.EndsWith(m.name, "_r")
  {
    if |maps| == 0 then []
    else
      var rest := Kept(maps[..|maps| - 1]);
      assert maps == maps[..|maps| - 1] + [maps[|maps| - 1]];
      if Text.EndsWith(maps[|maps| - 1].name, "_r") then rest else rest + [maps[|maps| - 1]]
  }

  /** The file written for one map. */
  function FileFor(m: ListedMap): OutFile
  {
    OutFile(m.name + ".cmap", TableText(Scaled(m.colours)))
  }

  /**
   * The export loop: reversed maps are skipped, and every other map gives
   * exactly one file, named after it, holding its scaled table.
   */
  method Export(maps: seq<ListedMap>) returns (files: seq<OutFile>)
    ensures |files| == |Kept(maps)|
    ensures forall k :: 0 <= k < |files| ==> files[k] == FileFor(Kept(maps)[k])
  {
    files := [];
    for i := 0 to |maps|
      invariant |files| == |Kept(maps[..i])|
      invariant forall k :: 0 <= k < |files| ==> files[k] == FileFor(Kept(maps[..i])[k])
    {
      assert maps[..i + 1][..i] == maps[..i];
      if Text.EndsWith(maps[i].name, "_r") {
        continue;
      }
      files := files + [FileFor(maps[i])];
    }
    assert maps[..|maps|] == maps;
  }

  /** Every written file is named after a kept map and ends in ".cmap", so the reader recognises it. */
  lemma ExportedNames(maps: seq<ListedMap>, k: nat)
    requires k < |Kept(maps)|
    ensures Text.EndsWith(FileFor(Kept(maps)[k]).name, ".cmap")
    ensures ColourMaps.LooksLikeRGBTable(FileFor(Kept(maps)[k]).name)
    ensures !Text.EndsWith(Kept(maps)[k].name, "_r") && Kept(maps)[k] in maps
  {
    var m := Kept(maps)[k];
    assert m in Kept(maps);
    var name := m.name + ".cmap";
    assert name[|name| - 5..] == ".cmap";
  }

  // ---------------------------------------------------------------------
  // The value 256

  /** A colour map of three channels per colour, all in [0, 1]. */
  predicate RGBColours(colours: seq<seq<real>>)
  {
    forall n :: 0 <= n < |colours| ==> |colours[n]| == 3 && forall j :: 0 <= j < 3 ==> 0.0 <= colours[n][j] <= 1.0
  }

  /**
   * As written, every channel below 1 reads back as written, but a full
   * channel is written as 256, which the reader reduces to 0.
   */
  lemma ScaledTableReadsBack(colours: seq<seq<real>>)
    requires RGBColours(colours)
    ensures ColourMaps.ParseRGBTable(TableText(Scaled(colours))).Ok?
    ensures |ColourMaps.ParseRGBTable(TableText(Scaled(colours))).value| == |colours|
    ensures forall n :: 0 <= n < |colours| ==>
      var c := ColourMaps.ParseRGBTable(TableText(Scaled(colours))).value[n];
      c == Colour(WrittenByte(colours[n][0]), WrittenByte(colours[n][1]), WrittenByte(colours[n][2]), 255)
  {
    var rows := Scaled(colours);
    TableReadsBack(rows);
    forall n, j | 0 <= n < |rows| && 0 <= j < 3
      ensures ToByte(rows[n][j]) == WrittenByte(colours[n][j])
    {
      ScaledValueRange(colours[n][j]);
    }
  }

  /** The byte a channel reads back as: its scaled value, or 0 for a full channel. */
  function WrittenByte(c: real): int
  {
    if c == 1.0 then 0 else ScaledValue(c)
  }

  /** As written, pure white is written and read back as black. */
  lemma WhiteReadsBackAsBlack()
    ensures ColourMaps.ParseRGBTable(TableText(Scaled([[1.0, 1.0, 1.0]]))) == Ok([Colour(0, 0, 0, 255)])
  {
    var white := [[1.0, 1.0, 1.0]];
    ScaledTableReadsBack(white);
    var r := ColourMaps.ParseRGBTable(TableText(Scaled(white)));
    assert r.value[0] == Colour(0, 0, 0, 255);
    assert r.value == [Colour(0, 0, 0, 255)];
  }

  /** The intended value: ×256 truncated, but never above 255. */
  function ClampedValue(c: real): int
  {
    Min(Trunc(c * 256.0), 255)
  }

  /** `Scaled` with each value clamped to 255. */
  function Clamped(colours: seq<seq<real>>): (t: seq<seq<int>>)
    ensures |t| == |colours|
    ensures forall n :: 0 <= n < |t| ==> |t[n]| == |colours[n]|
    ensures forall n, j :: 0 <= n < |t| && 0 <= j < |t[n]| ==> t[n][j] == ClampedValue(colours[n][j])
  {
    seq(|colours|, n requires 0 <= n < |colours| =>
      seq(|colours[n]|, j requires 0 <= j < |colours[n]| => ClampedValue(colours[n][j])))
  }

  /**
   * With the clamp, every colour reads back with exactly the values written,
   * and a channel of 1 reads back as 255; below 1 nothing changes.
   */
  lemma ClampedTableReadsBack(colours: seq<seq<real>>)
    requires RGBColours(colours)
    ensures ColourMaps.ParseRGBTable(TableText(Clamped(colours))).Ok?
    ensures |ColourMaps.ParseRGBTable(TableText(Clamped(colours))).value| == |colours|
    ensures forall n :: 0 <= n < |colours| ==>
      var c := ColourMaps.ParseRGBTable(TableText(Clamped(colours))).value[n];
      c.r == ClampedValue(colours[n][0]) && c.g == ClampedValue(colours[n][1]) &&
      c.b == ClampedValue(colours[n][2]) && c.a == 255
    ensures forall c: real :: 0.0 <= c < 1.0 ==> ClampedValue(c) == ScaledValue(c)
    ensures ClampedValue(1.0) == 255
  {
    var rows := Clamped(colours);
    TableReadsBack(rows);
    forall n, j | 0 <= n < |rows| && 0 <= j < 3
      ensures 0 <= rows[n][j] < 256
    {
      ScaledValueRange(colours[n][j]);
    }
  }
}
