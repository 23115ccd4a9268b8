// ColourMapHelpers and ColourMapCollection: reading colour maps from
// whitespace tables of integer RGB triples, packing colours into RGBA texture
// words, and the ordered, name-keyed registry of colour maps with a cursor.
module ColourMaps {
  import opened Numbers
  import opened Wrappers
  import opened Colours
  import Text

  // ---------------------------------------------------------------------
  // ColourMapHelpers

  /** `looksLikeRGBTable`: the file name ends in ".cmap", in any letter case. */
  predicate LooksLikeRGBTable(path: string)
  {
    Text.HasFileExtension(path, ".cmap")
  }

  lemma LooksLikeRGBTableExamples()
    ensures LooksLikeRGBTable("maps/viridis.cmap")
    ensures LooksLikeRGBTable("FIRE.CMAP")
    ensures !LooksLikeRGBTable("viridis.cmap.txt")
    ensures !LooksLikeRGBTable("cmap")
  {
    assert "maps/viridis.cmap"[12..] == ".cmap";
    assert "FIRE.CMAP"[4..] == ".CMAP";
    var tail := "viridis.cmap.txt"[11..];
    assert tail[0] == 'p' && ".cmap"[0] == '.';
    assert Text.ToLower(tail[0]) != Text.ToLower(".cmap"[0]);
  }

  const TableError := "ASCII colormap table must have 3 columns"

  /** The tokens of a colour table: the non-empty runs between spaces and newlines. */
  function TableTokens(text: string): seq<string>
  {
    Text.Tokens(text, Text.LineAndSpace)
  }

  /** Colour `n` of a token list: tokens 3n, 3n+1, 3n+2 read as integers and reduced to bytes. */
  function TableColour(t: seq<string>, n: nat): Colour
    requires 3 * n + 2 < |t|
  {
    FromRGB(Text.IntValue(t[3 * n]), Text.IntValue(t[3 * n + 1]), Text.IntValue(t[3 * n + 2]))
  }

  /** What `coloursFromRGBTable` returns for a table, or the error it throws. */
  function ParseRGBTable(text: string): (r: Result<seq<Colour>>)
    ensures r.Err? <==> |TableTokens(text)| % 3 != 0
    ensures r.Err? ==> r.error == TableError
    ensures r.Ok? ==> |r.value| * 3 == |TableTokens(text)|
    ensures r.Ok? ==> forall n :: 0 <= n < |r.value| ==> r.value[n] == TableColour(TableTokens(text), n)
  {
    var t := TableTokens(text);
    if |t| % 3 != 0 then Err(TableError)
    else Ok(seq(|t| / 3, n requires 0 <= n < |t| / 3 => TableColour(t, n)))
  }

  /**
   * `coloursFromRGBTable`: tokenise, reject a token count that is not a
   * multiple of 3, then fill the sized array triple by triple.
   */
  method ColoursFromRGBTable(text: string) returns (r: Result<seq<Colour>>)
    ensures r == ParseRGBTable(text)
  {
    var tokens := TableTokens(text);
    if |tokens| % 3 != 0 {
      return Err(TableError);
    }
    var count := |tokens| / 3;
    assert count * 3 == |tokens|;
    var res := seq(count, _ => TransparentBlack);
    var n := 0;
    while n < |res|
      invariant 0 <= n <= |res| == count
      invariant forall k :: 0 <= k < n ==> res[k] == TableColour(tokens, k)
    {
      // Tokens 3n, 3n+1 and 3n+2 read with getIntValue, then Colour::fromRGB.
      res := res[n := TableColour(tokens, n)];
      n := n + 1;
    }
    assert res == ParseRGBTable(text).value;
    return Ok(res);
  }

  /** A channel of a colour as a double in [0, 1], or None for a character that names no channel. */
  function Channel(c: Colour, channel: char): (v: Option<real>)
    ensures v.Some? <==> channel in {'r', 'g', 'b', 'a'}
    ensures v.Some? ==> 0.0 <= v.value <= 1.0
  {
    match channel
    case 'r' => Some(c.FloatRed())
    case 'g' => Some(c.FloatGreen())
    case 'b' => Some(c.FloatBlue())
    case 'a' => Some(c.FloatAlpha())
    case _ => None
  }

  /**
   * `extractChannelAsDouble` of CounterPlot/Source/Plotting: an array of one
   * entry per colour; a character that names no channel leaves every entry
   * at its initial 0.
   */
  method ExtractChannelAsDouble(colours: seq<Colour>, channel: char) returns (res: seq<real>)
    ensures |res| == |colours|
    ensures forall n :: 0 <= n < |res| ==>
      res[n] == (if channel in {'r', 'g', 'b', 'a'} then Channel(colours[n], channel).value else 0.0)
  {
    res := seq(|colours|, _ => 0.0);
    var n := 0;
    while n < |colours|
      invariant 0 <= n <= |colours| == |res|
      invariant forall k :: 0 <= k < n ==> res[k] == (if channel in {'r', 'g', 'b', 'a'} then Channel(colours[k], channel).value else 0.0)
      invariant forall k :: n <= k < |res| ==> res[k] == 0.0
    {
      var c := Channel(colours[n], channel);
      if c.Some? {
        res := res[n := c.value];
      }
      n := n + 1;
    }
  }

  /**
   * `extractChannelAsDouble` of the older CounterPlot/Source copy: values are
   * appended only for a valid channel, so any other character gives an empty
   * array.
   */
  method ExtractChannelAppending(colours: seq<Colour>, channel: char) returns (res: seq<real>)
    ensures channel !in {'r', 'g', 'b', 'a'} ==> res == []
    ensures channel in {'r', 'g', 'b', 'a'} ==>
      |res| == |colours| && forall n :: 0 <= n < |res| ==> res[n] == Channel(colours[n], channel).value
  {
    res := [];
    var n := 0;
    while n < |colours|
      invariant 0 <= n <= |colours|
      invariant channel !in {'r', 'g', 'b', 'a'} ==> res == []
      invariant channel in {'r', 'g', 'b', 'a'} ==>
        |res| == n && forall k :: 0 <= k < n ==> res[k] == Channel(colours[k], channel).value
    {
      var c := Channel(colours[n], channel);
      if c.Some? {
        res := res + [c.value];
      }
      n := n + 1;
    }
  }

  /** `toRGBA`: red in bits 0-7, green 8-15, blue 16-23, alpha 24-31. */
  function ToRGBA(c: Colour): (w: Word)
    ensures w % 0x100 == c.r
    ensures (w / 0x100) % 0x100 == c.g
    ensures (w / 0x1_0000) % 0x100 == c.b
    ensures w / 0x100_0000 == c.a
  {
    c.r + c.g * 0x100 + c.b * 0x1_0000 + c.a * 0x100_0000
  }

  /** The four bytes of an RGBA word, read back as a colour. */
  function FromRGBAWord(w: Word): Colour
  {
    Colour(w % 0x100, (w / 0x100) % 0x100, (w / 0x1_0000) % 0x100, w / 0x100_0000)
  }

  /** Packing is lossless: reading the bytes of `toRGBA (c)` back gives `c`. */
  lemma RGBAWordRoundTrip(c: Colour)
    ensures FromRGBAWord(ToRGBA(c)) == c
  {
  }

  /** `fromColours`: one RGBA word per colour, in the same order. */
  method FromColours(colours: seq<Colour>) returns (res: seq<Word>)
    ensures |res| == |colours|
    ensures forall n :: 0 <= n < |res| ==> res[n] == ToRGBA(colours[n])
  {
    res := seq(|colours|, _ => 0);
    var n := 0;
    while n < |res|
      invariant 0 <= n <= |res| == |colours|
      invariant forall k :: 0 <= k < n ==> res[k] == ToRGBA(colours[k])
    {
      res := res[n := ToRGBA(colours[n])];
      n := n + 1;
    }
  }

  /** `textureFromRGBTable`: `fromColours` of `coloursFromRGBTable`, which may throw. */
  method TextureFromRGBTable(text: string) returns (r: Result<seq<Word>>)
    ensures r.Err? <==> ParseRGBTable(text).Err?
    ensures r.Err? ==> r.error == ParseRGBTable(text).error
    ensures r.Ok? ==> |r.value| == |ParseRGBTable(text).value|
    ensures r.Ok? ==> forall n :: 0 <= n < |r.value| ==> r.value[n] == ToRGBA(ParseRGBTable(text).value[n])
  {
    var colours := ColoursFromRGBTable(text);
    if colours.Err? {
      return Err(colours.error);
    }
    var words := FromColours(colours.value);
    return Ok(words);
  }

  // ---------------------------------------------------------------------
  // ColourMapCollection

  /** The names the default collection registers, in order. */
  const DefaultNames: seq<string> := ["cividis", "dawn", "fire", "inferno", "magma", "plasma", "seashore", "viridis"]

  /** The index of the first occurrence of `name`, or -1 (`StringArray::indexOf`). */
  function IndexOfName(names: seq<string>, name: string): (k: int)
    ensures -1 <= k < |names|
    ensures k >= 0 ==> names[k] == name && forall j :: 0 <= j < k ==> names[j] != name
    ensures k < 0 ==> name !in names
  {
    if |names| == 0 then -1
    else if names[0] == name then 0
    else
      var k := IndexOfName(names[1..], name);
      if k < 0 then -1 else k + 1
  }

  predicate Distinct(names: seq<string>)
  {
    forall i, j :: 0 <= i < j < |names| ==> names[i] != names[j]
  }

  /** The sequence without position `k`, or unchanged when `k` is -1. */
  function Without<T>(xs: seq<T>, k: int): (r: seq<T>)
    requires -1 <= k < |xs|
    ensures |r| == if k < 0 then |xs| else |xs| - 1
    ensures forall j :: 0 <= j < |r| ==> r[j] == xs[if k < 0 || j < k then j else j + 1]
  {
    if k < 0 then xs else xs[..k] + xs[k + 1..]
  }

  /** The registry after `add`: any entry with the name is removed, then the new entry is appended. */
  function AddEntry(names: seq<string>, stops: seq<seq<Colour>>, name: string, s: seq<Colour>): (r: (seq<string>, seq<seq<Colour>>))
    requires |names| == |stops|
  {
    var k := IndexOfName(names, name);
    (Without(names, k) + [name], Without(stops, k) + [s])
  }

  /**
   * After `add`, names and stops stay equally long and duplicate-free, and
   * the name occurs once, in the last place, with the new stops.
   */
  lemma {:induction false} AddEntryPutsNameLast(names: seq<string>, stops: seq<seq<Colour>>, name: string, s: seq<Colour>)
    requires |names| == |stops| && Distinct(names)
    ensures var n2, s2 := AddEntry(names, stops, name, s).0, AddEntry(names, stops, name, s).1;
      |n2| == |s2| && Distinct(n2) && n2[|n2| - 1] == name && s2[|s2| - 1] == s
    ensures var n2 := AddEntry(names, stops, name, s).0;
      |n2| == (if name in names then |names| else |names| + 1) &&
      forall j :: 0 <= j < |n2| - 1 ==> n2[j] != name
  {
    var k := IndexOfName(names, name);
    var n2 := AddEntry(names, stops, name, s).0;
    var w := Without(names, k);
    assert n2 == w + [name];
    forall i, j | 0 <= i < j < |n2|
      ensures n2[i] != n2[j]
    {
      var si := if k < 0 || i < k then i else i + 1;
      assert n2[i] == w[i] == names[si];
      if j < |n2| - 1 {
        var sj := if k < 0 || j < k then j else j + 1;
        assert n2[j] == w[j] == names[sj] && si < sj;
      }
    }
  }

  /** After `add`, every other entry is still there with its own stops. */
  lemma {:induction false} AddEntryKeepsOthers(names: seq<string>, stops: seq<seq<Colour>>, name: string, s: seq<Colour>)
    requires |names| == |stops|
    ensures var n2, s2 := AddEntry(names, stops, name, s).0, AddEntry(names, stops, name, s).1;
      forall i :: 0 <= i < |names| && names[i] != name ==>
        exists j :: 0 <= j < |n2| - 1 && n2[j] == names[i] && s2[j] == stops[i]
  {
    var k := IndexOfName(names, name);
    var n2, s2 := AddEntry(names, stops, name, s).0, AddEntry(names, stops, name, s).1;
    var wn, ws := Without(names, k), Without(stops, k);
    assert n2 == wn + [name] && s2 == ws + [s];
    forall i | 0 <= i < |names| && names[i] != name
      ensures exists j :: 0 <= j < |n2| - 1 && n2[j] == names[i] && s2[j] == stops[i]
    {
      var j := if k < 0 || i < k then i else i - 1;
      assert n2[j] == wn[j] && s2[j] == ws[j];
    }
  }

  /** `x` occurs in `b` before `y`. */
  ghost predicate PairInOrder(x: string, y: string, b: seq<string>)
  {
    exists j, j' :: 0 <= j < j' < |b| && b[j] == x && b[j'] == y
  }

  /** Every two entries of `a` appear in `b` in the same order. */
  ghost predicate InSameOrder(a: seq<string>, b: seq<string>)
  {
    forall i, i' :: 0 <= i < i' < |a| ==> PairInOrder(a[i], a[i'], b)
  }

  /** After `add`, the entries other than the new last one keep their relative order. */
  lemma {:induction false} AddEntryKeepsOrder(names: seq<string>, stops: seq<seq<Colour>>, name: string, s: seq<Colour>)
    requires |names| == |stops|
    ensures var n2 := AddEntry(names, stops, name, s).0;
      InSameOrder(n2[..|n2| - 1], names)
  {
    var k := IndexOfName(names, name);
    var n2 := AddEntry(names, stops, name, s).0;
    var w := Without(names, k);
    assert n2[..|n2| - 1] == w;
    forall i, i' | 0 <= i < i' < |w|
      ensures PairInOrder(w[i], w[i'], names)
    {
      var j := if k < 0 || i < k then i else i + 1;
      var j' := if k < 0 || i' < k then i' else i' + 1;
      assert names[j] == w[i] && names[j'] == w[i'];
    }
  }

  /** The cursor after `next ()`: one forward, wrapping with C++ `%`. */
  function NextIndex(i: int, size: int): int
    requires size > 0
  {
    CMod(i + 1, size)
  }

  /** The cursor after `prev ()`: one back, wrapping with C++ `%`. */
  function PrevIndex(i: int, size: int): int
    requires size > 0
  {
    CMod(i - 1 + size, size)
  }

  /** From a valid cursor, next and prev stay valid and undo each other. */
  lemma CursorWraps(i: int, size: int)
    requires size > 0 && 0 <= i < size
    ensures 0 <= NextIndex(i, size) < size && 0 <= PrevIndex(i, size) < size
    ensures PrevIndex(NextIndex(i, size), size) == i
    ensures NextIndex(PrevIndex(i, size), size) == i
    ensures NextIndex(size - 1, size) == 0 && PrevIndex(0, size) == size - 1
  {
    ModOfRange(i + 1, size);
    ModOfRange(i - 1 + size, size);
    ModOfRange(NextIndex(i, size) - 1 + size, size);
    ModOfRange(PrevIndex(i, size) + 1, size);
    ModOfRange(size, size);
    ModOfRange(size - 1, size);
  }

  /** JUCE `Array::operator[]`: the element, or an empty array out of range. */
  function StopsAt(stops: seq<seq<Colour>>, i: int): (s: seq<Colour>)
    ensures 0 <= i < |stops| ==> s == stops[i]
    ensures !(0 <= i < |stops|) ==> s == []
  {
    if 0 <= i < |stops| then stops[i] else []
  }

  /** `StringArray::operator[]`: the string, or an empty string out of range. */
  function NameAt(names: seq<string>, i: int): (s: string)
    ensures 0 <= i < |names| ==> s == names[i]
    ensures !(0 <= i < |names|) ==> s == ""
  {
    if 0 <= i < |names| then names[i] else ""
  }

  class ColourMapCollection {
    var names: seq<string>
    var stops: seq<seq<Colour>>
    var currentIndex: int

    ghost predicate Valid()
      reads this
    {
      |names| == |stops| && Distinct(names)
    }

    /**
     * With `loadDefaults`, the eight application colour maps are added in
     * order; their stops are read from resources that are not part of this
     * model, so they are given here.
     */
    constructor (loadDefaults: bool, defaultStops: seq<seq<Colour>>)
      requires |defaultStops| == |DefaultNames|
      ensures Valid() && currentIndex == 0
      ensures names == (if loadDefaults then DefaultNames else [])
      ensures stops == (if loadDefaults then defaultStops else [])
    {
      names, stops, currentIndex := [], [], 0;
      new;
      if loadDefaults {
        var n := 0;
        while n < |DefaultNames|
          invariant 0 <= n <= |DefaultNames|
          invariant Valid() && currentIndex == 0
          invariant names == DefaultNames[..n] && stops == defaultStops[..n]
        {
          assert DefaultNames[n] !in DefaultNames[..n];
          Add(DefaultNames[n], defaultStops[n]);
          assert DefaultNames[..n + 1] == DefaultNames[..n] + [DefaultNames[n]];
          assert defaultStops[..n + 1] == defaultStops[..n] + [defaultStops[n]];
          n := n + 1;
        }
        assert DefaultNames[..n] == DefaultNames && defaultStops[..n] == defaultStops;
      }
    }

    method Clear()
      modifies this
      ensures Valid() && names == [] && stops == [] && currentIndex == 0
    {
      names, stops, currentIndex := [], [], 0;
    }

    /** `add`: an entry with the same name is removed first, then the entry is appended. */
    method Add(name: string, s: seq<Colour>)
      requires Valid()
      modifies this
      ensures Valid() && currentIndex == old(currentIndex)
      ensures (names, stops) == AddEntry(old(names), old(stops), name, s)
    {
      AddEntryPutsNameLast(names, stops, name, s);
      if name in names {
        var n := IndexOfName(names, name);
        names := names[..n] + names[n + 1..];
        stops := stops[..n] + stops[n + 1..];
      }
      names := names + [name];
      stops := stops + [s];
    }

    method SetCurrent(newIndex: int)
      modifies this
      ensures currentIndex == newIndex && names == old(names) && stops == old(stops)
    {
      currentIndex := newIndex;
    }

    /** `setCurrent (name)`: the index of the name, or -1 when it is not registered. */
    method SetCurrentByName(name: string)
      modifies this
      ensures currentIndex == IndexOfName(names, name) && names == old(names) && stops == old(stops)
      ensures name in names ==> names[currentIndex] == name
    {
      currentIndex := IndexOfName(names, name);
    }

    /** `next ()`: move the cursor forward and return the stops under it. An empty collection divides by zero. */
    method Next() returns (s: seq<Colour>)
      requires |names| > 0
      modifies this
      ensures names == old(names) && stops == old(stops)
      ensures currentIndex == NextIndex(old(currentIndex), |names|)
      ensures s == StopsAt(stops, currentIndex)
    {
      currentIndex := CMod(currentIndex + 1, |names|);
      s := StopsAt(stops, currentIndex);
    }

    /** `prev ()`: move the cursor back and return the stops under it. An empty collection divides by zero. */
    method Prev() returns (s: seq<Colour>)
      requires |names| > 0
      modifies this
      ensures names == old(names) && stops == old(stops)
      ensures currentIndex == PrevIndex(old(currentIndex), |names|)
      ensures s == StopsAt(stops, currentIndex)
    {
      currentIndex := CMod(currentIndex - 1 + |names|, |names|);
      s := StopsAt(stops, currentIndex);
    }

    function GetStops(index: int): seq<Colour>
      reads this
    {
      StopsAt(stops, index)
    }

    function GetCurrentStops(): seq<Colour>
      reads this
    {
      StopsAt(stops, currentIndex)
    }

    function GetCurrentName(): string
      reads this
    {
      NameAt(names, currentIndex)
    }

    function GetName(index: int): string
      reads this
    {
      NameAt(names, index)
    }

    function Size(): nat
      reads this
    {
      |names|
    }
  }
}
