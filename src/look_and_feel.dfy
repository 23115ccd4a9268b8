// The application's look and feel: the colour ids that configuration files
// may name, the colour of the n-th property text, and the default font. Two
// copies exist, CounterPlot's AppLookAndFeel and PatchView's
// LookAndFeelHelpers; PatchView's knows no status-bar colour by name.
module LookAndFeels {
  import opened Wrappers
  import opened Numbers
  import opened Colours

  /** The look-and-feel colour ids. */
  datatype ColourId =
    | PropertyViewBackground | PropertyViewSelectedItem
    | PropertyViewText0 | PropertyViewText1 | PropertyViewText2 | PropertyViewText3 | PropertyViewText4
    | DirectoryTreeFile | DirectoryTreeDirectory | DirectoryTreeSymbolicLink
    | DirectoryTreeBackground | DirectoryTreeSelectedItem
    | StatusBarBackground | StatusBarText | StatusBarErrorText
    | EnvironmentViewBackground | EnvironmentViewSelectedItem | EnvironmentViewText1 | EnvironmentViewText2

  /** The numeric value of each id in CounterPlot's `ColourIds` enumeration. */
  function IdValue(id: ColourId): int
  {
    match id
    case PropertyViewBackground => 0x0771601
    case PropertyViewSelectedItem => 0x0771602
    case PropertyViewText0 => 0x0771603
    case PropertyViewText1 => 0x0771604
    case PropertyViewText2 => 0x0771605
    case PropertyViewText3 => 0x0771606
    case PropertyViewText4 => 0x0771607
    case DirectoryTreeFile => 0x0771608
    case DirectoryTreeDirectory => 0x0771609
    case DirectoryTreeSymbolicLink => 0x0771610
    case DirectoryTreeBackground => 0x0771611
    case DirectoryTreeSelectedItem => 0x0771612
    case StatusBarBackground => 0x0771613
    case StatusBarText => 0x0771614
    case StatusBarErrorText => 0x0771615
    case EnvironmentViewBackground => 0x0771616
    case EnvironmentViewSelectedItem => 0x0771617
    case EnvironmentViewText1 => 0x0771618
    case EnvironmentViewText2 => 0x0771619
  }

  /** Different ids have different values, none of them -1. */
  lemma IdValuesDistinct(a: ColourId, b: ColourId)
    ensures IdValue(a) != -1
    ensures IdValue(a) == IdValue(b) <==> a == b
  {
  }

  // ---------------------------------------------------------------------
  // colourIdFromString

  /** The names a configuration file may give colours by, with their ids, in the order they are tried. */
  const ColourNames: seq<(string, ColourId)> := [
    ("directory_tree.background", DirectoryTreeBackground),
    ("directory_tree.selected_item", DirectoryTreeSelectedItem),
    ("directory_tree.file", DirectoryTreeFile),
    ("directory_tree.directory", DirectoryTreeDirectory),
    ("directory_tree.symbolic_link", DirectoryTreeSymbolicLink),
    ("property_view.background", PropertyViewBackground),
    ("property_view.selected_item", PropertyViewSelectedItem),
    ("property_view.text0", PropertyViewText0),
    ("property_view.text1", PropertyViewText1),
    ("property_view.text2", PropertyViewText2),
    ("property_view.text3", PropertyViewText3),
    ("property_view.text4", PropertyViewText4),
    ("status_bar.background", StatusBarBackground)]

  /** CounterPlot's table has all 13 names; PatchView's stops before the status bar. */
  function NamesTable(withStatusBar: bool): (t: seq<(string, ColourId)>)
    ensures |t| == if withStatusBar then 13 else 12
  {
    if withStatusBar then ColourNames else ColourNames[..12]
  }

  /** The id of the first entry of `table` named `name`. */
  function Lookup(table: seq<(string, ColourId)>, name: string): (r: Option<ColourId>)
    ensures r.Some? <==> exists k :: 0 <= k < |table| && table[k].0 == name
    ensures r.Some? ==> exists k :: 0 <= k < |table| && table[k] == (name, r.value)
  {
    if table == [] then None
    else if table[0].0 == name then Some(table[0].1)
    else
      var r := Lookup(table[1..], name);
      assert forall k :: 1 <= k < |table| ==> table[k] == table[1..][k - 1];
      r
  }

  /** `colourIdFromString`: the named id, or None (-1) for any other name. */
  function ColourIdFromString(name: string, withStatusBar: bool): Option<ColourId>
  {
    Lookup(NamesTable(withStatusBar), name)
  }

  /** CounterPlot's `colourIdFromString` as the int it returns. */
  function ColourIdNumber(name: string): (n: int)
    ensures n == -1 <==> ColourIdFromString(name, true).None?
  {
    var id := ColourIdFromString(name, true);
    IdValuesDistinct(if id.Some? then id.value else PropertyViewBackground, PropertyViewBackground);
    if id.Some? then IdValue(id.value) else -1
  }

  /** The name each nameable id goes by. */
  function NameOf(id: ColourId): Option<string>
  {
    match id
    case DirectoryTreeBackground => Some("directory_tree.background")
    case DirectoryTreeSelectedItem => Some("directory_tree.selected_item")
    case DirectoryTreeFile => Some("directory_tree.file")
    case DirectoryTreeDirectory => Some("directory_tree.directory")
    case DirectoryTreeSymbolicLink => Some("directory_tree.symbolic_link")
    case PropertyViewBackground => Some("property_view.background")
    case PropertyViewSelectedItem => Some("property_view.selected_item")
    case PropertyViewText0 => Some("property_view.text0")
    case PropertyViewText1 => Some("property_view.text1")
    case PropertyViewText2 => Some("property_view.text2")
    case PropertyViewText3 => Some("property_view.text3")
    case PropertyViewText4 => Some("property_view.text4")
    case StatusBarBackground => Some("status_bar.background")
    case _ => None
  }

  /** Each table entry is an id with its own name, and no two entries share a name or an id. */
  lemma TableEntriesAreNamed(k: nat, j: nat)
    requires k < 13 && j < 13
    ensures NameOf(ColourNames[k].1) == Some(ColourNames[k].0)
    ensures ColourNames[k].1 == ColourNames[j].1 ==> k == j
    ensures ColourNames[k].0 == ColourNames[j].0 ==> k == j
  {
  }

  /** Lookup finds an entry whose name no earlier entry has. */
  lemma {:induction false} LookupFindsFirst(table: seq<(string, ColourId)>, k: nat)
    requires k < |table|
    requires forall j :: 0 <= j < k ==> table[j].0 != table[k].0
    ensures Lookup(table, table[k].0) == Some(table[k].1)
  {
    if k > 0 {
      assert forall j :: 0 <= j < k - 1 ==> table[1..][j] == table[j + 1];
      LookupFindsFirst(table[1..], k - 1);
    }
  }

  /** Lookup in the first entries of the table finds only names that sit there. */
  lemma LookupFindsOnlyPrefix(name: string, withStatusBar: bool)
    ensures ColourIdFromString(name, withStatusBar).Some? ==>
      exists k :: 0 <= k < |NamesTable(withStatusBar)| && ColourNames[k] == (name, ColourIdFromString(name, withStatusBar).value)
  {
    var t := NamesTable(withStatusBar);
    assert forall k :: 0 <= k < |t| ==> t[k] == ColourNames[k];
  }

  /**
   * The names and the ids determine each other: a name maps to an id only
   * when it is that id's name, and every id with a name (but the status
   * bar's, in PatchView) is found by it.
   */
  lemma ColourIdRoundTrip(name: string, id: ColourId, withStatusBar: bool)
    ensures ColourIdFromString(name, withStatusBar) == Some(id) ==> NameOf(id) == Some(name)
    ensures NameOf(id).Some? && (withStatusBar || id != StatusBarBackground) ==>
      ColourIdFromString(NameOf(id).value, withStatusBar) == Some(id)
  {
    LookupFindsOnlyPrefix(name, withStatusBar);
    if ColourIdFromString(name, withStatusBar) == Some(id) {
      var k :| 0 <= k < |NamesTable(withStatusBar)| && ColourNames[k] == (name, id);
      TableEntriesAreNamed(k, k);
    }
    if NameOf(id).Some? && (withStatusBar || id != StatusBarBackground) {
      var t := NamesTable(withStatusBar);
      var k := IndexOfId(id);
      TableEntriesAreNamed(k, k);
      forall j | 0 <= j < k
        ensures t[j].0 != t[k].0
      {
        TableEntriesAreNamed(j, k);
      }
      LookupFindsFirst(t, k);
    }
  }

  /** Where a nameable id sits in the table. */
  function IndexOfId(id: ColourId): (k: nat)
    requires NameOf(id).Some?
    ensures k < 13 && ColourNames[k].1 == id
    ensures id != StatusBarBackground ==> k < 12
  {
    match id
    case DirectoryTreeBackground => 0
    case DirectoryTreeSelectedItem => 1
    case DirectoryTreeFile => 2
    case DirectoryTreeDirectory => 3
    case DirectoryTreeSymbolicLink => 4
    case PropertyViewBackground => 5
    case PropertyViewSelectedItem => 6
    case PropertyViewText0 => 7
    case PropertyViewText1 => 8
    case PropertyViewText2 => 9
    case PropertyViewText3 => 10
    case PropertyViewText4 => 11
    case StatusBarBackground => 12
  }

  /** The two copies agree on every name but the status bar's. */
  lemma CopiesAgreeOffStatusBar(name: string)
    requires name != ColourNames[12].0
    ensures ColourIdFromString(name, false) == ColourIdFromString(name, true)
  {
    SplitLast(ColourNames);
    LookupAppend(NamesTable(false), ColourNames[12], name);
  }

  /** CounterPlot's copy knows the status bar's name. */
  lemma StatusBarInCounterPlot(name: string)
    requires name == ColourNames[12].0
    ensures ColourIdFromString(name, true) == Some(StatusBarBackground)
  {
    ColourIdRoundTrip(name, StatusBarBackground, true);
  }

  /** PatchView's copy does not know the status bar's name. */
  lemma StatusBarNotInPatchView(name: string)
    requires name == ColourNames[12].0
    ensures ColourIdFromString(name, false) == None
  {
    var t := NamesTable(false);
    forall k | 0 <= k < |t|
      ensures t[k].0 != name
    {
      TableEntriesAreNamed(k, 12);
    }
  }

  /** A table is its first entries followed by its last. */
  lemma SplitLast(table: seq<(string, ColourId)>)
    requires |table| > 0
    ensures table == table[..|table| - 1] + [table[|table| - 1]]
  {
  }

  /** Looking up in a table with one more entry at the end finds the same, unless only the new entry matches. */
  lemma {:induction false} LookupAppend(table: seq<(string, ColourId)>, entry: (string, ColourId), name: string)
    ensures name != entry.0 ==> Lookup(table + [entry], name) == Lookup(table, name)
  {
    if table != [] {
      assert (table + [entry])[1..] == table[1..] + [entry];
      LookupAppend(table[1..], entry, name);
    }
  }

  // ---------------------------------------------------------------------
  // findColourForPropertyText

  /** The five property-text colour ids, by remainder. */
  function PropertyTextId(k: int): ColourId
    requires 0 <= k < 5
  {
    if k == 0 then PropertyViewText0
    else if k == 1 then PropertyViewText1
    else if k == 2 then PropertyViewText2
    else if k == 3 then PropertyViewText3
    else PropertyViewText4
  }

  /**
   * `findColourForPropertyText`: the colour `findColour` gives for
   * property-text id `index % 5` (C++ remainder); a negative remainder
   * matches no case and gives black.
   */
  function FindColourForPropertyText(findColour: ColourId -> Colour, index: int): Colour
  {
    var k := CMod(index, 5);
    if 0 <= k < 5 then findColour(PropertyTextId(k)) else Black
  }

  /** Non-negative indices cycle through the five text colours. */
  lemma PropertyTextCycles(findColour: ColourId -> Colour, index: int)
    requires index >= 0
    ensures FindColourForPropertyText(findColour, index) == findColour(PropertyTextId(index % 5))
    ensures FindColourForPropertyText(findColour, index + 5) == FindColourForPropertyText(findColour, index)
  {
    assert (index + 5) % 5 == index % 5;
  }

  /** A negative index gives black unless it is a multiple of 5, which gives the first text colour. */
  lemma NegativePropertyText(findColour: ColourId -> Colour, index: int)
    requires index < 0
    ensures index % 5 != 0 ==> FindColourForPropertyText(findColour, index) == Black
    ensures index % 5 == 0 ==> FindColourForPropertyText(findColour, index) == findColour(PropertyViewText0)
  {
    assert (-index) % 5 == 0 <==> index % 5 == 0;
  }

  // ---------------------------------------------------------------------
  // The default font

  /** A JUCE `Font`, reduced to what this model reads: its typeface name and height. */
  datatype Font = Font(typefaceName: string, height: real)
  {
    function WithHeight(h: real): Font { this.(height := h) }
  }

  class AppLookAndFeel {
    var defaultFont: Font

    constructor (font: Font)
      ensures defaultFont == font
    {
      defaultFont := font;
    }

    method GetDefaultFont() returns (font: Font)
      ensures font == defaultFont
    {
      font := defaultFont;
    }

    /** `setDefaultFont`: the next `getDefaultFont` returns this font. */
    method SetDefaultFont(font: Font)
      modifies this
      ensures defaultFont == font
    {
      defaultFont := font;
    }

    /** `incrementFontSize`: the default font grows by `amount`, nothing else about it changes. */
    method IncrementFontSize(amount: int)
      modifies this
      ensures defaultFont == old(defaultFont).WithHeight(old(defaultFont).height + amount as real)
      ensures defaultFont.typefaceName == old(defaultFont).typefaceName
    {
      SetDefaultFont(defaultFont.WithHeight(defaultFont.height + amount as real));
    }

    /** `getDefaultScrollbarWidth`: 6 pixels. */
    method GetDefaultScrollbarWidth() returns (w: int)
      ensures w == 6
    {
      w := 6;
    }
  }
}
