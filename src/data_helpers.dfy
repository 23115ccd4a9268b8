// DataHelpers: colours and grid tracks read from `var` values, and the
// conversion between `var` trees and YAML trees. A YAML tree is modelled as
// an abstract node; the YAML text itself belongs to the parser library.
module DataHelpers {
  import opened Wrappers
  import opened Colours
  import opened Vars
  import Text

  // ---------------------------------------------------------------------
  // Colours and grid tracks

  /**
   * `colourFromVar`: void is transparent white, an int is an ARGB word, a
   * string is parsed as hex, a 3- or 4-element array gives RGB or RGBA
   * channels, and anything else is black.
   */
  function ColourFromVar(v: Var): (c: Colour)
    ensures v.Void? ==> c == TransparentWhite
    ensures v.Int? ==> c == FromARGB(v.i)
    ensures v.Str? ==> c == FromString(v.s)
    ensures v.List? && |v.items| == 3 ==>
      c == FromRGB(ToInt(v.items[0]), ToInt(v.items[1]), ToInt(v.items[2]))
    ensures v.List? && |v.items| == 4 ==>
      c == FromRGBA(ToInt(v.items[0]), ToInt(v.items[1]), ToInt(v.items[2]), ToInt(v.items[3]))
    ensures !v.Void? && !v.Int? && !v.Str? && Size(v) != 3 && Size(v) != 4 ==> c == Black
  {
    if v.Void? then TransparentWhite
    else if v.Int? then FromARGB(v.i)
    else if v.Str? then FromString(v.s)
    else if Size(v) == 3 then FromRGB(ToInt(v.items[0]), ToInt(v.items[1]), ToInt(v.items[2]))
    else if Size(v) == 4 then FromRGBA(ToInt(v.items[0]), ToInt(v.items[1]), ToInt(v.items[2]), ToInt(v.items[3]))
    else Black
  }

  /** A double, an object or a two-element list matches no branch and reads as black. */
  lemma ColourFromVarFallsBackToBlack(d: real, props: seq<Property>, x: Var, y: Var)
    ensures ColourFromVar(Double(d)) == Black
    ensures ColourFromVar(Object(props)) == Black
    ensures ColourFromVar(List([x, y])) == Black
  {
  }

  /** A colour written as its channel list reads back as the same colour. */
  lemma ColourFromChannelList(c: Colour)
    ensures ColourFromVar(List([Int(c.r), Int(c.g), Int(c.b), Int(c.a)])) == c
    ensures c.a == 255 ==> ColourFromVar(List([Int(c.r), Int(c.g), Int(c.b)])) == c
  {
  }

  /** `Grid::TrackInfo (Grid::Fr (n))`: a fractional track. */
  datatype TrackInfo = Fr(fraction: int)

  /** `gridTrackInfoArrayFromVar`: one fractional track per array element, in order; none for a non-array. */
  method GridTrackInfoArrayFromVar(v: Var) returns (info: seq<TrackInfo>)
    ensures |info| == Size(v)
    ensures forall k :: 0 <= k < |info| ==> info[k] == Fr(ToInt(v.items[k]))
  {
    info := [];
    if v.List? {
      var k := 0;
      while k < |v.items|
        invariant 0 <= k <= |v.items| && |info| == k
        invariant forall j :: 0 <= j < k ==> info[j] == Fr(ToInt(v.items[j]))
      {
        info := info + [Fr(ToInt(v.items[k]))];
        k := k + 1;
      }
    }
  }

  // ---------------------------------------------------------------------
  // YAML trees

  /** A YAML node: null, undefined, a scalar's text, a sequence, or a map from keys to nodes in order. */
  datatype Node =
    | Null
    | Undef
    | Scalar(text: string)
    | Sequence(items: seq<Node>)
    | Map(entries: seq<Entry>)

  datatype Entry = Entry(key: string, node: Node)

  /** `node[key] = value` on a map node: an existing key takes the new value in place, a new key is appended. */
  function PutEntry(entries: seq<Entry>, key: string, n: Node): (r: seq<Entry>)
    ensures |r| == |entries| || r == entries + [Entry(key, n)]
    decreases |entries|
  {
    if |entries| == 0 then [Entry(key, n)]
    else if entries[0].key == key then [Entry(key, n)] + entries[1..]
    else
      var rest := PutEntry(entries[1..], key, n);
      assert [entries[0]] + entries[1..] + [Entry(key, n)] == entries + [Entry(key, n)];
      [entries[0]] + rest
  }

  /** The text yaml-cpp stores for a boolean scalar. */
  function BoolText(b: bool): string
  {
    if b then "true" else "false"
  }

  /**
   * The node `nodeFromVar` builds. A scalar keeps the text of a string,
   * boolean or integer; the text of a double is given by `realText`. An empty
   * array or object never receives a child, so it stays a null node.
   */
  function YamlOf(v: Var, realText: real -> string): Node
    decreases v
  {
    match v
    case Str(s) => Scalar(s)
    case Bool(b) => Scalar(BoolText(b))
    case Int(i) => Scalar(Text.IntToString(i))
    case Double(d) => Scalar(realText(d))
    case List(items) =>
      if |items| == 0 then Null
      else Sequence(seq(|items|, k requires 0 <= k < |items| => YamlOf(items[k], realText)))
    case Object(props) =>
      if |props| == 0 then Null
      else Map(YamlEntries(props, [], realText))
    case _ => Null
  }

  /** The entries written for the properties of an object, after those already in `acc`. */
  function YamlEntries(props: seq<Property>, acc: seq<Entry>, realText: real -> string): seq<Entry>
    decreases props
  {
    if |props| == 0 then acc
    else YamlEntries(props[1..], PutEntry(acc, props[0].name, YamlOf(props[0].value, realText)), realText)
  }

  /** `nodeFromVar`: the recursion appends each converted child in a loop. */
  method NodeFromVar(v: Var, realText: real -> string) returns (n: Node)
    ensures n == YamlOf(v, realText)
    decreases v
  {
    match v {
      case Str(s) => n := Scalar(s);
      case Bool(b) => n := Scalar(BoolText(b));
      case Int(i) => n := Scalar(Text.IntToString(i));
      case Double(d) => n := Scalar(realText(d));
      case List(items) =>
        var children: seq<Node> := [];
        var k := 0;
        while k < |items|
          invariant 0 <= k <= |items| && |children| == k
          invariant forall j :: 0 <= j < k ==> children[j] == YamlOf(items[j], realText)
        {
          var c := NodeFromVar(items[k], realText);
          children := children + [c];
          k := k + 1;
        }
        n := if |items| == 0 then Null else Sequence(children);
      case Object(props) =>
        var entries: seq<Entry> := [];
        var k := 0;
        while k < |props|
          invariant 0 <= k <= |props|
          invariant YamlEntries(props, [], realText) == YamlEntries(props[k..], entries, realText)
        {
          var c := NodeFromVar(props[k].value, realText);
          assert props[k..][1..] == props[k + 1..];
          entries := PutEntry(entries, props[k].name, c);
          k := k + 1;
        }
        n := if |props| == 0 then Null else Map(entries);
      case _ => n := Null;
    }
  }

  /** Arrays keep their length and order; objects keep every key. */
  lemma {:induction false} YamlOfKeepsShape(v: Var, realText: real -> string)
    ensures v.List? && |v.items| > 0 ==>
      YamlOf(v, realText).Sequence? && |YamlOf(v, realText).items| == |v.items| &&
      forall k :: 0 <= k < |v.items| ==> YamlOf(v, realText).items[k] == YamlOf(v.items[k], realText)
    ensures v.Object? && |v.props| > 0 ==>
      YamlOf(v, realText).Map? &&
      forall k :: 0 <= k < |v.props| ==> HasKey(YamlOf(v, realText).entries, v.props[k].name)
    ensures v.Void? || v.Undefined? || v.Wrapped? || v.Native? ==> YamlOf(v, realText) == Null
  {
    if v.Object? && |v.props| > 0 {
      EntriesKeepKeys(v.props, [], realText);
    }
  }

  predicate HasKey(entries: seq<Entry>, key: string)
  {
    exists k :: 0 <= k < |entries| && entries[k].key == key
  }

  /** Putting an entry keeps every key already there and adds the new one. */
  lemma {:induction false} PutEntryKeepsKeys(entries: seq<Entry>, key: string, n: Node, other: string)
    requires HasKey(entries, other) || other == key
    ensures HasKey(PutEntry(entries, key, n), other)
    decreases |entries|
  {
    var r := PutEntry(entries, key, n);
    if |entries| == 0 || entries[0].key == key || entries[0].key == other {
      assert r[0].key == key || r[0].key == other;
      if r[0].key != other {
        var k :| 0 <= k < |entries| && entries[k].key == other;
        assert r[k].key == other;
      }
    } else {
      if other != key {
        var k :| 0 <= k < |entries| && entries[k].key == other;
        assert entries[1..][k - 1].key == other;
      }
      PutEntryKeepsKeys(entries[1..], key, n, other);
      var rest := PutEntry(entries[1..], key, n);
      var j :| 0 <= j < |rest| && rest[j].key == other;
      assert r[j + 1].key == other;
    }
  }

  lemma {:induction false} EntriesKeepKeys(props: seq<Property>, acc: seq<Entry>, realText: real -> string)
    ensures forall k :: 0 <= k < |acc| ==> HasKey(YamlEntries(props, acc, realText), acc[k].key)
    ensures forall k :: 0 <= k < |props| ==> HasKey(YamlEntries(props, acc, realText), props[k].name)
    decreases props
  {
    if |props| > 0 {
      var acc' := PutEntry(acc, props[0].name, YamlOf(props[0].value, realText));
      forall k | 0 <= k < |acc|
        ensures HasKey(acc', acc[k].key)
      {
        assert HasKey(acc, acc[k].key);
        PutEntryKeepsKeys(acc, props[0].name, YamlOf(props[0].value, realText), acc[k].key);
      }
      PutEntryKeepsKeys(acc, props[0].name, YamlOf(props[0].value, realText), props[0].name);
      EntriesKeepKeys(props[1..], acc', realText);
      forall k | 0 <= k < |acc|
        ensures HasKey(YamlEntries(props, acc, realText), acc[k].key)
      {
        var j :| 0 <= j < |acc'| && acc'[j].key == acc[k].key;
      }
      forall k | 0 <= k < |props|
        ensures HasKey(YamlEntries(props, acc, realText), props[k].name)
      {
        if k == 0 {
          var j :| 0 <= j < |acc'| && acc'[j].key == props[0].name;
        } else {
          assert props[1..][k - 1] == props[k];
        }
      }
    }
  }

  /**
   * `varFromYamlScalar`: the scalar's text read as JSON when that gives a
   * value, otherwise the text itself as a string.
   */
  function VarFromYamlScalar(text: string, parseJson: string -> Var): (v: Var)
    ensures parseJson(text).Void? ==> v == Str(text)
    ensures !parseJson(text).Void? ==> v == parseJson(text)
  {
    if !parseJson(text).Void? then parseJson(text) else Str(text)
  }

  /**
   * The value `varFromYamlNode` builds. An empty sequence appends nothing to
   * the void accumulator and so stays void; a map becomes an object whose
   * properties are set in order.
   */
  function VarOf(n: Node, parseJson: string -> Var): Var
    decreases n
  {
    match n
    case Null => Void
    case Undef => Undefined
    case Scalar(text) => VarFromYamlScalar(text, parseJson)
    case Sequence(items) =>
      if |items| == 0 then Void
      else List(seq(|items|, k requires 0 <= k < |items| => VarOf(items[k], parseJson)))
    case Map(entries) => Object(VarProps(entries, [], parseJson))
  }

  function VarProps(entries: seq<Entry>, acc: seq<Property>, parseJson: string -> Var): seq<Property>
    decreases entries
  {
    if |entries| == 0 then acc
    else VarProps(entries[1..], SetProperty(acc, entries[0].key, VarOf(entries[0].node, parseJson)), parseJson)
  }

  /** `varFromYamlNode`: sequences and maps are converted child by child in a loop. */
  method VarFromYamlNode(n: Node, parseJson: string -> Var) returns (v: Var)
    ensures v == VarOf(n, parseJson)
    decreases n
  {
    match n {
      case Null => v := Void;
      case Undef => v := Undefined;
      case Scalar(text) => v := VarFromYamlScalar(text, parseJson);
      case Sequence(items) =>
        var res: seq<Var> := [];
        var k := 0;
        while k < |items|
          invariant 0 <= k <= |items| && |res| == k
          invariant forall j :: 0 <= j < k ==> res[j] == VarOf(items[j], parseJson)
        {
          var c := VarFromYamlNode(items[k], parseJson);
          res := res + [c];
          k := k + 1;
        }
        v := if |items| == 0 then Void else List(res);
      case Map(entries) =>
        var props: seq<Property> := [];
        var k := 0;
        while k < |entries|
          invariant 0 <= k <= |entries|
          invariant VarProps(entries, [], parseJson) == VarProps(entries[k..], props, parseJson)
        {
          var c := VarFromYamlNode(entries[k].node, parseJson);
          assert entries[k..][1..] == entries[k + 1..];
          props := SetProperty(props, entries[k].key, c);
          k := k + 1;
        }
        v := Object(props);
    }
  }

  /** Sequences keep their length and order; maps keep every key, as object properties. */
  lemma {:induction false} VarOfKeepsShape(n: Node, parseJson: string -> Var)
    ensures n.Sequence? && |n.items| > 0 ==>
      VarOf(n, parseJson).List? && |VarOf(n, parseJson).items| == |n.items| &&
      forall k :: 0 <= k < |n.items| ==> VarOf(n, parseJson).items[k] == VarOf(n.items[k], parseJson)
    ensures n.Map? ==>
      VarOf(n, parseJson).Object? &&
      forall k :: 0 <= k < |n.entries| ==> GetProperty(VarOf(n, parseJson).props, n.entries[k].key).Some?
    ensures n.Null? ==> VarOf(n, parseJson) == Void
  {
    if n.Map? {
      PropsKeepKeys(n.entries, [], parseJson);
    }
  }

  lemma {:induction false} PropsKeepKeys(entries: seq<Entry>, acc: seq<Property>, parseJson: string -> Var)
    ensures forall name :: GetProperty(acc, name).Some? ==> GetProperty(VarProps(entries, acc, parseJson), name).Some?
    ensures forall k :: 0 <= k < |entries| ==> GetProperty(VarProps(entries, acc, parseJson), entries[k].key).Some?
    decreases entries
  {
    if |entries| > 0 {
      var v := VarOf(entries[0].node, parseJson);
      var acc' := SetProperty(acc, entries[0].key, v);
      forall name | GetProperty(acc, name).Some?
        ensures GetProperty(acc', name).Some?
      {
        GetAfterSet(acc, entries[0].key, v, name);
      }
      GetAfterSet(acc, entries[0].key, v, entries[0].key);
      PropsKeepKeys(entries[1..], acc', parseJson);
      forall k | 0 <= k < |entries|
        ensures GetProperty(VarProps(entries, acc, parseJson), entries[k].key).Some?
      {
        if k > 0 {
          assert entries[1..][k - 1] == entries[k];
        }
      }
    }
  }

  /**
   * Reading back a tree written from a flat, non-empty list of strings gives
   * the list, when JSON reads none of the strings as a value.
   */
  lemma {:induction false} YamlListOfStringsRoundTrip(ss: seq<string>, parseJson: string -> Var, realText: real -> string)
    requires |ss| > 0
    requires forall k :: 0 <= k < |ss| ==> parseJson(ss[k]).Void?
    ensures VarOf(YamlOf(List(seq(|ss|, k requires 0 <= k < |ss| => Str(ss[k]))), realText), parseJson)
         == List(seq(|ss|, k requires 0 <= k < |ss| => Str(ss[k])))
  {
    var v := List(seq(|ss|, k requires 0 <= k < |ss| => Str(ss[k])));
    YamlOfKeepsShape(v, realText);
    var n := YamlOf(v, realText);
    assert forall k :: 0 <= k < |ss| ==> n.items[k] == Scalar(ss[k]);
    var back := VarOf(n, parseJson);
    forall k | 0 <= k < |ss|
      ensures back.items[k] == Str(ss[k])
    {
      assert back.items[k] == VarOf(Scalar(ss[k]), parseJson);
    }
  }

  /** An empty array or object is written as a null node, which reads back as void. */
  lemma EmptyContainersReadBackVoid(parseJson: string -> Var, realText: real -> string)
    ensures VarOf(YamlOf(List([]), realText), parseJson) == Void
    ensures VarOf(YamlOf(Object([]), realText), parseJson) == Void
  {
  }
}
