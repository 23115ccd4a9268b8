// JUCE `var` values as the program uses them: void, undefined, booleans,
// numbers, strings, arrays, DynamicObjects (ordered named properties), the
// Runtime::Data<T> wrappers, native functions and the bailout checker
// object that the expression evaluator hands to native functions.
module Vars {
  import opened Colours
  import opened Numbers
  import opened Wrappers
  import opened Geometry
  import Text

  /** A `std::shared_ptr<PlotArtist>`: its identity and whether it draws on the GPU surface. */
  datatype ArtistRef = ArtistRef(id: nat, wantsSurface: bool)

  /** The values wrapped by `Runtime::Data<T>`, one constructor per DataTypeInfo specialisation. */
  datatype Data =
    | Array1(values: seq<real>)
    | Array2(ni: nat, nj: nat)
    | Array3(ni: nat, nj: nat, nk: nat)
    | ColourList(colours: seq<Colour>)
    | Artist(artist: ArtistRef)
    | Mapping(vmin: real, vmax: real)
    | Float1Buffer(size: nat)
    | Float2Buffer(size: nat)
    | Float4Buffer(size: nat)

  datatype Var =
    | Void
    | Undefined
    | Bool(b: bool)
    | Int(i: int)
    | Double(d: real)
    | Str(s: string)
    | List(items: seq<Var>)
    | Object(props: seq<Property>)
    | Wrapped(data: Data)
    | Native(name: string)
    | Checker

  /** One entry of a DynamicObject's NamedValueSet. */
  datatype Property = Property(name: string, value: Var)

  /**
   * The conversions of `var` whose results depend on JUCE code that is not
   * part of this model (`operator bool`, `operator double`, `toString ()`),
   * and the DataHelpers border-size and string-map codecs.
   */
  datatype Conversions = Conversions(
    toBool: Var -> bool,
    toReal: Var -> real,
    toText: Var -> string,
    borderFromVar: Var -> Border,
    varFromBorder: Border -> Var,
    stringMapFromVar: Var -> seq<(string, string)>,
    varFromStringMap: seq<(string, string)> -> Var)

  /**
   * The laws every JUCE conversion obeys on values of its own kind, and the
   * DataHelpers codecs reading back what they wrote.
   */
  ghost predicate Faithful(c: Conversions)
  {
    && (forall b: bool :: c.toBool(Bool(b)) == b)
    && (forall d: real :: c.toReal(Double(d)) == d)
    && (forall s: string :: c.toText(Str(s)) == s)
    && (forall m: Border :: c.varFromBorder(m) != Void && c.borderFromVar(c.varFromBorder(m)) == m)
    && (forall p: seq<(string, string)> :: c.varFromStringMap(p) != Void && c.stringMapFromVar(c.varFromStringMap(p)) == p)
  }

  /** `int (v)`: booleans give 0 or 1, doubles truncate, strings are read by `getIntValue`, other kinds give 0. */
  function ToInt(v: Var): int
  {
    match v
    case Bool(b) => if b then 1 else 0
    case Int(i) => i
    case Double(d) => Trunc(d)
    case Str(s) => Text.IntValue(s)
    case _ => 0
  }

  /** `var::size ()`: the length of an array, 0 for anything else. */
  function Size(v: Var): nat
  {
    if v.List? then |v.items| else 0
  }

  /** The value of the first property with this name, if any. */
  function GetProperty(props: seq<Property>, name: string): (r: Option<Var>)
    ensures r.Some? <==> exists k :: 0 <= k < |props| && props[k].name == name
    ensures r.Some? ==> exists k :: 0 <= k < |props| && props[k] == Property(name, r.value)
  {
    if |props| == 0 then None
    else if props[0].name == name then Some(props[0].value)
    else
      var r := GetProperty(props[1..], name);
      assert forall k :: 0 < k < |props| ==> props[k] == props[1..][k - 1];
      r
  }

  /** The index of the first property with this name, or -1 (`NamedValueSet::indexOf`). */
  function IndexOf(props: seq<Property>, name: string): (k: int)
    ensures -1 <= k < |props|
    ensures k >= 0 ==> props[k].name == name && forall j :: 0 <= j < k ==> props[j].name != name
    ensures k < 0 ==> forall j :: 0 <= j < |props| ==> props[j].name != name
  {
    if |props| == 0 then -1
    else if props[|props| - 1].name == name && IndexOf(props[..|props| - 1], name) < 0 then |props| - 1
    else IndexOf(props[..|props| - 1], name)
  }

  /**
   * `DynamicObject::setProperty`: an existing property keeps its place and
   * takes the new value; a new name is appended.
   */
  function SetProperty(props: seq<Property>, name: string, v: Var): (r: seq<Property>)
    ensures |r| == |props| || r == props + [Property(name, v)]
  {
    var k := IndexOf(props, name);
    if k < 0 then props + [Property(name, v)] else props[k := Property(name, v)]
  }

  /** After setting a property, reading it gives the new value and every other name reads as before. */
  lemma {:induction false} GetAfterSet(props: seq<Property>, name: string, v: Var, other: string)
    ensures GetProperty(SetProperty(props, name, v), name) == Some(v)
    ensures other != name ==> GetProperty(SetProperty(props, name, v), other) == GetProperty(props, other)
  {
    var r := SetProperty(props, name, v);
    var k := IndexOf(props, name);
    if k < 0 {
      GetOfAppend(props, Property(name, v), name);
      GetOfAppend(props, Property(name, v), other);
    } else {
      GetOfUpdate(props, k, Property(name, v), name);
      GetOfUpdate(props, k, Property(name, v), other);
    }
  }

  lemma {:induction false} GetOfAppend(props: seq<Property>, p: Property, name: string)
    ensures GetProperty(props + [p], name) ==
      if IndexOf(props, name) >= 0 then GetProperty(props, name)
      else if p.name == name then Some(p.value) else None
    decreases |props|
  {
    if |props| > 0 {
      assert (props + [p])[1..] == props[1..] + [p];
      GetOfAppend(props[1..], p, name);
      IndexOfTail(props, name);
    }
  }

  lemma {:induction false} GetOfUpdate(props: seq<Property>, k: nat, p: Property, name: string)
    requires k < |props| && props[k].name == p.name
    requires forall j :: 0 <= j < k ==> props[j].name != p.name
    ensures GetProperty(props[k := p], name) ==
      if name == p.name then Some(p.value) else GetProperty(props, name)
    decreases |props|
  {
    if k > 0 {
      assert props[k := p][1..] == props[1..][k - 1 := p];
      GetOfUpdate(props[1..], k - 1, p, name);
    }
  }

  /** IndexOf seen from the front: the first entry, else one more than its index in the tail. */
  lemma {:induction false} IndexOfTail(props: seq<Property>, name: string)
    requires |props| > 0
    ensures IndexOf(props, name) >= 0 <==> props[0].name == name || IndexOf(props[1..], name) >= 0
  {
    var k := IndexOf(props, name);
    var t := IndexOf(props[1..], name);
    if props[0].name != name && t >= 0 {
      assert props[t + 1].name == name;
    }
    if k > 0 {
      assert props[1..][k - 1].name == name;
    }
  }

  /** Names that occur at most once, as in every NamedValueSet. */
  predicate UniqueNames(props: seq<Property>)
  {
    forall i, j :: 0 <= i < j < |props| ==> props[i].name != props[j].name
  }
}
