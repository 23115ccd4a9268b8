// Runtime: the typed data wrapped in `var` values (Runtime::Data<T>), the
// type errors raised when a value has the wrong kind, the text shown for
// a value, the expression-call adapter, and the builtin native functions.
module Runtime {
  import opened Wrappers
  import opened Vars
  import Text

  // ---------------------------------------------------------------------
  // Data kinds, names and summaries

  /** One kind per DataTypeInfo specialisation. */
  datatype DataKind = KArray1 | KArray2 | KArray3 | KColours | KArtist | KMapping | KFloat1 | KFloat2 | KFloat4

  function KindOf(d: Data): DataKind
  {
    match d
    case Array1(_) => KArray1
    case Array2(_, _) => KArray2
    case Array3(_, _, _) => KArray3
    case ColourList(_) => KColours
    case Artist(_) => KArtist
    case Mapping(_, _) => KMapping
    case Float1Buffer(_) => KFloat1
    case Float2Buffer(_) => KFloat2
    case Float4Buffer(_) => KFloat4
  }

  /** `DataTypeInfo<T>::name ()`: the C++ type name of each kind, all different. */
  function KindName(k: DataKind): (s: string)
    ensures forall k' :: k' != k ==> KindName'(k') != s
  {
    KindName'(k)
  }

  function KindName'(k: DataKind): string
  {
    match k
    case KArray1 => "nd::array<double, 1>"
    case KArray2 => "nd::array<double, 2>"
    case KArray3 => "nd::array<double, 3>"
    case KColours => "Array<Colour>"
    case KArtist => "std::shared_ptr<PlotArtist>"
    case KMapping => "ScalarMapping"
    case KFloat1 => "DeviceBufferFloat1"
    case KFloat2 => "DeviceBufferFloat2"
    case KFloat4 => "DeviceBufferFloat4"
  }

  function Nat(n: nat): string { Text.IntToString(n) }

  /**
   * `DataTypeInfo<T>::summary`: the shape of an array, the number of colours,
   * the end points of a mapping (printed by `fixedText`, as `std::to_string`
   * prints a double) and the size of a device buffer.
   */
  function Summary(d: Data, fixedText: real -> string): string
  {
    match d
    case Array1(values) => "double[" + Nat(|values|) + "]"
    case Array2(ni, nj) => "double[" + Nat(ni) + ", " + Nat(nj) + "]"
    case Array3(ni, nj, nk) => "double[" + Nat(ni) + ", " + Nat(nj) + ", " + Nat(nk) + "]"
    case ColourList(cs) => "color[" + Nat(|cs|) + "]"
    case Artist(_) => "PlotArtist"
    case Mapping(vmin, vmax) => "mapping(" + fixedText(vmin) + " -> " + fixedText(vmax) + ")"
    case Float1Buffer(n) => "device::float1[" + Nat(n) + "]"
    case Float2Buffer(n) => "device::float2[" + Nat(n) + "]"
    case Float4Buffer(n) => "device::float4[" + Nat(n) + "]"
  }

  /** The shape of an array can be read back from its summary. */
  lemma SummaryOfArray1(values: seq<real>, fixedText: real -> string)
    ensures var s := Summary(Array1(values), fixedText);
      |s| > 8 && s[..7] == "double[" && s[|s| - 1] == ']' && Text.IntValue(s[7..|s| - 1]) == |values|
  {
    var s := Summary(Array1(values), fixedText);
    assert s[7..|s| - 1] == Nat(|values|);
    Text.IntValueOfIntToString(|values|);
  }

  /** `type_name`: the data name of wrapped data, otherwise the value's text. */
  function TypeName(v: Var, c: Conversions): (s: string)
    ensures v.Wrapped? ==> s == KindName(KindOf(v.data))
    ensures !v.Wrapped? ==> s == c.toText(v)
  {
    if v.Wrapped? then KindName(KindOf(v.data)) else c.toText(v)
  }

  /**
   * `make_type_error`: an optional "caller: " prefix, "expected E, got T",
   * and " at index i" unless the index is -1.
   */
  function MakeTypeError(expected: string, v: Var, caller: Option<string>, index: int, c: Conversions): string
  {
    (if caller.Some? then caller.value + ": " else "")
    + "expected " + expected + ", got " + TypeName(v, c)
    + (if index == -1 then "" else " at index " + Text.IntToString(index))
  }

  /** The message starts with the caller's prefix, then "expected ". */
  lemma MakeTypeErrorStart(expected: string, v: Var, caller: Option<string>, index: int, c: Conversions)
    ensures var m := MakeTypeError(expected, v, caller, index, c);
      var p := if caller.Some? then caller.value + ": " else "";
      |p| + 9 <= |m| && m[..|p|] == p && m[|p|..|p| + 9] == "expected "
  {
    var p := if caller.Some? then caller.value + ": " else "";
    var a := p + "expected ";
    var b := a + expected + ", got " + TypeName(v, c);
    var m := b + (if index == -1 then "" else " at index " + Text.IntToString(index));
    assert m == MakeTypeError(expected, v, caller, index, c);
    assert m[..|a|] == a by {
      TakeOfAppend(a + expected + ", got ", TypeName(v, c), |a|);
      TakeOfAppend(a + expected, ", got ", |a|);
      TakeOfAppend(a, expected, |a|);
      TakeOfAppend(b, if index == -1 then "" else " at index " + Text.IntToString(index), |a|);
    }
    assert a[..|p|] == p && a[|p|..] == "expected ";
  }

  lemma TakeOfAppend(a: string, b: string, n: nat)
    requires n <= |a|
    ensures (a + b)[..n] == a[..n]
  {
  }

  /** Without an index the message ends with the type found. */
  lemma MakeTypeErrorEnd(expected: string, v: Var, caller: Option<string>, c: Conversions)
    ensures Text.EndsWith(MakeTypeError(expected, v, caller, -1, c), ", got " + TypeName(v, c))
  {
    var p := if caller.Some? then caller.value + ": " else "";
    assert MakeTypeError(expected, v, caller, -1, c) == (p + "expected " + expected) + (", got " + TypeName(v, c));
    EndsWithAppend(p + "expected " + expected, ", got " + TypeName(v, c));
  }

  /** With an index the message ends with " at index " and the index, whose digits read back. */
  lemma MakeTypeErrorAtIndex(expected: string, v: Var, caller: Option<string>, index: int, c: Conversions)
    requires index != -1
    ensures var m := MakeTypeError(expected, v, caller, index, c);
      Text.EndsWith(m, " at index " + Text.IntToString(index)) &&
      Text.IntValue(m[|m| - |Text.IntToString(index)|..]) == index
  {
    var digits := Text.IntToString(index);
    var front := MakeTypeError(expected, v, caller, -1, c);
    assert MakeTypeError(expected, v, caller, index, c) == front + (" at index " + digits);
    EndsWithAppend(front, " at index " + digits);
    assert front + (" at index " + digits) == (front + " at index ") + digits;
    EndsWithAppend(front + " at index ", digits);
    Text.IntValueOfIntToString(index);
  }

  /** A concatenation ends with its second part. */
  lemma EndsWithAppend(a: string, b: string)
    ensures Text.EndsWith(a + b, b) && (a + b)[|a + b| - |b|..] == b
  {
  }

  /** `check_data<T>`: the wrapped value when the kind matches, otherwise the type error. */
  function CheckData(v: Var, k: DataKind, caller: Option<string>, index: int, c: Conversions): (r: Result<Data>)
    ensures r.Ok? <==> v.Wrapped? && KindOf(v.data) == k
    ensures r.Ok? ==> r.value == v.data
    ensures r.Err? ==> r.error == MakeTypeError(KindName(k), v, caller, index, c)
  {
    if v.Wrapped? && KindOf(v.data) == k then Ok(v.data)
    else Err(MakeTypeError(KindName(k), v, caller, index, c))
  }

  /** `opt_data<T>`: the wrapped value when the kind matches, otherwise nothing. */
  function OptData(v: Var, k: DataKind): (r: Option<Data>)
    ensures r.Some? <==> v.Wrapped? && KindOf(v.data) == k
    ensures r.Some? ==> r.value == v.data
  {
    if v.Wrapped? && KindOf(v.data) == k then Some(v.data) else None
  }

  /** `opt_data` gives nothing exactly where `check_data` throws, and the same value otherwise. */
  lemma OptDataAgreesWithCheckData(v: Var, k: DataKind, caller: Option<string>, index: int, c: Conversions)
    ensures OptData(v, k).None? <==> CheckData(v, k, caller, index, c).Err?
    ensures OptData(v, k).Some? ==> CheckData(v, k, caller, index, c) == Ok(OptData(v, k).value)
  {
  }

  /** `represent`: a data summary, "list[]" for arrays, "dict{}" for objects, otherwise the value's text. */
  function Represent(v: Var, c: Conversions, fixedText: real -> string): (s: string)
    ensures v.Wrapped? ==> s == Summary(v.data, fixedText)
    ensures v.List? ==> s == "list[]"
    ensures v.Object? ==> s == "dict{}"
    ensures !v.Wrapped? && !v.List? && !v.Object? ==> s == c.toText(v)
  {
    if v.Wrapped? then Summary(v.data, fixedText)
    else if v.List? then "list[]"
    else if v.Object? then "dict{}"
    else c.toText(v)
  }

  // ---------------------------------------------------------------------
  // VarCallAdapter

  /** One resolved part of an expression: its keyword (empty when positional) and its value. */
  datatype Part = Part(key: string, value: Var)

  /** The arguments a native function receives: the keyword object and the positional arguments. */
  datatype NativeArgs = NativeArgs(thisObject: seq<Property>, arguments: seq<Var>)

  /** The positional arguments: the parts after the head without a keyword, in order. */
  function Positional(parts: seq<Part>): (args: seq<Var>)
    ensures |args| <= |parts|
  {
    if |parts| == 0 then []
    else
      var rest := Positional(parts[..|parts| - 1]);
      var last := parts[|parts| - 1];
      if |parts| == 1 || last.key != "" then rest else rest + [last.value]
  }

  /** The keyword object: the parts after the head that have a keyword, set in order on `init`. */
  function Keywords(parts: seq<Part>, init: seq<Property>): seq<Property>
  {
    if |parts| == 0 then init
    else
      var rest := Keywords(parts[..|parts| - 1], init);
      var last := parts[|parts| - 1];
      if |parts| == 1 || last.key == "" then rest else SetProperty(rest, last.key, last.value)
  }

  /**
   * What `call` returns: void when the bailout callback fires before
   * anything is evaluated; the "not a function" error when the head is not a
   * native function; otherwise the native function applied to the keyword
   * object (holding the bailout checker first, when there is a callback) and
   * the positional arguments.
   */
  function CallResult(parts: seq<Part>, bailout: Option<bool>, checkerKey: string,
                      apply: (string, NativeArgs) -> Result<Var>): Result<Var>
  {
    if bailout == Some(true) then Ok(Void)
    else
      var init := if bailout.Some? then SetProperty([], checkerKey, Checker) else [];
      if |parts| == 0 || !parts[0].value.Native? then Err("expression head is not a function")
      else apply(parts[0].value.name, NativeArgs(Keywords(parts, init), Positional(parts)))
  }

  /** `VarCallAdapter::call`: one pass over the parts, sorting each into head, positional or keyword. */
  method Call(parts: seq<Part>, bailout: Option<bool>, checkerKey: string,
              apply: (string, NativeArgs) -> Result<Var>) returns (r: Result<Var>)
    ensures r == CallResult(parts, bailout, checkerKey, apply)
    ensures bailout == Some(true) ==> r == Ok(Void)
    ensures bailout != Some(true) && (|parts| == 0 || !parts[0].value.Native?) ==>
      r == Err("expression head is not a function")
  {
    var head := Void;
    var self: seq<Property> := [];
    var args: seq<Var> := [];
    if bailout.Some? {
      if bailout.value {
        return Ok(Void);
      }
      self := SetProperty(self, checkerKey, Checker);
    }
    ghost var init := self;
    var k := 0;
    while k < |parts|
      invariant 0 <= k <= |parts|
      invariant k > 0 ==> head == parts[0].value
      invariant k == 0 ==> head == Void
      invariant args == Positional(parts[..k])
      invariant self == Keywords(parts[..k], init)
    {
      assert parts[..k + 1][..k] == parts[..k];
      if k == 0 {
        head := parts[k].value;
      } else if parts[k].key == "" {
        args := args + [parts[k].value];
      } else {
        self := SetProperty(self, parts[k].key, parts[k].value);
      }
      k := k + 1;
    }
    assert parts[..|parts|] == parts;
    if !head.Native? {
      return Err("expression head is not a function");
    }
    r := apply(head.name, NativeArgs(self, args));
  }

  /** `x` is the value of a part after the head that has no keyword. */
  ghost predicate IsPositionalPart(parts: seq<Part>, x: Var)
  {
    exists j :: 1 <= j < |parts| && parts[j].key == "" && parts[j].value == x
  }

  /** Every positional argument comes from a part after the head that has no keyword; without keywords, all of them do. */
  lemma {:induction false} PositionalInOrder(parts: seq<Part>)
    ensures forall i :: 0 <= i < |Positional(parts)| ==> IsPositionalPart(parts, Positional(parts)[i])
    ensures (forall j :: 1 <= j < |parts| ==> parts[j].key == "") ==> |Positional(parts)| == Max0(|parts| - 1)
  {
    if |parts| > 0 {
      var init := parts[..|parts| - 1];
      PositionalInOrder(init);
      var rest := Positional(init);
      forall i | 0 <= i < |Positional(parts)|
        ensures IsPositionalPart(parts, Positional(parts)[i])
      {
        if i < |rest| {
          assert IsPositionalPart(init, rest[i]);
          var j :| 1 <= j < |init| && init[j].key == "" && init[j].value == rest[i];
          assert parts[j] == init[j];
        } else {
          assert Positional(parts) == rest + [parts[|parts| - 1].value];
          assert parts[|parts| - 1].value == Positional(parts)[i];
        }
      }
      if forall j :: 1 <= j < |parts| ==> parts[j].key == "" {
        assert forall j :: 1 <= j < |init| ==> init[j] == parts[j];
      }
    }
  }

  /**
   * Every keyword part after the head is a property of the keyword object,
   * holding the value of the last part with that keyword; the initial
   * properties stay unless a part reuses their name.
   */
  lemma KeywordsHoldLastValue(parts: seq<Part>, init: seq<Property>, key: string)
    ensures (exists j :: 1 <= j < |parts| && parts[j].key == key && key != "") ==>
      GetProperty(Keywords(parts, init), key) == Some(parts[LastWithKey(parts, key)].value)
    ensures (forall j :: 1 <= j < |parts| ==> parts[j].key != key) ==>
      GetProperty(Keywords(parts, init), key) == GetProperty(init, key)
  {
    LastWithKeyFinds(parts, key);
    if key != "" && LastWithKey(parts, key) > 0 {
      KeywordsAtLastWithKey(parts, init, key);
    } else {
      KeywordsWithoutKey(parts, init, key);
    }
  }

  /** A keyword's property holds the value of the last part with that keyword. */
  lemma {:induction false} KeywordsAtLastWithKey(parts: seq<Part>, init: seq<Property>, key: string)
    requires key != "" && LastWithKey(parts, key) > 0
    ensures GetProperty(Keywords(parts, init), key) == Some(parts[LastWithKey(parts, key)].value)
  {
    var front := parts[..|parts| - 1];
    var last := parts[|parts| - 1];
    var rest := Keywords(front, init);
    if last.key == key {
      GetAfterSet(rest, key, last.value, key);
    } else {
      KeywordsAtLastWithKey(front, init, key);
      assert parts[LastWithKey(parts, key)] == front[LastWithKey(front, key)];
      if |parts| > 1 && last.key != "" {
        GetAfterSet(rest, last.key, last.value, key);
      }
    }
  }

  /** A name no part after the head uses as keyword keeps its initial value. */
  lemma {:induction false} KeywordsWithoutKey(parts: seq<Part>, init: seq<Property>, key: string)
    requires key == "" || LastWithKey(parts, key) == 0
    ensures GetProperty(Keywords(parts, init), key) == GetProperty(init, key)
  {
    if |parts| > 0 {
      var front := parts[..|parts| - 1];
      var last := parts[|parts| - 1];
      KeywordsWithoutKey(front, init, key);
      if |parts| > 1 && last.key != "" {
        GetAfterSet(Keywords(front, init), last.key, last.value, key);
      }
    }
  }

  /** The last part with a keyword is found exactly when some part after the head has it. */
  lemma {:induction false} LastWithKeyFinds(parts: seq<Part>, key: string)
    ensures LastWithKey(parts, key) > 0 <==> exists j :: 1 <= j < |parts| && parts[j].key == key
  {
    if |parts| > 1 && parts[|parts| - 1].key != key {
      var front := parts[..|parts| - 1];
      LastWithKeyFinds(front, key);
      if exists j :: 1 <= j < |parts| && parts[j].key == key {
        var j :| 1 <= j < |parts| && parts[j].key == key;
        assert front[j] == parts[j];
      }
    }
  }

  /** The index of the last part after the head with this keyword, or 0 when there is none. */
  function LastWithKey(parts: seq<Part>, key: string): (j: nat)
    ensures j < |parts| || j == 0
    ensures j > 0 ==> parts[j].key == key && forall i :: j < i < |parts| ==> parts[i].key != key
  {
    if |parts| <= 1 then 0
    else if parts[|parts| - 1].key == key then |parts| - 1
    else LastWithKey(parts[..|parts| - 1], key)
  }

  function Max0(n: int): nat { if n < 0 then 0 else n }

  /**
   * `VarCallAdapter::at`: the value bound to the key in the scope, or an
   * empty value when the scope has none.
   */
  function At(scope: map<string, Var>, key: string): (v: Var)
    ensures key !in scope ==> v == Void
    ensures key in scope ==> v == scope[key]
  {
    if key in scope then scope[key] else Void
  }

  // ---------------------------------------------------------------------
  // Builtins

  function MissingArgument(caller: string, index: nat): string
  {
    caller + ": required argument at index " + Text.IntToString(index) + " not found"
  }

  /** `builtin::checkArg`: the argument at the index, or the "not found" error past the end. */
  function CheckArg(caller: string, args: NativeArgs, index: nat): (r: Result<Var>)
    ensures r.Err? <==> index >= |args.arguments|
    ensures r.Err? ==> r.error == MissingArgument(caller, index)
    ensures r.Ok? ==> r.value == args.arguments[index]
  {
    if index >= |args.arguments| then Err(MissingArgument(caller, index)) else Ok(args.arguments[index])
  }

  /**
   * `builtin::checkArgData`: as `checkArg`, and the argument must hold data
   * of the kind; a type error is replaced by "wrong type for argument".
   */
  function CheckArgData(caller: string, args: NativeArgs, index: nat, k: DataKind, c: Conversions): (r: Result<Data>)
    ensures r.Err? <==> index >= |args.arguments| || CheckData(args.arguments[index], k, None, -1, c).Err?
    ensures index >= |args.arguments| ==> r == Err(MissingArgument(caller, index))
    ensures index < |args.arguments| && r.Err? ==>
      r.error == caller + ": wrong type for argument at index " + Text.IntToString(index)
    ensures r.Ok? ==> args.arguments[index] == Wrapped(r.value) && KindOf(r.value) == k
  {
    if index >= |args.arguments| then Err(MissingArgument(caller, index))
    else
      match CheckData(args.arguments[index], k, None, -1, c)
      case Ok(d) => Ok(d)
      case Err(_) => Err(caller + ": wrong type for argument at index " + Text.IntToString(index))
  }

  /** `builtin::list`: all arguments, in order. */
  function ListBuiltin(args: NativeArgs): (v: Var)
    ensures v.List? && v.items == args.arguments
  {
    List(args.arguments)
  }

  /** `builtin::dict`: the keyword object. */
  function DictBuiltin(args: NativeArgs): (v: Var)
    ensures v.Object? && v.props == args.thisObject
  {
    Object(args.thisObject)
  }

  /**
   * `builtin::item`: the element of the first argument at the index given by
   * the second. Indexing a `var` asserts that it is an array and that the
   * index is in range, so the caller must supply such arguments.
   */
  function ItemBuiltin(args: NativeArgs): (r: Result<Var>)
    requires |args.arguments| >= 2 ==>
      args.arguments[0].List? && 0 <= ToInt(args.arguments[1]) < |args.arguments[0].items|
    ensures |args.arguments| == 0 ==> r == Err(MissingArgument("item", 0))
    ensures |args.arguments| == 1 ==> r == Err(MissingArgument("item", 1))
    ensures |args.arguments| >= 2 ==> r == Ok(args.arguments[0].items[ToInt(args.arguments[1])])
  {
    var a :- CheckArg("item", args, 0);
    var i :- CheckArg("item", args, 1);
    Ok(a.items[ToInt(i)])
  }

  /**
   * `builtin::attr` (defined, never registered): the property of the first
   * argument named by the second argument's text, or void.
   */
  function AttrBuiltin(args: NativeArgs, c: Conversions): (r: Result<Var>)
    ensures |args.arguments| < 2 ==> r.Err?
    ensures |args.arguments| >= 2 && args.arguments[0].Object? ==>
      r == Ok(match GetProperty(args.arguments[0].props, c.toText(args.arguments[1]))
              case Some(v) => v
              case None => Void)
    ensures |args.arguments| >= 2 && !args.arguments[0].Object? ==> r == Ok(Void)
  {
    var a :- CheckArg("attr", args, 0);
    var n :- CheckArg("attr", args, 1);
    if a.Object? then
      match GetProperty(a.props, c.toText(n))
      case Some(v) => Ok(v)
      case None => Ok(Void)
    else Ok(Void)
  }

  /**
   * `builtin::linspace`: three arguments read as start, end and count; the
   * values come from `nd::linspace`, which is not part of this model and is
   * passed as `ndLinspace`.
   */
  function LinspaceBuiltin(args: NativeArgs, c: Conversions, ndLinspace: (real, real, int) -> seq<real>): (r: Result<Var>)
    ensures r.Err? <==> |args.arguments| < 3
    ensures r.Err? ==> r.error == MissingArgument("linspace", |args.arguments|)
    ensures r.Ok? ==> r.value == Wrapped(Array1(ndLinspace(c.toReal(args.arguments[0]),
                                                           c.toReal(args.arguments[1]),
                                                           ToInt(args.arguments[2]))))
  {
    var x0 :- CheckArg("linspace", args, 0);
    var x1 :- CheckArg("linspace", args, 1);
    var num :- CheckArg("linspace", args, 2);
    Ok(Wrapped(Array1(ndLinspace(c.toReal(x0), c.toReal(x1), ToInt(num)))))
  }

  function SizeMismatch(nx: nat, ny: nat): string
  {
    "x and y have different sizes: " + Text.IntToString(nx) + " and " + Text.IntToString(ny)
  }

  /**
   * `builtin::plot`: two one-dimensional arrays of equal size make a line
   * artist (`artistId` names the new object); a missing or mistyped argument
   * or a size mismatch is an error.
   */
  function PlotBuiltin(args: NativeArgs, c: Conversions, artistId: nat): (r: Result<Var>)
    ensures r.Ok? <==>
      |args.arguments| >= 2 && args.arguments[0].Wrapped? && args.arguments[0].data.Array1? &&
      args.arguments[1].Wrapped? && args.arguments[1].data.Array1? &&
      |args.arguments[0].data.values| == |args.arguments[1].data.values|
    ensures r.Ok? ==> r.value == Wrapped(Artist(ArtistRef(artistId, false)))
    ensures (|args.arguments| >= 2 && args.arguments[0].Wrapped? && args.arguments[0].data.Array1? &&
             args.arguments[1].Wrapped? && args.arguments[1].data.Array1? && r.Err?) ==>
      r.error == SizeMismatch(|args.arguments[0].data.values|, |args.arguments[1].data.values|)
  {
    var x :- CheckArgData("plot", args, 0, KArray1, c);
    var y :- CheckArgData("plot", args, 1, KArray1, c);
    if |x.values| != |y.values| then Err(SizeMismatch(|x.values|, |y.values|))
    else Ok(Wrapped(Artist(ArtistRef(artistId, false))))
  }

  /** `Runtime::Flags::builtin`. */
  const BuiltinFlag := 2

  datatype KernelEntry = KernelEntry(value: Var, flags: int)

  /** The entries `load_builtins` inserts: five native functions, each flagged builtin. */
  function Builtins(): (m: map<string, KernelEntry>)
    ensures m.Keys == {"list", "dict", "item", "plot", "linspace"}
    ensures forall n :: n in m ==> m[n] == KernelEntry(Native(n), BuiltinFlag)
  {
    map["list" := KernelEntry(Native("list"), BuiltinFlag),
        "dict" := KernelEntry(Native("dict"), BuiltinFlag),
        "item" := KernelEntry(Native("item"), BuiltinFlag),
        "plot" := KernelEntry(Native("plot"), BuiltinFlag),
        "linspace" := KernelEntry(Native("linspace"), BuiltinFlag)]
  }

  /** The evaluation kernel's table of named values, which `insert` overwrites by name. */
  class Kernel {
    var entries: map<string, KernelEntry>

    constructor ()
      ensures entries == map[]
    {
      entries := map[];
    }

    method Insert(name: string, value: Var, flags: int)
      modifies this
      ensures entries == old(entries)[name := KernelEntry(value, flags)]
    {
      entries := entries[name := KernelEntry(value, flags)];
    }
  }

  /** `load_builtins`: five inserts; every other entry, "attr" included, is left as it was. */
  method LoadBuiltins(kernel: Kernel)
    modifies kernel
    ensures kernel.entries == old(kernel.entries) + Builtins()
    ensures "attr" in kernel.entries <==> "attr" in old(kernel.entries)
  {
    kernel.Insert("list", Native("list"), BuiltinFlag);
    kernel.Insert("dict", Native("dict"), BuiltinFlag);
    kernel.Insert("item", Native("item"), BuiltinFlag);
    kernel.Insert("plot", Native("plot"), BuiltinFlag);
    kernel.Insert("linspace", Native("linspace"), BuiltinFlag);
  }
}
