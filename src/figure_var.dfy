// FigureModel::toVar and the properties that relate it to fromVar: the
// guarded setProperty calls that write a figure as a DynamicObject, and the
// proof that fromVar reads back what a corrected toVar writes.
module FigureVars {
  import opened Wrappers
  import opened Colours
  import opened Geometry
  import opened Vars
  import DataHelpers
  import opened FigureModels

  // Writing a figure to a var

  /** The two spellings of the colour names: `fromVar` reads "margin-color", `toVar` writes "margin-colour". */
  datatype Spelling = American | British

  /** The keys `toVar` writes, in its order: every key but the content. */
  const WriteKeys: seq<Key> := [
    Xmin, Xmax, Ymin, Ymax, Id, Title, Xlabel, Ylabel,
    TitleShowing, XlabelShowing, YlabelShowing, CanEditMargin, CanEditTitle, CanEditXlabel, CanEditYlabel, CanDeformDomain,
    Margin, BorderWidth, AxesWidth, GridlinesWidth, TickLength, TickWidth, TickLabelPadding, TickLabelWidth, TickLabelHeight,
    XtickCount, YtickCount,
    MarginColour, BorderColour, BackgroundColour, GridlinesColour,
    Capture]

  predicate IsColourKey(k: Key)
  {
    k.MarginColour? || k.BorderColour? || k.BackgroundColour? || k.GridlinesColour?
  }

  /** The name a key is written under: its own name, but the colours in the given spelling. */
  function WrittenName(k: Key, spelling: Spelling): string
  {
    if IsColourKey(k) then ColourName(k, spelling) else KeyName(k)
  }

  /** The name of one of the four colours in the given spelling; the spelling `fromVar` reads is the key's own name. */
  function ColourName(k: Key, spelling: Spelling): string
    requires IsColourKey(k)
  {
    match spelling
    case American => KeyName(k)
    case British =>
      if k.MarginColour? then "margin-colour"
      else if k.BorderColour? then "border-colour"
      else if k.BackgroundColour? then "background-colour"
      else "gridlines-colour"
  }

  /**
   * The value `toVar` writes for a key: numbers, texts and flags as
   * themselves, the margin and the capture map through DataHelpers, the
   * colours as their `Colour::toString ()` text, and the content as its
   * array of artists (which `toVar` never writes).
   */
  function Value(m: FigureModel, k: Key, c: Conversions): Var
  {
    match k
    case Xmin => Double(m.xmin)
    case Xmax => Double(m.xmax)
    case Ymin => Double(m.ymin)
    case Ymax => Double(m.ymax)
    case Id => Str(m.id)
    case Title => Str(m.title)
    case Xlabel => Str(m.xlabel)
    case Ylabel => Str(m.ylabel)
    case TitleShowing => Bool(m.titleShowing)
    case XlabelShowing => Bool(m.xlabelShowing)
    case YlabelShowing => Bool(m.ylabelShowing)
    case CanEditMargin => Bool(m.canEditMargin)
    case CanEditTitle => Bool(m.canEditTitle)
    case CanEditXlabel => Bool(m.canEditXlabel)
    case CanEditYlabel => Bool(m.canEditYlabel)
    case CanDeformDomain => Bool(m.canDeformDomain)
    case Margin => c.varFromBorder(m.margin)
    case BorderWidth => Double(m.borderWidth)
    case AxesWidth => Double(m.axesWidth)
    case GridlinesWidth => Double(m.gridlinesWidth)
    case TickLength => Double(m.tickLength)
    case TickWidth => Double(m.tickWidth)
    case TickLabelPadding => Double(m.tickLabelPadding)
    case TickLabelWidth => Double(m.tickLabelWidth)
    case TickLabelHeight => Double(m.tickLabelHeight)
    case XtickCount => Int(m.xtickCount)
    case YtickCount => Int(m.ytickCount)
    case MarginColour => Str(ColourText(m.marginColour))
    case BorderColour => Str(ColourText(m.borderColour))
    case BackgroundColour => Str(ColourText(m.backgroundColour))
    case GridlinesColour => Str(ColourText(m.gridlinesColour))
    case Content => List(ArtistVars(m.content))
    case Capture => c.varFromStringMap(m.capture)
  }

  /** The artists of the content, each wrapped in a var, in order. */
  function ArtistVars(artists: seq<ArtistRef>): (r: seq<Var>)
    ensures |r| == |artists| && forall i :: 0 <= i < |artists| ==> r[i] == Wrapped(Artist(artists[i]))
  {
    if |artists| == 0 then [] else ArtistVars(artists[..|artists| - 1]) + [Wrapped(Artist(artists[|artists| - 1]))]
  }

  /**
   * The test in front of each `setProperty` of `toVar`: the field differs
   * from the default model's. For the id the caller supplies the test.
   */
  predicate Differs(m: FigureModel, k: Key, idWritten: bool)
  {
    if k == Id then idWritten else Field(m, k) != Field(Default, k)
  }


  /** The `setProperty` calls of `toVar`, key by key: whether one is made, under which name, with which value. */
  datatype Writer = Writer(written: Key -> bool, name: Key -> string, value: Key -> Var)

  /** The calls `toVar` makes for a model, given its "id" test and colour spelling. */
  function WriterOf(m: FigureModel, idWritten: bool, spelling: Spelling, c: Conversions): Writer
  {
    Writer(k => Differs(m, k, idWritten), k => WrittenName(k, spelling), k => Value(m, k, c))
  }

  /** The calls for the keys `ks`, in order, on a fresh DynamicObject. */
  function PutAll(ks: seq<Key>, w: Writer): seq<Property>
  {
    if |ks| == 0 then []
    else
      var k := ks[|ks| - 1];
      var props := PutAll(ks[..|ks| - 1], w);
      if w.written(k) then SetProperty(props, w.name(k), w.value(k)) else props
  }

  /** The properties of `toVar` for a given "id" test and colour spelling; the content is never written. */
  function ToProps(m: FigureModel, idWritten: bool, spelling: Spelling, c: Conversions): seq<Property>
  {
    PutAll(WriteKeys, WriterOf(m, idWritten, spelling, c))
  }

  /**
   * `toVar` as written: "id" is written whenever the title differs from the
   * default id, and the colours go under the "-colour" names.
   */
  function ToVarAsWritten(m: FigureModel, c: Conversions): Var
  {
    Object(ToProps(m, m.title != Default.id, British, c))
  }

  /** `toVar` with "id" written when the id differs from the default, and the colours under the names `fromVar` reads. */
  function ToVar(m: FigureModel, c: Conversions): Var
  {
    Object(ToProps(m, m.id != Default.id, American, c))
  }

  // ---------------------------------------------------------------------
  // The object the calls build

  /** `setProperty` keeps the names of a DynamicObject distinct. */
  lemma SetPropertyKeepsUnique(props: seq<Property>, name: string, v: Var)
    requires UniqueNames(props)
    ensures UniqueNames(SetProperty(props, name, v))
  {
  }

  /** Each entry after a `setProperty` is the new one or the entry that was there. */
  lemma SetPropertyEntries(props: seq<Property>, name: string, v: Var)
    ensures var r := SetProperty(props, name, v);
      forall j :: 0 <= j < |r| ==> r[j] == Property(name, v) || (j < |props| && r[j] == props[j])
  {
  }

  /** A name no call is made under is not held by the object. */
  lemma {:induction false} PutAllOmits(ks: seq<Key>, w: Writer, name: string)
    requires forall k :: k in ks && w.written(k) ==> w.name(k) != name
    ensures forall j :: 0 <= j < |PutAll(ks, w)| ==> PutAll(ks, w)[j].name != name
  {
    if |ks| > 0 {
      var k := ks[|ks| - 1];
      var prefix := ks[..|ks| - 1];
      assert ks == prefix + [k];
      PutAllOmits(prefix, w, name);
      if w.written(k) {
        SetPropertyEntries(PutAll(prefix, w), w.name(k), w.value(k));
      }
    }
  }

  /** No two of the keys are written under the same name. */
  ghost predicate DistinctNames(ks: seq<Key>, w: Writer)
  {
    forall k1, k2 :: k1 in ks && k2 in ks && w.name(k1) == w.name(k2) ==> k1 == k2
  }

  /**
   * When the keys have distinct names, the object the calls build has
   * distinct names, and the name of every call made holds that call's value.
   */
  lemma {:induction false} PutAllHolds(ks: seq<Key>, w: Writer)
    requires DistinctNames(ks, w)
    ensures UniqueNames(PutAll(ks, w))
    ensures forall k :: k in ks && w.written(k) ==> GetProperty(PutAll(ks, w), w.name(k)) == Some(w.value(k))
  {
    if |ks| > 0 {
      var last := ks[|ks| - 1];
      var prefix := ks[..|ks| - 1];
      assert ks == prefix + [last];
      PutAllHolds(prefix, w);
      var before := PutAll(prefix, w);
      if w.written(last) {
        SetPropertyKeepsUnique(before, w.name(last), w.value(last));
        forall k | k in ks && w.written(k)
          ensures GetProperty(SetProperty(before, w.name(last), w.value(last)), w.name(k)) == Some(w.value(k))
        {
          GetAfterSet(before, w.name(last), w.value(last), w.name(k));
        }
      }
    }
  }

  // ---------------------------------------------------------------------
  // Names

  /** In the spelling `fromVar` reads, every key is written under its own name. */
  lemma ReadNames(k: Key)
    ensures WrittenName(k, American) == KeyName(k)
  {
  }

  /**
   * In the spelling `toVar` uses, a written name is a key's name only for
   * that same key, and never for a colour.
   */
  lemma WrittenNamesAsKeyNames(k: Key, other: Key)
    ensures WrittenName(k, British) == KeyName(other) <==> k == other && !IsColourKey(k)
  {
    KeyNameInjective(k, other);
    KeyHintOfKeyName(other);
  }

  /** In either spelling, no two keys are written under the same name. */
  lemma WrittenNamesDistinct(spelling: Spelling, k1: Key, k2: Key)
    ensures WrittenName(k1, spelling) == WrittenName(k2, spelling) ==> k1 == k2
  {
    if spelling == American {
      ReadNamesDistinct(k1, k2);
    } else {
      WrittenSpellingDistinct(k1, k2);
    }
  }

  lemma ReadNamesDistinct(k1: Key, k2: Key)
    ensures WrittenName(k1, American) == WrittenName(k2, American) ==> k1 == k2
  {
    ReadNames(k1);
    ReadNames(k2);
    KeyNameInjective(k1, k2);
  }

  lemma WrittenSpellingDistinct(k1: Key, k2: Key)
    ensures WrittenName(k1, British) == WrittenName(k2, British) ==> k1 == k2
  {
    if !IsColourKey(k2) {
      WrittenNamesAsKeyNames(k1, k2);
    } else if !IsColourKey(k1) {
      WrittenNamesAsKeyNames(k2, k1);
    } else {
      ColourNamesDistinct(k1, k2);
    }
  }

  lemma ColourNamesDistinct(k1: Key, k2: Key)
    requires IsColourKey(k1) && IsColourKey(k2)
    ensures WrittenName(k1, British) == WrittenName(k2, British) ==> k1 == k2
  {
    var n1 := ColourName(k1, British);
    var n2 := ColourName(k2, British);
    if k1 != k2 {
      assert n1[1] != n2[1] || n1[0] != n2[0];
    }
  }

  /** Outside the colours, both spellings use the key's own name. */
  lemma OwnName(spelling: Spelling, k: Key)
    requires spelling == American || !IsColourKey(k)
    ensures WrittenName(k, spelling) == KeyName(k)
  {
  }

  /** The calls of `toVar` in either spelling are made under distinct names. */
  lemma WriterNamesDistinct(m: FigureModel, idWritten: bool, spelling: Spelling, c: Conversions)
    ensures DistinctNames(WriteKeys, WriterOf(m, idWritten, spelling, c))
  {
    forall k1, k2 | WrittenName(k1, spelling) == WrittenName(k2, spelling)
      ensures k1 == k2
    {
      WrittenNamesDistinct(spelling, k1, k2);
    }
  }

  /** `toVar` writes every key but the content. */
  lemma WriteKeysCover(k: Key)
    ensures k in WriteKeys <==> k != Content
  {
    if k != Content {
      var i := Position(k);
      if i < 31 {
        assert WriteKeys[i] == AllKeys[i];
      } else {
        assert WriteKeys[31] == k;
      }
    }
  }

  /** In either spelling, the object `toVar` builds holds no "content" property. */
  lemma NoContentWritten(m: FigureModel, idWritten: bool, spelling: Spelling, c: Conversions)
    ensures var props := ToProps(m, idWritten, spelling, c);
      forall j :: 0 <= j < |props| ==> props[j].name != KeyName(Content)
  {
    var w := WriterOf(m, idWritten, spelling, c);
    forall k | k in WriteKeys
      ensures WrittenName(k, spelling) != KeyName(Content)
    {
      WriteKeysCover(k);
      OwnName(American, Content);
      WrittenNamesDistinct(American, Content, k);
      WrittenNamesAsKeyNames(k, Content);
    }
    PutAllOmits(WriteKeys, w, KeyName(Content));
  }

  // ---------------------------------------------------------------------
  // Reading the object back

  /** An object holding no "content" property always reads without error. */
  lemma FromPropsOk(s: FigureModel, props: seq<Property>, c: Conversions)
    requires forall j :: 0 <= j < |props| ==> props[j].name != KeyName(Content)
    ensures FromProps(s, props, c).Ok?
  {
    var step := ApplyStep(c);
    forall x: FigureModel, item: Property | step(x, item).Err?
      ensures item.name == KeyName(Content)
    {
      ApplyFailsOnlyOnContent(x, item, c);
    }
    WalkOk(s, props, step, KeyName(Content));
  }

  /** With faithful conversions, the value `toVar` writes for a key is not void and converts back to the key's field. */
  lemma DecodeValue(m: FigureModel, k: Key, c: Conversions)
    requires Faithful(c) && k != Content
    ensures !Value(m, k, c).Void? && Decode(k, Value(m, k, c), c) == Field(m, k)
  {
    match k
    case MarginColour => FromStringOfColourText(m.marginColour);
    case BorderColour => FromStringOfColourText(m.borderColour);
    case BackgroundColour => FromStringOfColourText(m.backgroundColour);
    case GridlinesColour => FromStringOfColourText(m.gridlinesColour);
    case _ =>
  }

  /** A property under a key's own name sets that field to what `convert` makes of it, unless it is void. */
  lemma ApplyOwnName(m: FigureModel, item: Property, k: Key, c: Conversions)
    requires item.name == KeyName(k) && k != Content
    ensures Apply(m, item, c).Ok?
    ensures Field(Apply(m, item, c).value, k) == if item.value.Void? then Field(m, k) else Decode(k, item.value, c)
  {
    KeyOfKeyName(k);
    SetOwnField(m, k, item.value, c);
  }

  /**
   * Over an object whose names are distinct, `fromVar` gives each field but
   * the content what `convert` makes of the property of its name; a field
   * with no property, or a void one, keeps the starting value.
   */
  lemma FromPropsDecodes(s: FigureModel, props: seq<Property>, k: Key, c: Conversions)
    requires UniqueNames(props) && FromProps(s, props, c).Ok? && k != Content
    ensures Field(FromProps(s, props, c).value, k) ==
      match GetProperty(props, KeyName(k))
      case None => Field(s, k)
      case Some(v) => if v.Void? then Field(s, k) else Decode(k, v, c)
  {
    var step := ApplyStep(c);
    var get := x => Field(x, k);
    var dec := v => Decode(k, v, c);
    forall x: FigureModel, item: Property | item.name != KeyName(k) && step(x, item).Ok?
      ensures get(step(x, item).value) == get(x)
    {
      ApplyOtherKey(x, item, k, c);
    }
    forall x: FigureModel, item: Property | item.name == KeyName(k) && step(x, item).Ok?
      ensures get(step(x, item).value) == if item.value.Void? then get(x) else dec(item.value)
    {
      ApplyOwnName(x, item, k, c);
    }
    WalkDecodes(s, props, step, KeyName(k), get, dec);
  }

  /**
   * Each field but the content, read back from what `toVar` writes in
   * either spelling: the model's own value when the call for it is made,
   * the default model's otherwise. A colour counts only in the readable
   * spelling.
   */
  lemma ReadBackField(m: FigureModel, idWritten: bool, spelling: Spelling, k: Key, c: Conversions)
    requires Faithful(c) && k != Content
    requires spelling == American || !IsColourKey(k)
    ensures var props := ToProps(m, idWritten, spelling, c);
      FromProps(Default, props, c).Ok? &&
      Field(FromProps(Default, props, c).value, k) == if Differs(m, k, idWritten) then Field(m, k) else Field(Default, k)
  {
    ToPropsReadsOk(m, idWritten, spelling, c);
    if Differs(m, k, idWritten) {
      ReadBackWritten(m, idWritten, spelling, k, c);
    } else {
      ReadBackUnwritten(m, idWritten, spelling, k, c);
    }
  }

  /** In either spelling, the object `toVar` builds has distinct names and reads without error. */
  lemma ToPropsReadsOk(m: FigureModel, idWritten: bool, spelling: Spelling, c: Conversions)
    ensures UniqueNames(ToProps(m, idWritten, spelling, c))
    ensures FromProps(Default, ToProps(m, idWritten, spelling, c), c).Ok?
  {
    NoContentWritten(m, idWritten, spelling, c);
    FromPropsOk(Default, ToProps(m, idWritten, spelling, c), c);
    WriterNamesDistinct(m, idWritten, spelling, c);
    PutAllHolds(WriteKeys, WriterOf(m, idWritten, spelling, c));
  }

  /** A field whose call is made reads back as the model's own value. */
  lemma ReadBackWritten(m: FigureModel, idWritten: bool, spelling: Spelling, k: Key, c: Conversions)
    requires Faithful(c) && k != Content && Differs(m, k, idWritten)
    requires spelling == American || !IsColourKey(k)
    requires UniqueNames(ToProps(m, idWritten, spelling, c)) && FromProps(Default, ToProps(m, idWritten, spelling, c), c).Ok?
    ensures Field(FromProps(Default, ToProps(m, idWritten, spelling, c), c).value, k) == Field(m, k)
  {
    var props := ToProps(m, idWritten, spelling, c);
    HoldsWrittenValue(m, idWritten, spelling, k, c);
    FromPropsDecodes(Default, props, k, c);
    DecodeValue(m, k, c);
  }

  /** The object holds, under a written key's own name, the value written for it. */
  lemma HoldsWrittenValue(m: FigureModel, idWritten: bool, spelling: Spelling, k: Key, c: Conversions)
    requires k != Content && Differs(m, k, idWritten)
    requires spelling == American || !IsColourKey(k)
    ensures GetProperty(ToProps(m, idWritten, spelling, c), KeyName(k)) == Some(Value(m, k, c))
  {
    var w := WriterOf(m, idWritten, spelling, c);
    WriterNamesDistinct(m, idWritten, spelling, c);
    PutAllHolds(WriteKeys, w);
    WriteKeysCover(k);
    assert k in WriteKeys && w.written(k);
    OwnName(spelling, k);
    assert w.name(k) == KeyName(k) && w.value(k) == Value(m, k, c);
  }

  /** A field whose call is not made keeps the default model's value. */
  lemma ReadBackUnwritten(m: FigureModel, idWritten: bool, spelling: Spelling, k: Key, c: Conversions)
    requires k != Content && !Differs(m, k, idWritten)
    requires spelling == American || !IsColourKey(k)
    requires FromProps(Default, ToProps(m, idWritten, spelling, c), c).Ok?
    ensures Field(FromProps(Default, ToProps(m, idWritten, spelling, c), c).value, k) == Field(Default, k)
  {
    var w := WriterOf(m, idWritten, spelling, c);
    forall k1 | k1 in WriteKeys && w.written(k1)
      ensures w.name(k1) != KeyName(k)
    {
      OwnName(spelling, k);
      WrittenNamesDistinct(spelling, k1, k);
    }
    PutAllOmits(WriteKeys, w, KeyName(k));
    FromPropsKeepsAbsentFields(Default, ToProps(m, idWritten, spelling, c), k, c);
  }

  // ---------------------------------------------------------------------
  // Whole models

  /**
   * `fromVar` reads back what `toVar` writes: with conversions that read
   * back their own kinds, a figure without artists survives the round trip
   * through its var form.
   */
  lemma RoundTrip(m: FigureModel, c: Conversions)
    requires Faithful(c) && m.content == []
    ensures FigureFromVar(ToVar(m, c), Default, c) == Ok(m)
  {
    var props := ToProps(m, m.id != Default.id, American, c);
    ToPropsReadsOk(m, m.id != Default.id, American, c);
    var x := FromProps(Default, props, c).value;
    forall k
      ensures Field(x, k) == Field(m, k)
    {
      RoundTripField(m, k, c);
    }
    FieldsDetermineModel(x, m);
  }

  /** One field of the round trip: written fields come back as they were, unwritten ones equal the default's. */
  lemma RoundTripField(m: FigureModel, k: Key, c: Conversions)
    requires Faithful(c) && m.content == []
    ensures var props := ToProps(m, m.id != Default.id, American, c);
      FromProps(Default, props, c).Ok? && Field(FromProps(Default, props, c).value, k) == Field(m, k)
  {
    if k == Content {
      RoundTripContent(m, c);
    } else {
      ReadBackField(m, m.id != Default.id, American, k, c);
      UnwrittenIsDefault(m, k);
    }
  }

  /** The content is never written, and an empty content reads back as the default's empty content. */
  lemma RoundTripContent(m: FigureModel, c: Conversions)
    requires m.content == []
    ensures var props := ToProps(m, m.id != Default.id, American, c);
      FromProps(Default, props, c).Ok? && Field(FromProps(Default, props, c).value, Content) == Field(m, Content)
  {
    NoContentWritten(m, m.id != Default.id, American, c);
    ReadsNoContent(ToProps(m, m.id != Default.id, American, c), c);
    NoArtists(m);
  }

  /** An object without a "content" property reads, from the default model, without error and without artists. */
  lemma ReadsNoContent(props: seq<Property>, c: Conversions)
    requires forall j :: 0 <= j < |props| ==> props[j].name != KeyName(Content)
    ensures FromProps(Default, props, c).Ok? && Field(FromProps(Default, props, c).value, Content) == ContentField([])
  {
    FromPropsOk(Default, props, c);
    FromPropsKeepsAbsentFields(Default, props, Content, c);
    DefaultHasNoContent();
  }

  /** The content field of a model without artists. */
  lemma NoArtists(m: FigureModel)
    requires m.content == []
    ensures Field(m, Content) == ContentField([])
  {
  }

  /** A field `toVar` skips, with the id compared with the default id, holds the default model's value. */
  lemma UnwrittenIsDefault(m: FigureModel, k: Key)
    ensures !Differs(m, k, m.id != Default.id) ==> Field(m, k) == Field(Default, k)
  {
  }

  // ---------------------------------------------------------------------
  // toVar as written

  /**
   * What `fromVar` reads back from `toVar` as written: the colours are
   * written under names `fromVar` does not know, so all four come back as
   * the default's, and when the title equals the default id the id is not
   * written, so it comes back as the default id.
   */
  lemma AsWrittenReadBack(m: FigureModel, c: Conversions)
    ensures FigureFromVar(ToVarAsWritten(m, c), Default, c).Ok?
    ensures var r := FigureFromVar(ToVarAsWritten(m, c), Default, c).value;
      r.marginColour == Default.marginColour && r.borderColour == Default.borderColour &&
      r.backgroundColour == Default.backgroundColour && r.gridlinesColour == Default.gridlinesColour &&
      (m.title == Default.id ==> r.id == Default.id)
  {
    var idWritten := m.title != Default.id;
    var props := ToProps(m, idWritten, British, c);
    ToPropsReadsOk(m, idWritten, British, c);
    assert FigureFromVar(ToVarAsWritten(m, c), Default, c) == FromProps(Default, props, c);
    AsWrittenColours(m, c);
    if m.title == Default.id {
      ReadBackUnwritten(m, idWritten, British, Id, c);
    }
  }

  /** All four colours of `toVar` as written read back as the default's. */
  lemma AsWrittenColours(m: FigureModel, c: Conversions)
    requires FromProps(Default, ToProps(m, m.title != Default.id, British, c), c).Ok?
    ensures var r := FromProps(Default, ToProps(m, m.title != Default.id, British, c), c).value;
      r.marginColour == Default.marginColour && r.borderColour == Default.borderColour &&
      r.backgroundColour == Default.backgroundColour && r.gridlinesColour == Default.gridlinesColour
  {
    AsWrittenDropsColour(m, MarginColour, c);
    AsWrittenDropsColour(m, BorderColour, c);
    AsWrittenDropsColour(m, BackgroundColour, c);
    AsWrittenDropsColour(m, GridlinesColour, c);
    DefaultColourFields(FromProps(Default, ToProps(m, m.title != Default.id, British, c), c).value);
  }

  /** A model whose four colour fields are the default's has the default's colours. */
  lemma DefaultColourFields(r: FigureModel)
    requires Field(r, MarginColour) == Field(Default, MarginColour) && Field(r, BorderColour) == Field(Default, BorderColour)
    requires Field(r, BackgroundColour) == Field(Default, BackgroundColour) && Field(r, GridlinesColour) == Field(Default, GridlinesColour)
    ensures r.marginColour == Default.marginColour && r.borderColour == Default.borderColour
    ensures r.backgroundColour == Default.backgroundColour && r.gridlinesColour == Default.gridlinesColour
  {
  }

  /** No call of `toVar` as written is made under a colour's readable name, so that colour keeps the default's value. */
  lemma AsWrittenDropsColour(m: FigureModel, k: Key, c: Conversions)
    requires IsColourKey(k)
    requires FromProps(Default, ToProps(m, m.title != Default.id, British, c), c).Ok?
    ensures Field(FromProps(Default, ToProps(m, m.title != Default.id, British, c), c).value, k) == Field(Default, k)
  {
    var w := WriterOf(m, m.title != Default.id, British, c);
    forall k1 | k1 in WriteKeys && w.written(k1)
      ensures w.name(k1) != KeyName(k)
    {
      WrittenNamesAsKeyNames(k1, k);
    }
    PutAllOmits(WriteKeys, w, KeyName(k));
    FromPropsKeepsAbsentFields(Default, ToProps(m, m.title != Default.id, British, c), k, c);
  }

  /**
   * The round trip fails for `toVar` as written whenever a colour differs
   * from the default, or the id differs from the default id while the title
   * equals it; `ToVar` and `RoundTrip` give the intended behaviour.
   */
  lemma AsWrittenRoundTripFails(m: FigureModel, c: Conversions)
    requires m.marginColour != Default.marginColour || (m.title == Default.id && m.id != Default.id)
    ensures FigureFromVar(ToVarAsWritten(m, c), Default, c) != Ok(m)
  {
    AsWrittenReadBack(m, c);
  }
}
