// FigureModel: the description of one figure (axes limits, labels, margins,
// line widths, tick settings, colours and the artists it draws), read from
// and written to the DynamicObject form that user scripts produce.
module FigureModels {
  import opened Wrappers
  import opened Colours
  import opened Geometry
  import opened Vars
  import DataHelpers
  import Runtime

  datatype FigureModel = FigureModel(
    content: seq<ArtistRef>,
    xmin: real,
    xmax: real,
    ymin: real,
    ymax: real,
    id: string,
    title: string,
    xlabel: string,
    ylabel: string,
    titleShowing: bool,
    xlabelShowing: bool,
    ylabelShowing: bool,
    canEditMargin: bool,
    canEditTitle: bool,
    canEditXlabel: bool,
    canEditYlabel: bool,
    canDeformDomain: bool,
    margin: Border,
    borderWidth: real,
    axesWidth: real,
    gridlinesWidth: real,
    tickLength: real,
    tickWidth: real,
    tickLabelPadding: real,
    tickLabelWidth: real,
    tickLabelHeight: real,
    xtickCount: int,
    ytickCount: int,
    marginColour: Colour,
    borderColour: Colour,
    backgroundColour: Colour,
    gridlinesColour: Colour,
    capture: seq<(string, string)>)

  /** The member initialisers of `FigureModel`. */
  const Default: FigureModel := FigureModel(
    [], 0.0, 1.0, 0.0, 1.0, "", "Figure", "X Axis", "Y Axis",
    true, true, true, true, true, true, true, true,
    Border(90, 90, 60, 60),
    1.0, 1.0, 1.0, 5.0, 1.0, 4.0, 40.0, 20.0,
    10, 10,
    TransparentWhite, TransparentWhite, TransparentWhite, TransparentWhite,
    [])

  /** The default model holds no artists. */
  lemma DefaultHasNoContent()
    ensures Field(Default, Content) == ContentField([])
  {
  }

  // ---------------------------------------------------------------------
  // Domain

  /** `getDomain`: the rectangle spanned by the axis limits. */
  function GetDomain(m: FigureModel): (d: Domain)
    ensures d.x == m.xmin && d.y == m.ymin && d.Right() == m.xmax && d.Bottom() == m.ymax
  {
    Domain(m.xmin, m.ymin, m.xmax - m.xmin, m.ymax - m.ymin)
  }

  /** `setDomain`: the axis limits become the rectangle's edges; nothing else changes. */
  function SetDomain(m: FigureModel, d: Domain): (r: FigureModel)
    ensures r.xmin == d.x && r.xmax == d.Right() && r.ymin == d.y && r.ymax == d.Bottom()
    ensures r.(xmin := m.xmin, xmax := m.xmax, ymin := m.ymin, ymax := m.ymax) == m
  {
    m.(xmin := d.x, xmax := d.Right(), ymin := d.y, ymax := d.Bottom())
  }

  /** Setting a domain and reading it back gives the same domain; setting the current domain changes nothing. */
  lemma DomainRoundTrip(m: FigureModel, d: Domain)
    ensures GetDomain(SetDomain(m, d)) == d
    ensures SetDomain(m, GetDomain(m)) == m
  {
  }

  /** `withoutContent`: the same figure with no artists. */
  function WithoutContent(m: FigureModel): (r: FigureModel)
    ensures r.content == [] && r.(content := m.content) == m
  {
    m.(content := [])
  }

  // ---------------------------------------------------------------------
  // Reading a figure from a var

  /** The `convert` overloads: a void value leaves the field as it was. */
  function ConvertReal(v: Var, current: real, c: Conversions): real
  {
    if v.Void? then current else c.toReal(v)
  }

  function ConvertBool(v: Var, current: bool, c: Conversions): bool
  {
    if v.Void? then current else c.toBool(v)
  }

  function ConvertInt(v: Var, current: int): int
  {
    if v.Void? then current else ToInt(v)
  }

  function ConvertText(v: Var, current: string, c: Conversions): string
  {
    if v.Void? then current else c.toText(v)
  }

  function ConvertBorder(v: Var, current: Border, c: Conversions): Border
  {
    if v.Void? then current else c.borderFromVar(v)
  }

  function ConvertColour(v: Var, current: Colour): Colour
  {
    if v.Void? then current else DataHelpers.ColourFromVar(v)
  }

  function ConvertCapture(v: Var, current: seq<(string, string)>, c: Conversions): seq<(string, string)>
  {
    if v.Void? then current else c.stringMapFromVar(v)
  }

  /**
   * The artists of a content array, in order: every element must wrap a
   * `PlotArtist`, and the first one that does not raises `check_data`'s
   * type error.
   */
  function Artists(items: seq<Var>, c: Conversions): (r: Result<seq<ArtistRef>>)
    ensures r.Ok? <==> forall k :: 0 <= k < |items| ==> items[k].Wrapped? && items[k].data.Artist?
    ensures r.Ok? ==> |r.value| == |items| && forall k :: 0 <= k < |items| ==> r.value[k] == items[k].data.artist
  {
    if |items| == 0 then Ok([])
    else
      match Artists(items[..|items| - 1], c)
      case Err(e) => Err(e)
      case Ok(prefix) =>
        match Runtime.CheckData(items[|items| - 1], Runtime.KArtist, None, -1, c)
        case Err(e) => Err(e)
        case Ok(d) => Ok(prefix + [d.artist])
  }

  /** The content `convert`: the artists of an array are appended; any other value adds none. */
  function ContentOf(current: seq<ArtistRef>, v: Var, c: Conversions): (r: Result<seq<ArtistRef>>)
    ensures !v.List? ==> r == Ok(current)
    ensures v.List? && Artists(v.items, c).Ok? ==> r == Ok(current + Artists(v.items, c).value)
  {
    if v.List? then
      match Artists(v.items, c)
      case Err(e) => Err(e)
      case Ok(a) => Ok(current + a)
    else Ok(current)
  }

  /** The content `convert` as the C++ loop performs it, pushing one artist at a time. */
  method AppendContent(current: seq<ArtistRef>, v: Var, c: Conversions) returns (r: Result<seq<ArtistRef>>)
    ensures r == ContentOf(current, v, c)
  {
    if !v.List? {
      return Ok(current);
    }
    var value := current;
    var k := 0;
    assert v.items[..0] == [] && value[|current|..] == [];
    while k < |v.items|
      invariant 0 <= k <= |v.items|
      invariant |value| == |current| + k
      invariant value[..|current|] == current
      invariant Artists(v.items[..k], c) == Ok(value[|current|..])
    {
      assert v.items[..k + 1][..k] == v.items[..k];
      var artist := Runtime.CheckData(v.items[k], Runtime.KArtist, None, -1, c);
      if artist.Err? {
        ArtistsOfPrefixFails(v.items, k + 1, c);
        return artist.PropagateFailure();
      }
      assert (value + [artist.value.artist])[|current|..] == value[|current|..] + [artist.value.artist];
      value := value + [artist.value.artist];
      k := k + 1;
    }
    assert v.items[..k] == v.items;
    assert current + value[|current|..] == value;
    return Ok(value);
  }

  /** Once a prefix of the content array holds a non-artist, the whole array fails with that prefix's error. */
  lemma {:induction false} ArtistsOfPrefixFails(items: seq<Var>, n: nat, c: Conversions)
    requires n <= |items| && Artists(items[..n], c).Err?
    ensures Artists(items, c) == Artists(items[..n], c)
    decreases |items| - n
  {
    if n < |items| {
      assert items[..n + 1][..n] == items[..n];
      ArtistsOfPrefixFails(items, n + 1, c);
    } else {
      assert items[..n] == items;
    }
  }

  /** The properties `fromVar` recognises, one per field. */
  datatype Key =
    | Xmin
    | Xmax
    | Ymin
    | Ymax
    | Id
    | Title
    | Xlabel
    | Ylabel
    | TitleShowing
    | XlabelShowing
    | YlabelShowing
    | CanEditMargin
    | CanEditTitle
    | CanEditXlabel
    | CanEditYlabel
    | CanDeformDomain
    | Margin
    | BorderWidth
    | AxesWidth
    | GridlinesWidth
    | TickLength
    | TickWidth
    | TickLabelPadding
    | TickLabelWidth
    | TickLabelHeight
    | XtickCount
    | YtickCount
    | MarginColour
    | BorderColour
    | BackgroundColour
    | GridlinesColour
    | Content
    | Capture

  /** The property name of each key. */
  function KeyName(k: Key): string
  {
    match k
    case Xmin => "xmin"
    case Xmax => "xmax"
    case Ymin => "ymin"
    case Ymax => "ymax"
    case Id => "id"
    case Title => "title"
    case Xlabel => "xlabel"
    case Ylabel => "ylabel"
    case TitleShowing => "title-showing"
    case XlabelShowing => "xlabel-showing"
    case YlabelShowing => "ylabel-showing"
    case CanEditMargin => "can-edit-margin"
    case CanEditTitle => "can-edit-title"
    case CanEditXlabel => "can-edit-xlabel"
    case CanEditYlabel => "can-edit-ylabel"
    case CanDeformDomain => "can-deform-domain"
    case Margin => "margin"
    case BorderWidth => "border-width"
    case AxesWidth => "axes-width"
    case GridlinesWidth => "gridlines-width"
    case TickLength => "tick-length"
    case TickWidth => "tick-width"
    case TickLabelPadding => "tick-label-padding"
    case TickLabelWidth => "tick-label-width"
    case TickLabelHeight => "tick-label-height"
    case XtickCount => "xtick-count"
    case YtickCount => "ytick-count"
    case MarginColour => "margin-color"
    case BorderColour => "border-color"
    case BackgroundColour => "background-color"
    case GridlinesColour => "gridlines-color"
    case Content => "content"
    case Capture => "capture"
  }

  /** Every key, in the order the if-chain of `fromVar` tests their names. */
  const AllKeys: seq<Key> := [
    Xmin, Xmax, Ymin, Ymax, Id, Title,
    Xlabel, Ylabel, TitleShowing, XlabelShowing, YlabelShowing, CanEditMargin,
    CanEditTitle, CanEditXlabel, CanEditYlabel, CanDeformDomain, Margin, BorderWidth,
    AxesWidth, GridlinesWidth, TickLength, TickWidth, TickLabelPadding, TickLabelWidth,
    TickLabelHeight, XtickCount, YtickCount, MarginColour, BorderColour, BackgroundColour,
    GridlinesColour, Content, Capture]

  /** The first key from position `i` on whose name is the property's name. */
  function FirstNamed(i: nat, name: string): (r: Option<Key>)
    requires i <= |AllKeys|
    ensures r.Some? ==> KeyName(r.value) == name
    decreases |AllKeys| - i
  {
    if i == |AllKeys| then None
    else if KeyName(AllKeys[i]) == name then Some(AllKeys[i])
    else FirstNamed(i + 1, name)
  }

  /** The if-chain of `fromVar`: the key whose name the property has, or nothing for an unknown name. */
  function KeyOf(name: string): (r: Option<Key>)
    ensures r.Some? ==> KeyName(r.value) == name
  {
    FirstNamed(0, name)
  }

  /**
   * A key read off a name's length and one or two of its letters. It is a
   * proof device: it recovers every key from its own name, which shows that
   * no two keys share a name.
   */
  function KeyHint(s: string): Option<Key>
  {
    if |s| == 2 then Some(Id)
    else if |s| == 4 then
      if s[0] == 'x' then (if s[2] == 'i' then Some(Xmin) else Some(Xmax))
      else (if s[2] == 'i' then Some(Ymin) else Some(Ymax))
    else if |s| == 5 then Some(Title)
    else if |s| == 6 then
      if s[0] == 'x' then Some(Xlabel) else if s[0] == 'y' then Some(Ylabel) else Some(Margin)
    else if |s| == 7 then (if s[1] == 'o' then Some(Content) else Some(Capture))
    else if |s| == 10 then (if s[0] == 'a' then Some(AxesWidth) else Some(TickWidth))
    else if |s| == 11 then
      if s[0] == 't' then Some(TickLength) else if s[0] == 'x' then Some(XtickCount) else Some(YtickCount)
    else if |s| == 12 then
      if s[0] == 'm' then Some(MarginColour) else if s[7] == 'w' then Some(BorderWidth) else Some(BorderColour)
    else if |s| == 13 then Some(TitleShowing)
    else if |s| == 14 then
      if s[0] == 'x' then Some(XlabelShowing) else if s[0] == 'y' then Some(YlabelShowing) else Some(CanEditTitle)
    else if |s| == 15 then
      if s[0] == 'g' then (if s[10] == 'w' then Some(GridlinesWidth) else Some(GridlinesColour))
      else if s[9] == 'm' then Some(CanEditMargin)
      else if s[9] == 'x' then Some(CanEditXlabel)
      else Some(CanEditYlabel)
    else if |s| == 16 then (if s[0] == 't' then Some(TickLabelWidth) else Some(BackgroundColour))
    else if |s| == 17 then (if s[0] == 'c' then Some(CanDeformDomain) else Some(TickLabelHeight))
    else if |s| == 18 then Some(TickLabelPadding)
    else None
  }

  lemma KeyHintOfKeyName(k: Key)
    ensures KeyHint(KeyName(k)) == Some(k)
  {
    if k.Xmin? || k.Xmax? || k.Ymin? || k.Ymax? || k.Id? || k.Title? {
      KeyHintOfKeyNameIn0(k);
    } else if k.Xlabel? || k.Ylabel? || k.TitleShowing? || k.XlabelShowing? || k.YlabelShowing? || k.CanEditMargin? {
      KeyHintOfKeyNameIn1(k);
    } else if k.CanEditTitle? || k.CanEditXlabel? || k.CanEditYlabel? || k.CanDeformDomain? || k.Margin? || k.BorderWidth? {
      KeyHintOfKeyNameIn2(k);
    } else if k.AxesWidth? || k.GridlinesWidth? || k.TickLength? || k.TickWidth? || k.TickLabelPadding? || k.TickLabelWidth? {
      KeyHintOfKeyNameIn3(k);
    } else if k.TickLabelHeight? || k.XtickCount? || k.YtickCount? || k.MarginColour? || k.BorderColour? || k.BackgroundColour? {
      KeyHintOfKeyNameIn4(k);
    } else {
      KeyHintOfKeyNameIn5(k);
    }
  }

  lemma KeyHintOfKeyNameIn0(k: Key)
    requires k.Xmin? || k.Xmax? || k.Ymin? || k.Ymax? || k.Id? || k.Title?
    ensures KeyHint(KeyName(k)) == Some(k)
  {
  }

  lemma KeyHintOfKeyNameIn1(k: Key)
    requires k.Xlabel? || k.Ylabel? || k.TitleShowing? || k.XlabelShowing? || k.YlabelShowing? || k.CanEditMargin?
    ensures KeyHint(KeyName(k)) == Some(k)
  {
  }

  lemma KeyHintOfKeyNameIn2(k: Key)
    requires k.CanEditTitle? || k.CanEditXlabel? || k.CanEditYlabel? || k.CanDeformDomain? || k.Margin? || k.BorderWidth?
    ensures KeyHint(KeyName(k)) == Some(k)
  {
  }

  lemma KeyHintOfKeyNameIn3(k: Key)
    requires k.AxesWidth? || k.GridlinesWidth? || k.TickLength? || k.TickWidth? || k.TickLabelPadding? || k.TickLabelWidth?
    ensures KeyHint(KeyName(k)) == Some(k)
  {
  }

  lemma KeyHintOfKeyNameIn4(k: Key)
    requires k.TickLabelHeight? || k.XtickCount? || k.YtickCount? || k.MarginColour? || k.BorderColour? || k.BackgroundColour?
    ensures KeyHint(KeyName(k)) == Some(k)
  {
  }

  lemma KeyHintOfKeyNameIn5(k: Key)
    requires k.GridlinesColour? || k.Content? || k.Capture?
    ensures KeyHint(KeyName(k)) == Some(k)
  {
  }

  /** No two keys share a name. */
  lemma KeyNameInjective(a: Key, b: Key)
    ensures KeyName(a) == KeyName(b) ==> a == b
  {
    KeyHintOfKeyName(a);
    KeyHintOfKeyName(b);
  }

  /** The if-chain finds a name that some key at or after position `i` has. */
  lemma {:induction false} FirstNamedFinds(i: nat, j: nat, name: string)
    requires i <= j < |AllKeys| && KeyName(AllKeys[j]) == name
    ensures FirstNamed(i, name).Some?
    decreases j - i
  {
    if KeyName(AllKeys[i]) != name {
      FirstNamedFinds(i + 1, j, name);
    }
  }

  /** Every key is found under its own name. */
  lemma KeyOfKeyName(k: Key)
    ensures KeyOf(KeyName(k)) == Some(k)
  {
    FirstNamedFinds(0, Position(k), KeyName(k));
    KeyNameInjective(k, KeyOf(KeyName(k)).value);
  }

  /** The `convert` of one property value into the field its key names. */
  function Set(m: FigureModel, k: Key, v: Var, c: Conversions): Result<FigureModel>
  {
    match k
    case Xmin => Ok(m.(xmin := ConvertReal(v, m.xmin, c)))
    case Xmax => Ok(m.(xmax := ConvertReal(v, m.xmax, c)))
    case Ymin => Ok(m.(ymin := ConvertReal(v, m.ymin, c)))
    case Ymax => Ok(m.(ymax := ConvertReal(v, m.ymax, c)))
    case Id => Ok(m.(id := ConvertText(v, m.id, c)))
    case Title => Ok(m.(title := ConvertText(v, m.title, c)))
    case Xlabel => Ok(m.(xlabel := ConvertText(v, m.xlabel, c)))
    case Ylabel => Ok(m.(ylabel := ConvertText(v, m.ylabel, c)))
    case TitleShowing => Ok(m.(titleShowing := ConvertBool(v, m.titleShowing, c)))
    case XlabelShowing => Ok(m.(xlabelShowing := ConvertBool(v, m.xlabelShowing, c)))
    case YlabelShowing => Ok(m.(ylabelShowing := ConvertBool(v, m.ylabelShowing, c)))
    case CanEditMargin => Ok(m.(canEditMargin := ConvertBool(v, m.canEditMargin, c)))
    case CanEditTitle => Ok(m.(canEditTitle := ConvertBool(v, m.canEditTitle, c)))
    case CanEditXlabel => Ok(m.(canEditXlabel := ConvertBool(v, m.canEditXlabel, c)))
    case CanEditYlabel => Ok(m.(canEditYlabel := ConvertBool(v, m.canEditYlabel, c)))
    case CanDeformDomain => Ok(m.(canDeformDomain := ConvertBool(v, m.canDeformDomain, c)))
    case Margin => Ok(m.(margin := ConvertBorder(v, m.margin, c)))
    case BorderWidth => Ok(m.(borderWidth := ConvertReal(v, m.borderWidth, c)))
    case AxesWidth => Ok(m.(axesWidth := ConvertReal(v, m.axesWidth, c)))
    case GridlinesWidth => Ok(m.(gridlinesWidth := ConvertReal(v, m.gridlinesWidth, c)))
    case TickLength => Ok(m.(tickLength := ConvertReal(v, m.tickLength, c)))
    case TickWidth => Ok(m.(tickWidth := ConvertReal(v, m.tickWidth, c)))
    case TickLabelPadding => Ok(m.(tickLabelPadding := ConvertReal(v, m.tickLabelPadding, c)))
    case TickLabelWidth => Ok(m.(tickLabelWidth := ConvertReal(v, m.tickLabelWidth, c)))
    case TickLabelHeight => Ok(m.(tickLabelHeight := ConvertReal(v, m.tickLabelHeight, c)))
    case XtickCount => Ok(m.(xtickCount := ConvertInt(v, m.xtickCount)))
    case YtickCount => Ok(m.(ytickCount := ConvertInt(v, m.ytickCount)))
    case MarginColour => Ok(m.(marginColour := ConvertColour(v, m.marginColour)))
    case BorderColour => Ok(m.(borderColour := ConvertColour(v, m.borderColour)))
    case BackgroundColour => Ok(m.(backgroundColour := ConvertColour(v, m.backgroundColour)))
    case GridlinesColour => Ok(m.(gridlinesColour := ConvertColour(v, m.gridlinesColour)))
    case Content =>
      (match ContentOf(m.content, v, c)
       case Err(e) => Err(e)
       case Ok(content) => Ok(m.(content := content)))
    case Capture => Ok(m.(capture := ConvertCapture(v, m.capture, c)))
  }

  /** One step of `fromVar`: a recognised key converts the value into its field; other keys are ignored. */
  function Apply(m: FigureModel, item: Property, c: Conversions): Result<FigureModel>
  {
    match KeyOf(item.name)
    case None => Ok(m)
    case Some(k) => Set(m, k, item.value, c)
  }

  /** One step of a walk over an object's properties: the model so far and the next property give the next model, or an error. */
  type Step = (FigureModel, Property) -> Result<FigureModel>

  /** The steps applied in order to the starting model; the first error stops the walk. */
  function Walk(m: FigureModel, props: seq<Property>, step: Step): Result<FigureModel>
  {
    if |props| == 0 then Ok(m)
    else
      match Walk(m, props[..|props| - 1], step)
      case Err(e) => Err(e)
      case Ok(x) => step(x, props[|props| - 1])
  }

  /** The step `fromVar` takes for each property. */
  function ApplyStep(c: Conversions): Step
  {
    (x, item) => Apply(x, item, c)
  }

  /** The walk of `fromVar` over an object's properties, from the starting model. */
  function FromProps(m: FigureModel, props: seq<Property>, c: Conversions): Result<FigureModel>
  {
    Walk(m, props, ApplyStep(c))
  }

  /** One more property is applied to the model the shorter prefix gives. */
  lemma FromPropsStep(m: FigureModel, props: seq<Property>, n: nat, c: Conversions)
    requires n < |props|
    ensures FromProps(m, props[..n + 1], c) ==
      match FromProps(m, props[..n], c)
      case Err(e) => Err(e)
      case Ok(x) => Apply(x, props[n], c)
  {
    WalkStep(m, props, n, ApplyStep(c));
  }

  /** `fromVar`: an object's properties override the default model; any other value gives the default model. */
  function FigureFromVar(value: Var, defaultModel: FigureModel, c: Conversions): Result<FigureModel>
  {
    if value.Object? then FromProps(defaultModel, value.props, c) else Ok(defaultModel)
  }

  /** `fromVar`, walking the object's properties in order. */
  method FromVar(value: Var, defaultModel: FigureModel, c: Conversions) returns (r: Result<FigureModel>)
    ensures r == FigureFromVar(value, defaultModel, c)
    ensures !value.Object? ==> r == Ok(defaultModel)
  {
    if !value.Object? {
      return Ok(defaultModel);
    }
    var model := defaultModel;
    var k := 0;
    while k < |value.props|
      invariant 0 <= k <= |value.props|
      invariant FromProps(defaultModel, value.props[..k], c) == Ok(model)
    {
      FromPropsStep(defaultModel, value.props, k, c);
      var next := ApplyProperty(model, value.props[k], c);
      if next.Err? {
        WalkStopsAtError(defaultModel, value.props, k + 1, ApplyStep(c));
        return next;
      }
      model := next.value;
      k := k + 1;
    }
    assert value.props[..k] == value.props;
    return Ok(model);
  }

  /**
   * One pass of the loop of `fromVar`: the content array is appended artist
   * by artist, and any other property is converted into its field.
   */
  method ApplyProperty(model: FigureModel, item: Property, c: Conversions) returns (r: Result<FigureModel>)
    ensures r == Apply(model, item, c)
    ensures r.Err? ==> item.name == "content"
  {
    if item.name == "content" {
      var content := AppendContent(model.content, item.value, c);
      ApplyContent(model, item, c);
      if content.Err? {
        return content.PropagateFailure();
      }
      return Ok(model.(content := content.value));
    }
    assert item.name != KeyName(Content);
    ApplyFailsOnlyOnContent(model, item, c);
    return Apply(model, item, c);
  }

  /** One more property continues the walk from where the shorter prefix left it. */
  lemma WalkStep(m: FigureModel, props: seq<Property>, n: nat, step: Step)
    requires n < |props|
    ensures Walk(m, props[..n + 1], step) ==
      match Walk(m, props[..n], step)
      case Err(e) => Err(e)
      case Ok(x) => step(x, props[n])
  {
    assert props[..n + 1][..n] == props[..n];
  }

  /** An error raised by a prefix of the properties is the error of the whole walk. */
  lemma {:induction false} WalkStopsAtError(m: FigureModel, props: seq<Property>, n: nat, step: Step)
    requires n <= |props| && Walk(m, props[..n], step).Err?
    ensures Walk(m, props, step) == Walk(m, props[..n], step)
    decreases |props| - n
  {
    if n < |props| {
      assert props[..n + 1][..n] == props[..n];
      WalkStopsAtError(m, props, n + 1, step);
    } else {
      assert props[..n] == props;
    }
  }

  /** A walk whose steps fail only on properties of one name does not fail over properties without that name. */
  lemma {:induction false} WalkOk(m: FigureModel, props: seq<Property>, step: Step, name: string)
    requires forall x: FigureModel, item: Property :: step(x, item).Err? ==> item.name == name
    requires forall j :: 0 <= j < |props| ==> props[j].name != name
    ensures Walk(m, props, step).Ok?
  {
    if |props| > 0 {
      var prefix := props[..|props| - 1];
      assert forall j :: 0 <= j < |prefix| ==> prefix[j] == props[j];
      WalkOk(m, prefix, step, name);
    }
  }

  /**
   * A quantity of the model that each step keeps, unless the property has
   * one given name, is kept by a walk over properties without that name.
   */
  lemma {:induction false} WalkKeeps(m: FigureModel, props: seq<Property>, step: Step, name: string, get: FigureModel -> FieldValue)
    requires forall x: FigureModel, item: Property :: item.name != name && step(x, item).Ok? ==> get(step(x, item).value) == get(x)
    requires forall j :: 0 <= j < |props| ==> props[j].name != name
    requires Walk(m, props, step).Ok?
    ensures get(Walk(m, props, step).value) == get(m)
  {
    if |props| > 0 {
      var prefix := props[..|props| - 1];
      assert forall j :: 0 <= j < |prefix| ==> prefix[j] == props[j];
      WalkKeeps(m, prefix, step, name, get);
    }
  }

  /**
   * Over properties with distinct names, a quantity that only the property
   * of one name changes ends as that property makes it (a void value
   * changes nothing), or as it started when there is none.
   */
  lemma {:induction false} WalkDecodes(m: FigureModel, props: seq<Property>, step: Step, name: string,
                                       get: FigureModel -> FieldValue, dec: Var -> FieldValue)
    requires forall x: FigureModel, item: Property :: item.name != name && step(x, item).Ok? ==> get(step(x, item).value) == get(x)
    requires forall x: FigureModel, item: Property :: item.name == name && step(x, item).Ok? ==>
      get(step(x, item).value) == if item.value.Void? then get(x) else dec(item.value)
    requires UniqueNames(props) && Walk(m, props, step).Ok?
    ensures get(Walk(m, props, step).value) ==
      match GetProperty(props, name)
      case None => get(m)
      case Some(v) => if v.Void? then get(m) else dec(v)
  {
    if |props| > 0 {
      var prefix := props[..|props| - 1];
      var last := props[|props| - 1];
      assert props == prefix + [last];
      assert forall j :: 0 <= j < |prefix| ==> prefix[j] == props[j];
      WalkDecodes(m, prefix, step, name, get, dec);
      GetOfAppend(prefix, last, name);
      if last.name == name {
        assert IndexOf(prefix, name) < 0;
      }
    }
  }

  // ---------------------------------------------------------------------
  // Properties of fromVar

  /** The value of one field of the model, of whichever type it has. */
  datatype FieldValue =
    | RealField(r: real)
    | TextField(s: string)
    | BoolField(b: bool)
    | BorderField(border: Border)
    | IntField(i: int)
    | ColourField(colour: Colour)
    | ContentField(artists: seq<ArtistRef>)
    | CaptureField(pairs: seq<(string, string)>)

  /** The field a key names. */
  function Field(m: FigureModel, k: Key): FieldValue
  {
    match k
    case Xmin => RealField(m.xmin)
    case Xmax => RealField(m.xmax)
    case Ymin => RealField(m.ymin)
    case Ymax => RealField(m.ymax)
    case Id => TextField(m.id)
    case Title => TextField(m.title)
    case Xlabel => TextField(m.xlabel)
    case Ylabel => TextField(m.ylabel)
    case TitleShowing => BoolField(m.titleShowing)
    case XlabelShowing => BoolField(m.xlabelShowing)
    case YlabelShowing => BoolField(m.ylabelShowing)
    case CanEditMargin => BoolField(m.canEditMargin)
    case CanEditTitle => BoolField(m.canEditTitle)
    case CanEditXlabel => BoolField(m.canEditXlabel)
    case CanEditYlabel => BoolField(m.canEditYlabel)
    case CanDeformDomain => BoolField(m.canDeformDomain)
    case Margin => BorderField(m.margin)
    case BorderWidth => RealField(m.borderWidth)
    case AxesWidth => RealField(m.axesWidth)
    case GridlinesWidth => RealField(m.gridlinesWidth)
    case TickLength => RealField(m.tickLength)
    case TickWidth => RealField(m.tickWidth)
    case TickLabelPadding => RealField(m.tickLabelPadding)
    case TickLabelWidth => RealField(m.tickLabelWidth)
    case TickLabelHeight => RealField(m.tickLabelHeight)
    case XtickCount => IntField(m.xtickCount)
    case YtickCount => IntField(m.ytickCount)
    case MarginColour => ColourField(m.marginColour)
    case BorderColour => ColourField(m.borderColour)
    case BackgroundColour => ColourField(m.backgroundColour)
    case GridlinesColour => ColourField(m.gridlinesColour)
    case Content => ContentField(m.content)
    case Capture => CaptureField(m.capture)
  }

  /** What `convert` makes of a value that is not void, for every key but the content. */
  function Decode(k: Key, v: Var, c: Conversions): FieldValue
    requires k != Content
  {
    match k
    case Xmin | Xmax | Ymin | Ymax => RealField(c.toReal(v))
    case BorderWidth | AxesWidth | GridlinesWidth | TickLength | TickWidth => RealField(c.toReal(v))
    case TickLabelPadding | TickLabelWidth | TickLabelHeight => RealField(c.toReal(v))
    case Id | Title | Xlabel | Ylabel => TextField(c.toText(v))
    case TitleShowing | XlabelShowing | YlabelShowing | CanEditMargin => BoolField(c.toBool(v))
    case CanEditTitle | CanEditXlabel | CanEditYlabel | CanDeformDomain => BoolField(c.toBool(v))
    case Margin => BorderField(c.borderFromVar(v))
    case XtickCount | YtickCount => IntField(ToInt(v))
    case MarginColour | BorderColour | BackgroundColour | GridlinesColour => ColourField(DataHelpers.ColourFromVar(v))
    case Content => assert false; ContentField([])
    case Capture => CaptureField(c.stringMapFromVar(v))
  }

  /** Models that agree on these fields have the same limits and texts. */
  lemma SameLimitsAndTexts(a: FigureModel, b: FigureModel)
    requires Field(a, Xmin) == Field(b, Xmin) && Field(a, Xmax) == Field(b, Xmax)
    requires Field(a, Ymin) == Field(b, Ymin) && Field(a, Ymax) == Field(b, Ymax)
    requires Field(a, Id) == Field(b, Id) && Field(a, Title) == Field(b, Title)
    requires Field(a, Xlabel) == Field(b, Xlabel) && Field(a, Ylabel) == Field(b, Ylabel)
    ensures a.xmin == b.xmin && a.xmax == b.xmax && a.ymin == b.ymin && a.ymax == b.ymax
    ensures a.id == b.id && a.title == b.title && a.xlabel == b.xlabel && a.ylabel == b.ylabel
  {
  }

  /** Models that agree on these fields have the same flags. */
  lemma SameFlags(a: FigureModel, b: FigureModel)
    requires Field(a, TitleShowing) == Field(b, TitleShowing) && Field(a, XlabelShowing) == Field(b, XlabelShowing)
    requires Field(a, YlabelShowing) == Field(b, YlabelShowing) && Field(a, CanEditMargin) == Field(b, CanEditMargin)
    requires Field(a, CanEditTitle) == Field(b, CanEditTitle) && Field(a, CanEditXlabel) == Field(b, CanEditXlabel)
    requires Field(a, CanEditYlabel) == Field(b, CanEditYlabel) && Field(a, CanDeformDomain) == Field(b, CanDeformDomain)
    ensures a.titleShowing == b.titleShowing && a.xlabelShowing == b.xlabelShowing && a.ylabelShowing == b.ylabelShowing
    ensures a.canEditMargin == b.canEditMargin && a.canEditTitle == b.canEditTitle
    ensures a.canEditXlabel == b.canEditXlabel && a.canEditYlabel == b.canEditYlabel && a.canDeformDomain == b.canDeformDomain
  {
  }

  /** Models that agree on these fields have the same margin and line widths. */
  lemma SameMarginAndWidths(a: FigureModel, b: FigureModel)
    requires Field(a, Margin) == Field(b, Margin) && Field(a, BorderWidth) == Field(b, BorderWidth)
    requires Field(a, AxesWidth) == Field(b, AxesWidth) && Field(a, GridlinesWidth) == Field(b, GridlinesWidth)
    requires Field(a, TickLength) == Field(b, TickLength)
    ensures a.margin == b.margin && a.borderWidth == b.borderWidth && a.axesWidth == b.axesWidth
    ensures a.gridlinesWidth == b.gridlinesWidth && a.tickLength == b.tickLength
  {
  }

  /** Models that agree on these fields have the same tick sizes and counts. */
  lemma SameTicks(a: FigureModel, b: FigureModel)
    requires Field(a, TickWidth) == Field(b, TickWidth) && Field(a, TickLabelPadding) == Field(b, TickLabelPadding)
    requires Field(a, TickLabelWidth) == Field(b, TickLabelWidth) && Field(a, TickLabelHeight) == Field(b, TickLabelHeight)
    requires Field(a, XtickCount) == Field(b, XtickCount) && Field(a, YtickCount) == Field(b, YtickCount)
    ensures a.tickWidth == b.tickWidth && a.tickLabelPadding == b.tickLabelPadding
    ensures a.tickLabelWidth == b.tickLabelWidth && a.tickLabelHeight == b.tickLabelHeight
    ensures a.xtickCount == b.xtickCount && a.ytickCount == b.ytickCount
  {
  }

  /** Models that agree on these fields have the same colours. */
  lemma SameColours(a: FigureModel, b: FigureModel)
    requires Field(a, MarginColour) == Field(b, MarginColour) && Field(a, BorderColour) == Field(b, BorderColour)
    requires Field(a, BackgroundColour) == Field(b, BackgroundColour) && Field(a, GridlinesColour) == Field(b, GridlinesColour)
    ensures a.marginColour == b.marginColour && a.borderColour == b.borderColour
    ensures a.backgroundColour == b.backgroundColour && a.gridlinesColour == b.gridlinesColour
  {
  }

  /** Models that agree on these fields have the same content and capture. */
  lemma SameContentAndCapture(a: FigureModel, b: FigureModel)
    requires Field(a, Content) == Field(b, Content) && Field(a, Capture) == Field(b, Capture)
    ensures a.content == b.content && a.capture == b.capture
  {
  }

  /** Two models that agree on every field are the same model. */
  lemma FieldsDetermineModel(a: FigureModel, b: FigureModel)
    requires forall k :: Field(a, k) == Field(b, k)
    ensures a == b
  {
    SameLimitsAndTexts(a, b);
    SameFlags(a, b);
    SameMarginAndWidths(a, b);
    SameTicks(a, b);
    SameColours(a, b);
    SameContentAndCapture(a, b);
  }

  /** Only a content array can make `convert` fail. */
  lemma SetFailsOnlyOnContent(m: FigureModel, k: Key, v: Var, c: Conversions)
    ensures Set(m, k, v, c).Err? ==> k == Content && v.List?
  {
  }

  /** A void value leaves the model as it was: every `convert` skips it. */
  lemma SetIgnoresVoid(m: FigureModel, k: Key, c: Conversions)
    ensures Set(m, k, Void, c) == Ok(m)
  {
    SetFailsOnlyOnContent(m, k, Void, c);
    SetKeepsOthers(m, k, Void, c);
    if k == Content {
      SetContent(m, Void, c);
    } else {
      SetOwnField(m, k, Void, c);
    }
    FieldsDetermineModel(Set(m, k, Void, c).value, m);
  }

  /**
   * Every key but the content converts without error, and its own field
   * takes the converted value, or keeps its value when the value is void;
   * the proof goes through the keys three at a time.
   */
  lemma SetOwnField(m: FigureModel, k: Key, v: Var, c: Conversions)
    requires k != Content
    ensures Set(m, k, v, c).Ok?
    ensures Field(Set(m, k, v, c).value, k) == if v.Void? then Field(m, k) else Decode(k, v, c)
  {
    if k.Xmin? || k.Xmax? || k.Ymin? {
      SetOwnFieldIn0(m, k, v, c);
    } else if k.Ymax? || k.Id? || k.Title? {
      SetOwnFieldIn1(m, k, v, c);
    } else if k.Xlabel? || k.Ylabel? || k.TitleShowing? {
      SetOwnFieldIn2(m, k, v, c);
    } else if k.XlabelShowing? || k.YlabelShowing? || k.CanEditMargin? {
      SetOwnFieldIn3(m, k, v, c);
    } else if k.CanEditTitle? || k.CanEditXlabel? || k.CanEditYlabel? {
      SetOwnFieldIn4(m, k, v, c);
    } else if k.CanDeformDomain? || k.Margin? || k.BorderWidth? {
      SetOwnFieldIn5(m, k, v, c);
    } else if k.AxesWidth? || k.GridlinesWidth? || k.TickLength? {
      SetOwnFieldIn6(m, k, v, c);
    } else if k.TickWidth? || k.TickLabelPadding? || k.TickLabelWidth? {
      SetOwnFieldIn7(m, k, v, c);
    } else if k.TickLabelHeight? || k.XtickCount? || k.YtickCount? {
      SetOwnFieldIn8(m, k, v, c);
    } else if k.MarginColour? || k.BorderColour? || k.BackgroundColour? {
      SetOwnFieldIn9(m, k, v, c);
    } else {
      SetOwnFieldIn10(m, k, v, c);
    }
  }

  lemma SetOwnFieldIn0(m: FigureModel, k: Key, v: Var, c: Conversions)
    requires k.Xmin? || k.Xmax? || k.Ymin?
    ensures Set(m, k, v, c).Ok?
    ensures Field(Set(m, k, v, c).value, k) == if v.Void? then Field(m, k) else Decode(k, v, c)
  {
  }

  lemma SetOwnFieldIn1(m: FigureModel, k: Key, v: Var, c: Conversions)
    requires k.Ymax? || k.Id? || k.Title?
    ensures Set(m, k, v, c).Ok?
    ensures Field(Set(m, k, v, c).value, k) == if v.Void? then Field(m, k) else Decode(k, v, c)
  {
  }

  lemma SetOwnFieldIn2(m: FigureModel, k: Key, v: Var, c: Conversions)
    requires k.Xlabel? || k.Ylabel? || k.TitleShowing?
    ensures Set(m, k, v, c).Ok?
    ensures Field(Set(m, k, v, c).value, k) == if v.Void? then Field(m, k) else Decode(k, v, c)
  {
  }

  lemma SetOwnFieldIn3(m: FigureModel, k: Key, v: Var, c: Conversions)
    requires k.XlabelShowing? || k.YlabelShowing? || k.CanEditMargin?
    ensures Set(m, k, v, c).Ok?
    ensures Field(Set(m, k, v, c).value, k) == if v.Void? then Field(m, k) else Decode(k, v, c)
  {
  }

  lemma SetOwnFieldIn4(m: FigureModel, k: Key, v: Var, c: Conversions)
    requires k.CanEditTitle? || k.CanEditXlabel? || k.CanEditYlabel?
    ensures Set(m, k, v, c).Ok?
    ensures Field(Set(m, k, v, c).value, k) == if v.Void? then Field(m, k) else Decode(k, v, c)
  {
  }

  lemma SetOwnFieldIn5(m: FigureModel, k: Key, v: Var, c: Conversions)
    requires k.CanDeformDomain? || k.Margin? || k.BorderWidth?
    ensures Set(m, k, v, c).Ok?
    ensures Field(Set(m, k, v, c).value, k) == if v.Void? then Field(m, k) else Decode(k, v, c)
  {
  }

  lemma SetOwnFieldIn6(m: FigureModel, k: Key, v: Var, c: Conversions)
    requires k.AxesWidth? || k.GridlinesWidth? || k.TickLength?
    ensures Set(m, k, v, c).Ok?
    ensures Field(Set(m, k, v, c).value, k) == if v.Void? then Field(m, k) else Decode(k, v, c)
  {
  }

  lemma SetOwnFieldIn7(m: FigureModel, k: Key, v: Var, c: Conversions)
    requires k.TickWidth? || k.TickLabelPadding? || k.TickLabelWidth?
    ensures Set(m, k, v, c).Ok?
    ensures Field(Set(m, k, v, c).value, k) == if v.Void? then Field(m, k) else Decode(k, v, c)
  {
  }

  lemma SetOwnFieldIn8(m: FigureModel, k: Key, v: Var, c: Conversions)
    requires k.TickLabelHeight? || k.XtickCount? || k.YtickCount?
    ensures Set(m, k, v, c).Ok?
    ensures Field(Set(m, k, v, c).value, k) == if v.Void? then Field(m, k) else Decode(k, v, c)
  {
  }

  lemma SetOwnFieldIn9(m: FigureModel, k: Key, v: Var, c: Conversions)
    requires k.MarginColour? || k.BorderColour? || k.BackgroundColour?
    ensures Set(m, k, v, c).Ok?
    ensures Field(Set(m, k, v, c).value, k) == if v.Void? then Field(m, k) else Decode(k, v, c)
  {
  }

  lemma SetOwnFieldIn10(m: FigureModel, k: Key, v: Var, c: Conversions)
    requires k.GridlinesColour? || k.Capture?
    ensures Set(m, k, v, c).Ok?
    ensures Field(Set(m, k, v, c).value, k) == if v.Void? then Field(m, k) else Decode(k, v, c)
  {
  }

  /** No field but the key's own changes; the proof goes through the keys three at a time. */
  lemma SetKeepsOthers(m: FigureModel, k: Key, v: Var, c: Conversions)
    ensures Set(m, k, v, c).Ok? ==> forall other :: other != k ==> Field(Set(m, k, v, c).value, other) == Field(m, other)
  {
    if k.Xmin? || k.Xmax? || k.Ymin? {
      SetKeepsOthersIn0(m, k, v, c);
    } else if k.Ymax? || k.Id? || k.Title? {
      SetKeepsOthersIn1(m, k, v, c);
    } else if k.Xlabel? || k.Ylabel? || k.TitleShowing? {
      SetKeepsOthersIn2(m, k, v, c);
    } else if k.XlabelShowing? || k.YlabelShowing? || k.CanEditMargin? {
      SetKeepsOthersIn3(m, k, v, c);
    } else if k.CanEditTitle? || k.CanEditXlabel? || k.CanEditYlabel? {
      SetKeepsOthersIn4(m, k, v, c);
    } else if k.CanDeformDomain? || k.Margin? || k.BorderWidth? {
      SetKeepsOthersIn5(m, k, v, c);
    } else if k.AxesWidth? || k.GridlinesWidth? || k.TickLength? {
      SetKeepsOthersIn6(m, k, v, c);
    } else if k.TickWidth? || k.TickLabelPadding? || k.TickLabelWidth? {
      SetKeepsOthersIn7(m, k, v, c);
    } else if k.TickLabelHeight? || k.XtickCount? || k.YtickCount? {
      SetKeepsOthersIn8(m, k, v, c);
    } else if k.MarginColour? || k.BorderColour? || k.BackgroundColour? {
      SetKeepsOthersIn9(m, k, v, c);
    } else {
      SetKeepsOthersIn10(m, k, v, c);
    }
  }

  lemma SetKeepsOthersIn0(m: FigureModel, k: Key, v: Var, c: Conversions)
    requires k.Xmin? || k.Xmax? || k.Ymin?
    ensures Set(m, k, v, c).Ok? ==> forall other :: other != k ==> Field(Set(m, k, v, c).value, other) == Field(m, other)
  {
  }

  lemma SetKeepsOthersIn1(m: FigureModel, k: Key, v: Var, c: Conversions)
    requires k.Ymax? || k.Id? || k.Title?
    ensures Set(m, k, v, c).Ok? ==> forall other :: other != k ==> Field(Set(m, k, v, c).value, other) == Field(m, other)
  {
  }

  lemma SetKeepsOthersIn2(m: FigureModel, k: Key, v: Var, c: Conversions)
    requires k.Xlabel? || k.Ylabel? || k.TitleShowing?
    ensures Set(m, k, v, c).Ok? ==> forall other :: other != k ==> Field(Set(m, k, v, c).value, other) == Field(m, other)
  {
  }

  lemma SetKeepsOthersIn3(m: FigureModel, k: Key, v: Var, c: Conversions)
    requires k.XlabelShowing? || k.YlabelShowing? || k.CanEditMargin?
    ensures Set(m, k, v, c).Ok? ==> forall other :: other != k ==> Field(Set(m, k, v, c).value, other) == Field(m, other)
  {
  }

  lemma SetKeepsOthersIn4(m: FigureModel, k: Key, v: Var, c: Conversions)
    requires k.CanEditTitle? || k.CanEditXlabel? || k.CanEditYlabel?
    ensures Set(m, k, v, c).Ok? ==> forall other :: other != k ==> Field(Set(m, k, v, c).value, other) == Field(m, other)
  {
  }

  lemma SetKeepsOthersIn5(m: FigureModel, k: Key, v: Var, c: Conversions)
    requires k.CanDeformDomain? || k.Margin? || k.BorderWidth?
    ensures Set(m, k, v, c).Ok? ==> forall other :: other != k ==> Field(Set(m, k, v, c).value, other) == Field(m, other)
  {
  }

  lemma SetKeepsOthersIn6(m: FigureModel, k: Key, v: Var, c: Conversions)
    requires k.AxesWidth? || k.GridlinesWidth? || k.TickLength?
    ensures Set(m, k, v, c).Ok? ==> forall other :: other != k ==> Field(Set(m, k, v, c).value, other) == Field(m, other)
  {
  }

  lemma SetKeepsOthersIn7(m: FigureModel, k: Key, v: Var, c: Conversions)
    requires k.TickWidth? || k.TickLabelPadding? || k.TickLabelWidth?
    ensures Set(m, k, v, c).Ok? ==> forall other :: other != k ==> Field(Set(m, k, v, c).value, other) == Field(m, other)
  {
  }

  lemma SetKeepsOthersIn8(m: FigureModel, k: Key, v: Var, c: Conversions)
    requires k.TickLabelHeight? || k.XtickCount? || k.YtickCount?
    ensures Set(m, k, v, c).Ok? ==> forall other :: other != k ==> Field(Set(m, k, v, c).value, other) == Field(m, other)
  {
  }

  lemma SetKeepsOthersIn9(m: FigureModel, k: Key, v: Var, c: Conversions)
    requires k.MarginColour? || k.BorderColour? || k.BackgroundColour?
    ensures Set(m, k, v, c).Ok? ==> forall other :: other != k ==> Field(Set(m, k, v, c).value, other) == Field(m, other)
  {
  }

  lemma SetKeepsOthersIn10(m: FigureModel, k: Key, v: Var, c: Conversions)
    requires k.GridlinesColour? || k.Content? || k.Capture?
    ensures Set(m, k, v, c).Ok? ==> forall other :: other != k ==> Field(Set(m, k, v, c).value, other) == Field(m, other)
  {
  }

  /** A property with an unknown name, or with a void value, leaves the model unchanged. */
  lemma ApplyIgnores(m: FigureModel, item: Property, c: Conversions)
    ensures KeyOf(item.name).None? ==> Apply(m, item, c) == Ok(m)
    ensures item.value.Void? ==> Apply(m, item, c) == Ok(m)
  {
    if item.value.Void? && KeyOf(item.name).Some? {
      SetIgnoresVoid(m, KeyOf(item.name).value, c);
    }
  }

  /** Only the content array can make a property fail: every other conversion succeeds. */
  lemma ApplyFailsOnlyOnContent(m: FigureModel, item: Property, c: Conversions)
    ensures Apply(m, item, c).Err? ==> item.name == KeyName(Content) && item.value.List?
  {
    match KeyOf(item.name)
    case None =>
    case Some(k) => SetFailsOnlyOnContent(m, k, item.value, c);
  }

  /** A "content" property appends the artists of its array, or fails as the content conversion does. */
  lemma ApplyContent(m: FigureModel, item: Property, c: Conversions)
    requires item.name == "content"
    ensures Apply(m, item, c) ==
      match ContentOf(m.content, item.value, c)
      case Err(e) => Err(e)
      case Ok(a) => Ok(m.(content := a))
  {
    assert item.name == KeyName(Content);
    KeyOfKeyName(Content);
    SetContent(m, item.value, c);
  }

  /** The content key appends what the content conversion gives. */
  lemma SetContent(m: FigureModel, v: Var, c: Conversions)
    ensures Set(m, Content, v, c) ==
      match ContentOf(m.content, v, c)
      case Err(e) => Err(e)
      case Ok(a) => Ok(m.(content := a))
  {
  }

  /** The position of a key in the if-chain. */
  function Position(k: Key): (i: nat)
    ensures i < |AllKeys| && AllKeys[i] == k
  {
    match k
    case Xmin => 0
    case Xmax => 1
    case Ymin => 2
    case Ymax => 3
    case Id => 4
    case Title => 5
    case Xlabel => 6
    case Ylabel => 7
    case TitleShowing => 8
    case XlabelShowing => 9
    case YlabelShowing => 10
    case CanEditMargin => 11
    case CanEditTitle => 12
    case CanEditXlabel => 13
    case CanEditYlabel => 14
    case CanDeformDomain => 15
    case Margin => 16
    case BorderWidth => 17
    case AxesWidth => 18
    case GridlinesWidth => 19
    case TickLength => 20
    case TickWidth => 21
    case TickLabelPadding => 22
    case TickLabelWidth => 23
    case TickLabelHeight => 24
    case XtickCount => 25
    case YtickCount => 26
    case MarginColour => 27
    case BorderColour => 28
    case BackgroundColour => 29
    case GridlinesColour => 30
    case Content => 31
    case Capture => 32
  }

  /** Every field whose name the object does not hold keeps the starting model's value. */
  lemma FromPropsKeepsAbsentFields(m: FigureModel, props: seq<Property>, key: Key, c: Conversions)
    requires forall k :: 0 <= k < |props| ==> props[k].name != KeyName(key)
    requires FromProps(m, props, c).Ok?
    ensures Field(FromProps(m, props, c).value, key) == Field(m, key)
  {
    var step := ApplyStep(c);
    var get := x => Field(x, key);
    forall x: FigureModel, item: Property | item.name != KeyName(key) && step(x, item).Ok?
      ensures get(step(x, item).value) == get(x)
    {
      ApplyOtherKey(x, item, key, c);
    }
    WalkKeeps(m, props, step, KeyName(key), get);
  }

  /** A property under another key's name, or under no key's name, leaves a field as it was. */
  lemma ApplyOtherKey(m: FigureModel, item: Property, k: Key, c: Conversions)
    requires item.name != KeyName(k) && Apply(m, item, c).Ok?
    ensures Field(Apply(m, item, c).value, k) == Field(m, k)
  {
    match KeyOf(item.name)
    case None =>
    case Some(k1) => SetKeepsOthers(m, k1, item.value, c);
  }
}
