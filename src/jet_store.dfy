// The jet-in-cloud viewer of CounterPlot/Source/Viewers: a store holding the
// viewer's whole state, updated by dispatching actions, each handled
// action publishing the new state to the one subscriber exactly once, and
// the viewer that routes figure edits and commands to the store.
module JetInCloudStore {
  import opened Wrappers
  import opened Geometry
  import opened Colours
  import opened FigureModels
  import Vars
  import Text
  import ColourMaps

  /** `TriangleVertexData`: the scalar extent and the (possibly null) vertex and scalar arrays. */
  datatype TriangleData = TriangleData(scalarExtent: (real, real), vertices: Option<seq<Point>>, scalars: Option<seq<real>>)

  /** The member initialisers: extent [0, 1] and null arrays. */
  const NoTriangles: TriangleData := TriangleData((0.0, 1.0), None, None)

  datatype ScalarMapping = ScalarMapping(stops: seq<Colour>, vmin: real, vmax: real)

  /** The two artists the state holds, by identity. */
  const Quadmesh: Vars.ArtistRef := Vars.ArtistRef(1, true)
  const Gradient: Vars.ArtistRef := Vars.ArtistRef(2, false)

  /**
   * `jic::State`. The quad-mesh and gradient artists are shared objects that
   * only the store changes; their contents are the `quadmesh*` and
   * `gradientStops` fields.
   */
  datatype State = State(
    quadmeshData: TriangleData,
    quadmeshMapping: ScalarMapping,
    gradientStops: seq<Colour>,
    triangles: TriangleData,
    mapping: ScalarMapping,
    cmapModel: FigureModel,
    mainModel: FigureModel,
    file: string)

  const InitialMainModel: FigureModel := Default.(
    titleShowing := true, xlabelShowing := false, ylabelShowing := false,
    canEditMargin := true, canEditXlabel := false, canEditYlabel := false, canEditTitle := false,
    canDeformDomain := false,
    margin := Default.margin.WithRight(20).WithLeft(40),
    xtickCount := 5, ytickCount := 5,
    xmin := -5.0, xmax := 5.0, ymin := -5.0, ymax := 5.0,
    content := [Quadmesh])

  const InitialCmapModel: FigureModel := Default.(
    titleShowing := false, xlabelShowing := false, ylabelShowing := false,
    canEditMargin := false, canEditXlabel := false, canEditYlabel := false, canEditTitle := false,
    margin := Default.margin.WithLeft(40).WithRight(20),
    xtickCount := 0, ytickCount := 10,
    xmin := 0.0, xmax := 1.0, ymin := 0.0, ymax := 1.0,
    gridlinesColour := TransparentBlack,
    content := [Gradient])

  /**
   * The `State` constructor; `stops` are the current stops of a fresh colour
   * map collection, whose resources are not part of this model.
   */
  function InitialState(stops: seq<Colour>): (s: State)
  {
    var mapping := ScalarMapping(stops, 0.0, 1.0);
    State(NoTriangles, mapping, stops, NoTriangles, mapping, InitialCmapModel, InitialMainModel, "")
  }

  /** The state starts with the scalar range [0, 1] and the main domain [-5, 5] x [-5, 5], and no data. */
  lemma InitialStateValues(stops: seq<Colour>)
    ensures var s := InitialState(stops);
      s.mapping.vmin == 0.0 && s.mapping.vmax == 1.0 && s.mapping.stops == stops &&
      s.quadmeshMapping == s.mapping && s.gradientStops == stops &&
      GetDomain(s.mainModel) == Domain(-5.0, -5.0, 10.0, 10.0) &&
      s.mainModel.content == [Quadmesh] && s.cmapModel.content == [Gradient] &&
      s.triangles.vertices.None? && s.file == ""
  {
  }

  datatype Action =
    | SetFile(file: string)
    | SetTriangleData(triangles: TriangleData)
    | SetColourMap(stops: seq<Colour>)
    | SetFigureMargin(margin: Border)
    | SetFigureDomain(xmin: real, xmax: real, ymin: real, ymax: real)
    | SetScalarDomain(vmin: real, vmax: real)
    | SetScalarDomainToExtent

  /** The reducer: the state a dispatched action leaves behind. */
  function Reduce(s: State, a: Action): State
  {
    match a
    case SetFile(file) =>
      if s.file == file then s else s.(file := file, mainModel := s.mainModel.(title := Text.FileName(file)))
    case SetTriangleData(t) =>
      var s1 := s.(triangles := t, quadmeshData := t);
      if s.triangles.vertices.None? then ScalarDomain(s1, t.scalarExtent.0, t.scalarExtent.1) else s1
    case SetColourMap(stops) =>
      var m := s.mapping.(stops := stops);
      s.(mapping := m, gradientStops := stops, quadmeshMapping := m)
    case SetFigureMargin(margin) => FigureMargin(s, margin)
    case SetFigureDomain(x0, x1, y0, y1) => FigureDomain(s, x0, x1, y0, y1)
    case SetScalarDomain(v0, v1) => ScalarDomain(s, v0, v1)
    case SetScalarDomainToExtent => ScalarDomain(s, s.triangles.scalarExtent.0, s.triangles.scalarExtent.1)
  }

  function ScalarDomain(s: State, vmin: real, vmax: real): State
  {
    var m := s.mapping.(vmin := vmin, vmax := vmax);
    s.(mapping := m, cmapModel := s.cmapModel.(ymin := vmin, ymax := vmax),
       gradientStops := m.stops, quadmeshMapping := m)
  }

  function FigureDomain(s: State, xmin: real, xmax: real, ymin: real, ymax: real): State
  {
    s.(mainModel := s.mainModel.(xmin := xmin, xmax := xmax, ymin := ymin, ymax := ymax))
  }

  function FigureMargin(s: State, margin: Border): State
  {
    s.(mainModel := s.mainModel.(margin := margin),
       cmapModel := s.cmapModel.(margin := s.cmapModel.margin.WithTop(margin.top).WithBottom(margin.bottom)))
  }

  /** Does the action reach the subscriber? Everything but a `SetFile` with the current file does. */
  predicate Notifies(s: State, a: Action)
  {
    !(a.SetFile? && a.file == s.file)
  }

  // ---------------------------------------------------------------------
  // Properties of the reducer

  /** A new file is recorded and titles the main figure; the current file changes nothing. */
  lemma SetFileEffect(s: State, file: string)
    ensures file == s.file ==> Reduce(s, SetFile(file)) == s && !Notifies(s, SetFile(file))
    ensures file != s.file ==>
      Reduce(s, SetFile(file)).file == file &&
      Reduce(s, SetFile(file)).mainModel.title == Text.FileName(file) && Notifies(s, SetFile(file))
  {
  }

  /**
   * `SetScalarDomain` puts the same pair into the mapping, the artists' copy of
   * it and the colour bar's y-limits, and changes nothing else.
   */
  lemma ScalarDomainEffect(s: State, vmin: real, vmax: real)
    ensures var r := Reduce(s, SetScalarDomain(vmin, vmax));
      r.mapping.vmin == vmin && r.mapping.vmax == vmax && r.mapping.stops == s.mapping.stops &&
      r.quadmeshMapping == r.mapping &&
      r.cmapModel.ymin == vmin && r.cmapModel.ymax == vmax &&
      r.cmapModel.(ymin := s.cmapModel.ymin, ymax := s.cmapModel.ymax) == s.cmapModel &&
      r.mainModel == s.mainModel && r.triangles == s.triangles && r.file == s.file
  {
  }

  /** `SetScalarDomainToExtent` is `SetScalarDomain` with the triangles' extent. */
  lemma ToExtentIsScalarDomain(s: State)
    ensures Reduce(s, SetScalarDomainToExtent) ==
      Reduce(s, SetScalarDomain(s.triangles.scalarExtent.0, s.triangles.scalarExtent.1))
  {
  }

  /**
   * `SetTriangleData` stores the data for the state and the artist; the first
   * data to arrive (the previous vertices null) also resets the scalar range
   * to its extent, later data keeps the range.
   */
  lemma TriangleDataEffect(s: State, t: TriangleData)
    ensures var r := Reduce(s, SetTriangleData(t));
      r.triangles == t && r.quadmeshData == t && r.file == s.file && r.mainModel == s.mainModel &&
      (s.triangles.vertices.None? ==> r.mapping.vmin == t.scalarExtent.0 && r.mapping.vmax == t.scalarExtent.1) &&
      (s.triangles.vertices.Some? ==> r.mapping == s.mapping && r.cmapModel == s.cmapModel)
  {
  }

  /** `SetFigureDomain` changes only the main figure's four limits. */
  lemma FigureDomainEffect(s: State, xmin: real, xmax: real, ymin: real, ymax: real)
    ensures var r := Reduce(s, SetFigureDomain(xmin, xmax, ymin, ymax));
      GetDomain(r.mainModel) == Domain(xmin, ymin, xmax - xmin, ymax - ymin) &&
      r.(mainModel := s.mainModel) == s &&
      r.mainModel.(xmin := s.mainModel.xmin, xmax := s.mainModel.xmax,
                   ymin := s.mainModel.ymin, ymax := s.mainModel.ymax) == s.mainModel
  {
  }

  /** `SetFigureMargin` replaces the main margin and copies only its top and bottom into the colour bar's. */
  lemma FigureMarginEffect(s: State, margin: Border)
    ensures var r := Reduce(s, SetFigureMargin(margin));
      r.mainModel.margin == margin &&
      r.cmapModel.margin == Border(margin.top, s.cmapModel.margin.left, margin.bottom, s.cmapModel.margin.right) &&
      r.(mainModel := s.mainModel, cmapModel := s.cmapModel) == s
  {
  }

  // ---------------------------------------------------------------------
  // The store

  class Store {
    var state: State
    /** The states handed to `subscriber.update`, in order. */
    var published: seq<State>
    /** The file whose loading job is queued; a new job removes all earlier ones. */
    var pendingLoad: Option<string>

    /** The constructor publishes the initial state once. */
    constructor (stops: seq<Colour>)
      ensures state == InitialState(stops) && published == [state] && pendingLoad == None
    {
      state := InitialState(stops);
      published := [InitialState(stops)];
      pendingLoad := None;
    }

    method Publish()
      modifies this`published
      ensures published == old(published) + [state]
    {
      published := published + [state];
    }

    /** `dispatch (SetFile)`: a new file queues its loading job, replacing any earlier one. */
    method DispatchSetFile(file: string)
      modifies this
      ensures state == Reduce(old(state), SetFile(file))
      ensures published == old(published) + (if Notifies(old(state), SetFile(file)) then [state] else [])
      ensures pendingLoad == if Notifies(old(state), SetFile(file)) then Some(file) else old(pendingLoad)
    {
      if state.file != file {
        state := state.(file := file, mainModel := state.mainModel.(title := Text.FileName(file)));
        pendingLoad := Some(file);
        Publish();
      }
    }

    method DispatchSetTriangleData(t: TriangleData)
      modifies this`state, this`published
      ensures state == Reduce(old(state), SetTriangleData(t))
      ensures published == old(published) + [state]
    {
      var wasEmpty := state.triangles.vertices == None;
      state := state.(triangles := t, quadmeshData := t);
      if wasEmpty {
        DispatchSetScalarDomainToExtent();
      } else {
        Publish();
      }
    }

    method DispatchSetColourMap(stops: seq<Colour>)
      modifies this`state, this`published
      ensures state == Reduce(old(state), SetColourMap(stops))
      ensures published == old(published) + [state]
    {
      state := state.(mapping := state.mapping.(stops := stops));
      state := state.(gradientStops := state.mapping.stops);
      state := state.(quadmeshMapping := state.mapping);
      Publish();
    }

    method DispatchSetScalarDomain(vmin: real, vmax: real)
      modifies this`state, this`published
      ensures state == Reduce(old(state), SetScalarDomain(vmin, vmax))
      ensures published == old(published) + [state]
    {
      state := state.(mapping := state.mapping.(vmin := vmin, vmax := vmax));
      state := state.(cmapModel := state.cmapModel.(ymin := vmin, ymax := vmax));
      state := state.(gradientStops := state.mapping.stops, quadmeshMapping := state.mapping);
      Publish();
    }

    method DispatchSetScalarDomainToExtent()
      modifies this`state, this`published
      ensures state == Reduce(old(state), SetScalarDomainToExtent)
      ensures published == old(published) + [state]
    {
      DispatchSetScalarDomain(state.triangles.scalarExtent.0, state.triangles.scalarExtent.1);
    }

    method DispatchSetFigureDomain(xmin: real, xmax: real, ymin: real, ymax: real)
      modifies this`state, this`published
      ensures state == Reduce(old(state), SetFigureDomain(xmin, xmax, ymin, ymax))
      ensures published == old(published) + [state]
    {
      state := state.(mainModel := state.mainModel.(xmin := xmin, xmax := xmax, ymin := ymin, ymax := ymax));
      Publish();
    }

    method DispatchSetFigureMargin(margin: Border)
      modifies this`state, this`published
      ensures state == Reduce(old(state), SetFigureMargin(margin))
      ensures published == old(published) + [state]
    {
      state := state.(mainModel := state.mainModel.(margin := margin));
      state := state.(cmapModel := state.cmapModel.(margin := state.cmapModel.margin.WithTop(margin.top).WithBottom(margin.bottom)));
      Publish();
    }

    /**
     * `dispatch (SetFigureDomain, SetFigureMargin)`: the effect of the domain
     * action followed by the margin action, published once instead of twice.
     */
    method DispatchSetFigureDomainAndMargin(xmin: real, xmax: real, ymin: real, ymax: real, margin: Border)
      modifies this`state, this`published
      ensures state == Reduce(Reduce(old(state), SetFigureDomain(xmin, xmax, ymin, ymax)), SetFigureMargin(margin))
      ensures published == old(published) + [state]
    {
      state := state.(mainModel := state.mainModel.(xmin := xmin, xmax := xmax, ymin := ymin, ymax := ymax));
      state := state.(mainModel := state.mainModel.(margin := margin));
      state := state.(cmapModel := state.cmapModel.(margin := state.cmapModel.margin.WithTop(margin.top).WithBottom(margin.bottom)));
      Publish();
    }
  }

  // ---------------------------------------------------------------------
  // The viewer

  /** The viewer's two figures. */
  datatype Figure = MainFigure | CmapFigure

  datatype Command = MakeSnapshotAndOpen | SaveSnapshotAs | NextColourMap | PrevColourMap | ResetScalarRange | OtherCommand

  class JetInCloudViewer {
    const store: Store
    const cmaps: ColourMaps.ColourMapCollection

    ghost predicate Valid()
      reads this, cmaps
    {
      cmaps.Valid() && |cmaps.names| > 0 && store as object != cmaps
    }

    /** The viewer owns a store (which publishes once) and the default colour maps. */
    constructor (stops: seq<Colour>, defaultStops: seq<seq<Colour>>)
      requires |defaultStops| == |ColourMaps.DefaultNames|
      ensures Valid() && fresh(store) && fresh(cmaps)
      ensures store.state == InitialState(stops) && |store.published| == 1
    {
      store := new Store(stops);
      cmaps := new ColourMaps.ColourMapCollection(true, defaultStops);
    }

    /** `loadFile`: the file goes to the store. */
    method LoadFile(file: string)
      modifies store
      ensures store.state == Reduce(old(store.state), SetFile(file))
    {
      store.DispatchSetFile(file);
    }

    /** `figureViewSetMargin`: only the main figure's margin edits reach the store. */
    method FigureViewSetMargin(figure: Figure, margin: Border)
      modifies store
      ensures figure == MainFigure ==>
        store.state == Reduce(old(store.state), SetFigureMargin(margin)) &&
        |store.published| == |old(store.published)| + 1
      ensures figure == CmapFigure ==> store.state == old(store.state) && store.published == old(store.published)
    {
      if figure == MainFigure {
        store.DispatchSetFigureMargin(margin);
      }
    }

    /** `figureViewSetDomainAndMargin`: only for the main figure, as one combined action. */
    method FigureViewSetDomainAndMargin(figure: Figure, domain: Domain, margin: Border)
      modifies store
      ensures figure == MainFigure ==>
        store.state == Reduce(Reduce(old(store.state), SetFigureDomain(domain.x, domain.Right(), domain.y, domain.Bottom())), SetFigureMargin(margin))
      ensures figure == CmapFigure ==> store.state == old(store.state) && store.published == old(store.published)
    {
      if figure == MainFigure {
        store.DispatchSetFigureDomainAndMargin(domain.x, domain.Right(), domain.y, domain.Bottom(), margin);
      }
    }

    /**
     * `figureViewSetDomain`: the main figure's domain becomes its limits; the
     * colour bar's vertical extent becomes the scalar range.
     */
    method FigureViewSetDomain(figure: Figure, domain: Domain)
      modifies store
      ensures figure == MainFigure ==>
        store.state == Reduce(old(store.state), SetFigureDomain(domain.x, domain.Right(), domain.y, domain.Bottom()))
      ensures figure == CmapFigure ==>
        store.state == Reduce(old(store.state), SetScalarDomain(domain.y, domain.Bottom()))
      ensures |store.published| == |old(store.published)| + 1
    {
      if figure == MainFigure {
        store.DispatchSetFigureDomain(domain.x, domain.Right(), domain.y, domain.Bottom());
      } else {
        store.DispatchSetScalarDomain(domain.y, domain.Bottom());
      }
    }

    /**
     * `perform`: the colour-map commands move the collection's cursor and send
     * the stops under it; the reset command sends the extent; every command
     * is reported as handled.
     */
    method Perform(command: Command) returns (handled: bool)
      requires Valid()
      modifies store, cmaps
      ensures Valid() && handled
      ensures command == NextColourMap ==>
        cmaps.currentIndex == ColourMaps.NextIndex(old(cmaps.currentIndex), |cmaps.names|) &&
        store.state == Reduce(old(store.state), SetColourMap(cmaps.GetCurrentStops()))
      ensures command == PrevColourMap ==>
        cmaps.currentIndex == ColourMaps.PrevIndex(old(cmaps.currentIndex), |cmaps.names|) &&
        store.state == Reduce(old(store.state), SetColourMap(cmaps.GetCurrentStops()))
      ensures command == ResetScalarRange ==> store.state == Reduce(old(store.state), SetScalarDomainToExtent)
      ensures command !in {NextColourMap, PrevColourMap, ResetScalarRange} ==>
        store.state == old(store.state) && cmaps.currentIndex == old(cmaps.currentIndex)
    {
      match command {
        case NextColourMap =>
          var stops := cmaps.Next();
          store.DispatchSetColourMap(stops);
        case PrevColourMap =>
          var stops := cmaps.Prev();
          store.DispatchSetColourMap(stops);
        case ResetScalarRange =>
          store.DispatchSetScalarDomainToExtent();
        case _ =>
      }
      handled := true;
    }
  }
}
