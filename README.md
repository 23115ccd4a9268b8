# CounterPlot and PatchView core, modelled in Dafny

CounterPlot is a JUCE desktop viewer for scientific plots; PatchView is its
older prototype; `Tools/colormaps.py` exports matplotlib colour maps as the
`.cmap` integer tables both programs read. No single algorithm sits at the
centre of the repository: this project models the small sequential pieces
under the GUI and proves what each of them promises.

- **Colour maps and palettes** (`colours.dfy`, `colour_maps.dfy`,
  `colormap_export.dfy`): JUCE colours as bytes, `.cmap` tables parsed into
  colours and packed into RGBA words, the name-keyed `ColourMapCollection`
  with its wrap-around cursor, and the export script's scaling and file
  naming, with the round trip between the script's output and the reader.
- **Integer layout** (`geometry.dfy`, `plot_geometry.dfy`,
  `table_view.dfy`, `resizer_frame.dfy`, `components_main.dfy`): JUCE
  `Rectangle`/`BorderSize` operations on integers, the figure's margin strips
  and tick areas, the table's column and row edges and cell lookup, the nine
  drag zones of the resizer frame and the status bar's slices.
- **Parsers and serialisers** (`ascii_loader.dfy`, `figure_view.dfy`,
  `runtime.dfy`, `figure_model.dfy`, `figure_var.dfy`, `data_helpers.dfy`,
  `outline.dfy`): the whitespace table loader, tick label trimming, the
  runtime's type errors and builtins, the figure model's property-map
  reader and writer, YAML and `var` trees as abstract trees, and the outline
  view's flattening of nested arrays.
- **Stateful containers** (`components_main.dfy`, `counter_main.dfy`,
  `viewer_collection.dfy`, `metal_surface.dfy`, `jet_store.dfy`,
  `file_watcher.dfy`, `figure_grid.dfy`, the view files): classes whose
  methods update the fields the C++ objects update — the sorted source list,
  the status bar's counters and countdown, the viewer collections, the
  bounded buffer caches, the jet-in-cloud store's reducer, the file watcher
  and the margin and domain propagation between figures of a grid.
- **Array builders** (`mesh_helpers.dfy`, `binary_torques.dfy`,
  `grid_views.dfy`, `patch_main.dfy`, `colour_map_view.dfy`): quad meshes of
  six vertices or scalars per cell with their bailout callbacks, running
  scalar extents, `linspace` and the in-place 1-2-3-2-1 smoothing stencil.

`Numbers`, `Text`, `Vars` and `Geometry` model the C++ and JUCE library
semantics the rest relies on: truncating division and remainder, string
tokenising and integer parsing, the `var` variant type and rectangles.
Floating-point values are `real`s; where the source computes a value with
`log10`, `logf`, `sin` or JSON parsing, that function is a parameter. The
clock, file modification times and directory listings are parameters of the
calls that read them.

## Model

| member | source | states |
|---|---|---|
| Artists.GlyphAt | CounterPlot/Source/Plotting/Artists.cpp:60-107 | a point's glyph has the marker's style, fill colour, edge colour and edge width, and a square area of the marker size centred on the point |
| Artists.Paint | CounterPlot/Source/Plotting/Artists.cpp:11-110 | the operations issued are exactly the reference `PaintOps`: nothing for an empty line, else one stroke through every point in order with the style's dash pattern, the line colour and the line width (unless the style is none), then one glyph per point with the marker fill colour, edge colour and edge width (unless the marker style is none) |
| Artists.PaintGating | CounterPlot/Source/Plotting/Artists.cpp:15-109 | an empty line draws nothing; the stroke goes through the transformed points with the style's dashes, the line colour and the line width; glyph n is `GlyphAt` point n, after the stroke |
| Artists.PatchPaint | PatchView/Source/FigureView.cpp:148-168 | PatchView's line artist draws what CounterPlot's draws for a solid line of the same width and colour without markers, and nothing exactly when the line is empty |
| Artists.OrientationNamed | CounterPlot/Source/Plotting/Artists.cpp:134-140 | a name is recognised exactly when it is "vertical" or "horizontal" |
| Artists.OrientationNameRoundTrip | CounterPlot/Source/Plotting/Artists.cpp:137-138 | every orientation is found again by its own name |
| Artists.GradientStops | CounterPlot/Source/Plotting/Artists.cpp:153-160 | one positioned stop per colour, in order, stop n at n/(size−1); also `PatchView/Source/FigureView.cpp:180-188`: the same stop placement in PatchView's gradient artist |
| Artists.StopsSpanUnitInterval | CounterPlot/Source/Plotting/Artists.cpp:155-160 | with two or more stops the first sits at 0, the last at 1, and positions strictly increase |
| Artists.GradientEnds | CounterPlot/Source/Plotting/Artists.cpp:162-189 | following the transform, the gradient spans the domain's unit interval on its axis; otherwise it starts at the range's bottom-left corner and spans the range's width (horizontal) or height (vertical) |
| Artists.ColourGradientArtist.constructor | CounterPlot/Source/Plotting/Artists.cpp:116-118 | a new gradient has no stops, is vertical and does not follow the transform |
| Artists.ColourGradientArtist.WithStops | CounterPlot/Source/Plotting/Artists.cpp:120-122 | the gradient holds the given stops, with the default orientation and transform flag |
| Artists.ColourGradientArtist.SetStops | CounterPlot/Source/Plotting/Artists.cpp:124-127 | the stops are replaced and nothing else changes |
| Artists.ColourGradientArtist.SetOrientation | CounterPlot/Source/Plotting/Artists.cpp:129-132 | the orientation is replaced and nothing else changes |
| Artists.ColourGradientArtist.SetOrientationNamed | CounterPlot/Source/Plotting/Artists.cpp:134-140 | a known name sets its orientation without error; an unknown one leaves the orientation and reports `invalid_argument` exactly when asked to throw |
| Artists.ColourGradientArtist.SetGradientFollowsTransform | CounterPlot/Source/Plotting/Artists.cpp:142-145 | the flag is replaced and nothing else changes |
| AsciiLoaders.Lines | CounterPlot/Source/Core/AsciiLoader.cpp:12-15 | the `while (stream)` / `getline` loop sees the pieces between newlines and then one more empty line, also after a last line with no newline; no line contains a newline, the last line is always empty, and non-empty text gives at least two lines |
| AsciiLoaders.LinesRoundTrip | CounterPlot/Source/Core/AsciiLoader.cpp:12-15 | splitting into lines loses nothing: joining them with newlines gives the text back, with a final newline added when it had none |
| AsciiLoaders.UnterminatedReadsAsTerminated | CounterPlot/Source/Core/AsciiLoader.cpp:12-15 | text whose last line lacks a newline is read as the same lines as the text with the newline added |
| AsciiLoaders.UnterminatedTextGetsEmptyPass | CounterPlot/Source/Core/AsciiLoader.cpp:12-54 | "abc" without a final newline is read as "abc" then an empty line, and with no numbers in either both count as rows |
| AsciiLoaders.HeaderNames | CounterPlot/Source/Core/AsciiLoader.cpp:24-29 | the header's names are its words after the leading '#' word |
| AsciiLoaders.ColumnNames | CounterPlot/Source/Core/AsciiLoader.cpp:42-48 | n generated names, name i being "Col i" |
| AsciiLoaders.HeaderLine | CounterPlot/Source/Core/AsciiLoader.cpp:19-30 | a '#' line before any data sets the names to the header's words and the column count to their number, touching nothing else |
| AsciiLoaders.LateCommentIgnored | CounterPlot/Source/Core/AsciiLoader.cpp:19-31 | once data has been read, a '#' line changes nothing |
| AsciiLoaders.FirstRowNamesColumns | CounterPlot/Source/Core/AsciiLoader.cpp:37-48 | without a header, the first data line fixes the column count and the names "Col 0" … |
| AsciiLoaders.RowKeptIffComplete | CounterPlot/Source/Core/AsciiLoader.cpp:50-54 | a data line is appended whole, as one more row, exactly when it has as many values as there are columns |
| AsciiLoaders.IncompleteRowSetsStatus | CounterPlot/Source/Core/AsciiLoader.cpp:55-58 | a non-empty line of the wrong width sets the status to a message whose number reads back as its 1-based line number; other lines keep the status |
| AsciiLoaders.StatusNamesBadLine | CounterPlot/Source/Core/AsciiLoader.cpp:8-61 | after a whole file, the status is empty or names a line that was a non-empty data row of the wrong width |
| AsciiLoaders.LeadingEmptyLineCountsAsRow | CounterPlot/Source/Core/AsciiLoader.cpp:37-54 | a file "\n1 2\n" loads as two rows of two columns holding only two values: the empty first line counts as a row |
| AsciiLoaders.LoadFixedIsRectangular | CounterPlot/Source/Core/AsciiLoader.cpp:50-54 | when lines without values are not rows, every table read holds exactly rows × columns values |
| AsciiLoaders.AsciiLoader.constructor | CounterPlot/Source/Core/AsciiLoader.cpp:8-61 | the loader's state is the reference fold `Load` of the text's lines (including the final empty pass), line k numbered k + 1 |
| AsciiLoaders.AsciiLoader.ReadLine | CounterPlot/Source/Core/AsciiLoader.cpp:14-59 | one pass of the loop changes the state exactly as the reference step `Step` does |
| AsciiLoaders.AsciiLoader.GetColumnData | CounterPlot/Source/Core/AsciiLoader.cpp:73-82 | column j: one value per row, the row's j-th, top to bottom |
| AsciiLoaders.AsciiLoader.GetRowData | CounterPlot/Source/Core/AsciiLoader.cpp:84-93 | row i: its values left to right, one per column |
| AsciiLoaders.AsciiLoader.GetColumnName | CounterPlot/Source/Core/AsciiLoader.cpp:95-98 | the name at an index, and `out_of_range` exactly when the index is outside the names |
| BinaryTorques.Processed | CounterPlot/Source/Views/BinaryTorquesView.cpp:20-52 | the number of cells visited lies between the start and the cell count |
| BinaryTorques.ProcessedIsFirstBail | CounterPlot/Source/Views/BinaryTorquesView.cpp:47-50 | construction visits cells up to and including the first after which the bailout answers true, and stops early exactly when some call answers true |
| BinaryTorques.ProcessedStopsAt | CounterPlot/Source/Views/BinaryTorquesView.cpp:47-50 | when the first true answer comes after cell k, exactly k + 1 cells are visited |
| BinaryTorques.ProcessedAll | CounterPlot/Source/Views/BinaryTorquesView.cpp:20-52 | when the bailout never answers true, every cell is visited |
| BinaryTorques.BuildTorquesArtist | CounterPlot/Source/Views/BinaryTorquesView.cpp:11-58 | the artist holds six scalars per visited cell, each the cell's logarithm; its extent, seeded with the raw value of cell (0, 0) as written, spans that raw value and the minimum and maximum of the logarithms; it is complete exactly when the bailout never answered true, and only then maps the magma stops over the extent |
| BinaryTorques.BuildCells | CounterPlot/Source/Views/BinaryTorquesView.cpp:20-52 | the row loop visits the cells in row-major order up to the first bailing one, collecting their scalars and the running extent from the seed |
| BinaryTorques.ProcessRow | CounterPlot/Source/Views/BinaryTorquesView.cpp:22-51 | one pass of the outer loop keeps the loop's invariant: everything collected is that of the cells visited so far |
| BinaryTorques.BuildRow | CounterPlot/Source/Views/BinaryTorquesView.cpp:22-51 | the inner loop over a row appends six scalars per cell and widens the extent by each logarithm, stopping right after the first cell whose bailout call answers true |
| BinaryTorques.ExtentBounds | CounterPlot/Source/Views/BinaryTorquesView.cpp:44-45 | the running extent contains its seed and every value, and each end is the seed or one of the values |
| BinaryTorques.RawSeedWidensExtent | CounterPlot/Source/Views/BinaryTorquesView.cpp:17-18 | as written, a single cell holding 100 (logarithm 2) gets the extent [2, 100] instead of [2, 2] |
| BinaryTorques.SeededExtentIsMinMax | CounterPlot/Source/Views/BinaryTorquesView.cpp:17-18 | a running extent seeded with one value ends as that value widened by the minimum and maximum of the values that follow |
| BinaryTorques.IntendedExtentIsMinMax | CounterPlot/Source/Views/BinaryTorquesView.cpp:17-18 | seeded with the first cell's logarithm, the extent is exactly the minimum and maximum of the scalars |
| BinaryTorques.BinaryTorquesView.constructor | CounterPlot/Source/Views/BinaryTorquesView.cpp:108-156 | both figure models take the listed settings, there is no quad mesh, and the figures keep their default models |
| BinaryTorques.BinaryTorquesView.LoadFile | CounterPlot/Source/Views/BinaryTorquesView.cpp:162-165 | synchronous loading always declines |
| BinaryTorques.BinaryTorquesView.LoadFileAsync | CounterPlot/Source/Views/BinaryTorquesView.cpp:167-184 | the new artist replaces the quad mesh even when interrupted; only a complete one records the file |
| BinaryTorques.Refreshed | CounterPlot/Source/Views/BinaryTorquesView.cpp:191-207 | `updateFigures` on the view's fields: with a mesh, it takes the stops, the gradient its mapping, the main figure the file's name and the mesh, the colour bar the gradient and the mapping's range, and both are shown; without one nothing changes |
| BinaryTorques.RefreshedKeepsEdits | CounterPlot/Source/Views/BinaryTorquesView.cpp:191-207 | a refresh keeps both margins, the main figure's limits, the colour bar's x-limits and the mesh apart from its stops, including its range |
| BinaryTorques.RefreshedIdempotent | CounterPlot/Source/Views/BinaryTorquesView.cpp:191-207 | refreshing twice with the same colour map and file is refreshing once |
| BinaryTorques.WithRange | CounterPlot/Source/Views/BinaryTorquesView.cpp:244-248 | the mesh with only its mapping's range replaced; no mesh stays no mesh |
| BinaryTorques.BinaryTorquesView.UpdateFigures | CounterPlot/Source/Views/BinaryTorquesView.cpp:191-207 | with a quad mesh: it takes the current colour map, the gradient copies its mapping, the main figure is titled with the file name and shows the mesh, the colour bar shows the gradient over the mapping's range, and both figures receive their models; without one nothing changes; the new fields are `Refreshed` of the old ones |
| BinaryTorques.BinaryTorquesView.FigureViewSetMargin | CounterPlot/Source/Views/BinaryTorquesView.cpp:222-232 | an edit of the colour bar's margin changes nothing; one of the main figure's sets its margin, the colour bar follows its top and bottom, and the figures are then refreshed from those models (title, content, colour-bar range, mesh stops, gradient, shown models) |
| BinaryTorques.BinaryTorquesView.FigureViewSetDomain | CounterPlot/Source/Views/BinaryTorquesView.cpp:234-251 | the edited figure's limits become the domain; a colour-bar edit also becomes the quad mesh's scalar range; the figures are then refreshed, and nothing else changes |
| BinaryTorques.BinaryTorquesView.Perform | CounterPlot/Source/Views/BinaryTorquesView.cpp:279-296 | next and previous move the colour-map cursor cyclically and refresh the figures with the new map's stops; reset sets the mesh's range to its extent and refreshes, or changes nothing without a mesh; other commands change nothing; the colour-map list is kept; every command is handled |
| ColourMapExport.ScaledValueRange | Tools/colormaps.py:12 | a channel in [0, 1] becomes an integer in [0, 256], and 256 exactly for a channel of 1 |
| ColourMapExport.Scaled | Tools/colormaps.py:12 | the table has one row per colour and one integer per channel, each the channel times 256 truncated |
| ColourMapExport.TokensOfTable | Tools/colormaps.py:13 | splitting the written text at spaces and newlines gives back every printed value, row by row |
| ColourMapExport.WordsOfTriples | Tools/colormaps.py:13 | in a table of three-value rows, value j of row n is the file's word 3n + j |
| ColourMapExport.TableReadsBack | Tools/colormaps.py:12-13 | the colour-map reader parses a written table of three-value rows back to one opaque colour per row, each channel the written value reduced to a byte |
| ColourMapExport.Kept | Tools/colormaps.py:7-10 | a map is exported exactly when it is listed and its name does not end in "_r" |
| ColourMapExport.Export | Tools/colormaps.py:7-13 | one file per kept map, in order, named "<name>.cmap" and holding its scaled table |
| ColourMapExport.ExportedNames | Tools/colormaps.py:13 | every file written ends in ".cmap", which the reader recognises as an RGB table, and comes from a listed map not ending in "_r" |
| ColourMapExport.ScaledTableReadsBack | Tools/colormaps.py:12 | as written, every channel below 1 reads back as its scaled value, and a full channel reads back as 0 |
| ColourMapExport.WhiteReadsBackAsBlack | Tools/colormaps.py:12 | as written, pure white is written as "256 256 256" and read back as opaque black |
| ColourMapExport.Clamped | Tools/colormaps.py:12 | the corrected table: each value is the channel times 256, truncated and capped at 255 |
| ColourMapExport.ClampedTableReadsBack | Tools/colormaps.py:12 | with the cap, every colour reads back with exactly the values written; a full channel gives 255, and channels below 1 are unchanged |
| ColourMapViews.Linspace | CounterPlot/Source/Views/ColourMapView.cpp:154-164 | `num` entries (none for a negative count), entry n being x0 + (x1 − x0)·n/(num − 1), and not a number when num is 1 |
| ColourMapViews.LinspaceSpans | CounterPlot/Source/Views/ColourMapView.cpp:154-164 | with two or more entries the first is x0, the last x1, and consecutive entries differ by the same step, rising when x1 ≥ x0 |
| ColourMapViews.Smooth | CounterPlot/Source/Viewers/ColourMapViewer.cpp:166-180 | the in-place loop over a copy returns exactly the reference `Smoothed` of the input; also `CounterPlot/Source/Views/ColourMapView.cpp:166-178`: the same for the older copy |
| ColourMapViews.SmoothedShape | CounterPlot/Source/Viewers/ColourMapViewer.cpp:166-180 | smoothing keeps the length, an array shorter than 5, and the first two and last two entries; every other entry is the 1-2-3-2-1 stencil over its already smoothed left neighbours and its given right neighbours; also `CounterPlot/Source/Views/ColourMapView.cpp:166-180`: the older copy keeps arrays shorter than 5 and the two ends on each side, and applies the same in-place stencil |
| ColourMapViews.SmoothedThroughKeepsRest | CounterPlot/Source/Viewers/ColourMapViewer.cpp:170-178 | entries the loop has not reached yet still hold the input's values |
| ColourMapViews.SmoothedThroughStencil | CounterPlot/Source/Viewers/ColourMapViewer.cpp:170-178 | each entry the loop has overwritten holds the stencil over the copy as it stood then |
| ColourMapViews.SmoothedKeepsConstant | CounterPlot/Source/Viewers/ColourMapViewer.cpp:166-180 | a constant channel comes back unchanged, the stencil's weights summing to 9 |
| ColourMapViews.ChannelOf | CounterPlot/Source/Viewers/ColourMapViewer.cpp:88-90 | one value per stop, each in [0, 1] |
| ColourMapViews.ColourMapViewer.constructor | CounterPlot/Source/Viewers/ColourMapViewer.cpp:7-53 | both figure models take the listed settings and are shown; there are no stops, lines or gradient; the viewer keeps the `nd::linspace` it is given |
| ColourMapViews.ColourMapViewer.ChannelLineOf | CounterPlot/Source/Viewers/ColourMapViewer.cpp:76-90 | a channel's line has the given colour, width 2, x is what `nd::linspace (0, 1, number of stops)` gives (in the older copy, `CounterPlot/Source/Views/ColourMapView.cpp:154-164`: its own linspace, one entry per stop, not a number throughout for a single stop) and y the smoothed channel |
| ColourMapViews.ColourMapViewer.UpdateFigures | CounterPlot/Source/Viewers/ColourMapViewer.cpp:72-105 | with stops: the colour bar shows their gradient and the line figure the red, green and blue smoothed channels, in that order; without: the models are unchanged; either way both figures receive their models |
| ColourMapViews.ColourMapViewer.LoadFile | CounterPlot/Source/Viewers/ColourMapViewer.cpp:60-65 | the title becomes the file name; a table that parses becomes the stops and the figures are updated; a malformed one changes nothing else |
| ColourMapViews.ColourMapViewer.FigureViewSetMargin | CounterPlot/Source/Viewers/ColourMapViewer.cpp:111-129 | the edited figure takes the margin and the other its left and right; both figures receive their models; also `CounterPlot/Source/Views/ColourMapView.cpp:111-129`: the older view's identical handler: the edited figure takes the margin, the other only its left and right |
| ColourMapViews.ColourMapViewer.FigureViewSetDomain | CounterPlot/Source/Viewers/ColourMapViewer.cpp:131-136 | whichever figure was edited, both read the domain back and keep their margins; also `CounterPlot/Source/Views/ColourMapView.cpp:131-136`: the older view's identical handler: both models take the same domain |
| ColourMaps.LooksLikeRGBTableExamples | CounterPlot/Source/Plotting/PlotModels.cpp:180-183 | a file is taken for a colour table when its name ends in ".cmap" in any letter case, and not otherwise; also `PatchView/Source/PlotModels.cpp:80-83`: PatchView's copy accepts exactly the ".cmap" names; also `CounterPlot/Source/PlotModels.cpp:163-166`: the older copy accepts exactly the ".cmap" names |
| ColourMaps.ParseRGBTable | CounterPlot/Source/Plotting/PlotModels.cpp:185-206 | the table fails, with the 3-columns message, exactly when its token count is not a multiple of 3; otherwise it holds one colour per token triple, in order, from the triple's integer values; also `CounterPlot/Source/PlotModels.cpp:168-189`: the older copy has the same 3-column contract: failure exactly on a token count not divisible by 3, else one colour per triple in order; also `PatchView/Source/PlotModels.cpp:85-106`: PatchView's copy has the same 3-column contract |
| ColourMaps.ColoursFromRGBTable | CounterPlot/Source/Plotting/PlotModels.cpp:185-206 | the sized-array loop returns exactly the reference `ParseRGBTable` of the text; also `CounterPlot/Source/PlotModels.cpp:168-189`: the older copy's sized-array loop returns the same reference parse; also `PatchView/Source/PlotModels.cpp:85-106`: PatchView's loop returns the same reference parse |
| ColourMaps.Channel | CounterPlot/Source/Plotting/PlotModels.cpp:215-221 | a channel character is recognised exactly when it is r, g, b or a, and its value lies in [0, 1] |
| ColourMaps.ExtractChannelAsDouble | CounterPlot/Source/Plotting/PlotModels.cpp:208-225 | one entry per colour, holding the channel's value, or 0 for a character that names no channel |
| ColourMaps.ExtractChannelAppending | CounterPlot/Source/PlotModels.cpp:191-207 | the older copy gives one entry per colour for a valid channel and an empty array for any other character |
| ColourMaps.ToRGBA | CounterPlot/Source/Plotting/PlotModels.cpp:243-246 | red sits in bits 0-7, green in 8-15, blue in 16-23 and alpha in 24-31 of the word; also `CounterPlot/Source/PlotModels.cpp:225-228`: the older copy packs the same byte layout: red in the low byte, alpha in the high byte; also `PatchView/Source/PlotModels.cpp:124-127`: PatchView's copy packs the same byte layout |
| ColourMaps.RGBAWordRoundTrip | CounterPlot/Source/Plotting/PlotModels.cpp:243-246 | the packing loses no channel: reading the word's bytes back gives the colour; also `PatchView/Source/PlotModels.cpp:124-127`: PatchView's packing loses no channel either |
| ColourMaps.FromColours | CounterPlot/Source/Plotting/PlotModels.cpp:232-241 | one packed word per colour, in the same order; also `CounterPlot/Source/PlotModels.cpp:214-223`: the older copy gives one packed word per colour, in order; also `PatchView/Source/PlotModels.cpp:113-122`: PatchView's copy gives one packed word per colour, in order |
| ColourMaps.TextureFromRGBTable | CounterPlot/Source/Plotting/PlotModels.cpp:227-230 | fails exactly when the table fails to parse, with its message; otherwise one packed word per parsed colour; also `CounterPlot/Source/PlotModels.cpp:209-212`: the older copy is the packing of the parsed table, failing exactly when the parse fails; also `PatchView/Source/PlotModels.cpp:108-111`: PatchView's copy is the packing of the parsed table, with the same length |
| ColourMaps.IndexOfName | CounterPlot/Source/Plotting/PlotModels.cpp:116 | the index of the first occurrence of a name, or -1 exactly when it is absent |
| ColourMaps.AddEntryPutsNameLast | CounterPlot/Source/Plotting/PlotModels.cpp:112-122 | after `add` the names stay duplicate-free and as many as the stop lists, the name occurs once, last, with the new stops, and the size grows only for a new name; also `CounterPlot/Source/PlotModels.cpp:110-120`: the older copy keeps names unique and last-added last |
| ColourMaps.AddEntryKeepsOthers | CounterPlot/Source/Plotting/PlotModels.cpp:112-122 | after `add` every other entry is still there with its own stops |
| ColourMaps.AddEntryKeepsOrder | CounterPlot/Source/Plotting/PlotModels.cpp:112-122 | after `add` the other entries keep their relative order |
| ColourMaps.CursorWraps | CounterPlot/Source/Plotting/PlotModels.cpp:134-144 | from a valid cursor, next and prev stay valid, undo each other, and wrap between the last entry and the first; also `CounterPlot/Source/PlotModels.cpp:132-142`: in the older copy too next and prev undo each other and keep the cursor in range |
| ColourMaps.StopsAt | CounterPlot/Source/Plotting/PlotModels.cpp:146-154 | the stops at an index, or an empty array out of range |
| ColourMaps.NameAt | CounterPlot/Source/Plotting/PlotModels.cpp:166-174 | the name at an index, or an empty string out of range |
| ColourMaps.ColourMapCollection.constructor | CounterPlot/Source/Plotting/PlotModels.cpp:90-103 | with defaults, the eight built-in maps in order with their stops; without, an empty collection; the cursor at 0 |
| ColourMaps.ColourMapCollection.Clear | CounterPlot/Source/Plotting/PlotModels.cpp:105-110 | no entries and the cursor at 0; also `CounterPlot/Source/PlotModels.cpp:103-108`: the older copy also empties both lists and puts the cursor at 0 |
| ColourMaps.ColourMapCollection.Add | CounterPlot/Source/Plotting/PlotModels.cpp:112-122 | the registry becomes the reference `AddEntry`, stays duplicate-free, and the cursor stays; also `CounterPlot/Source/PlotModels.cpp:110-120`: the older copy also removes an existing entry and appends the new one last |
| ColourMaps.ColourMapCollection.SetCurrent | CounterPlot/Source/Plotting/PlotModels.cpp:124-127 | the cursor takes the index, unchecked, and the entries stay |
| ColourMaps.ColourMapCollection.SetCurrentByName | CounterPlot/Source/Plotting/PlotModels.cpp:129-132 | the cursor points at the name when it is registered, and is -1 otherwise |
| ColourMaps.ColourMapCollection.Next | CounterPlot/Source/Plotting/PlotModels.cpp:134-138 | the cursor moves one forward, wrapping, and the stops under it are returned; also `CounterPlot/Source/PlotModels.cpp:132-136`: the older copy moves the cursor one forward modulo the size |
| ColourMaps.ColourMapCollection.Prev | CounterPlot/Source/Plotting/PlotModels.cpp:140-144 | the cursor moves one back, wrapping, and the stops under it are returned; also `CounterPlot/Source/PlotModels.cpp:138-142`: the older copy moves the cursor one back modulo the size |
| Colours.FromRGB | CounterPlot/Source/Core/DataHelpers.cpp:104-107 | an opaque colour whose channels are the arguments reduced modulo 256, as the `uint8` parameters receive them |
| Colours.FromRGBA | CounterPlot/Source/Core/DataHelpers.cpp:108-111 | every channel, alpha included, is its argument reduced modulo 256 |
| Colours.FromARGB | CounterPlot/Source/Core/DataHelpers.cpp:96-99 | the integer reduced to 32 bits is exactly alpha, red, green and blue packed from the top byte down |
| Colours.FromStringOfColourText | CounterPlot/Source/Plotting/PlotModels.cpp:498-501 | a colour written as hexadecimal text parses back to the same colour |
| Colours.HexParseOfHexText | CounterPlot/Source/Plotting/PlotModels.cpp:498-501 | the hexadecimal text of a 32-bit word reads back as the word |
| ComponentsMain.FindInsertIndex | CounterPlot/Source/Components/MainComponent.cpp:127 | the binary search of `addUsingDefaultSort` returns a position in the list, and in a sorted list without the file every entry before it sorts below the file and every entry from it on sorts above |
| ComponentsMain.InsertKeepsSorted | CounterPlot/Source/Components/MainComponent.cpp:127 | putting a file between the entries below it and those above keeps the list strictly sorted |
| ComponentsMain.IndexOf | CounterPlot/Source/Components/MainComponent.cpp:135 | the first index holding the file, or -1 exactly when it is absent |
| ComponentsMain.RemoveAt | CounterPlot/Source/Components/MainComponent.cpp:140-141 | an index in range removes exactly that element; any other index changes nothing |
| ComponentsMain.SourceList.constructor | CounterPlot/Source/Components/MainComponent.cpp:89-96 | a new list has no files and no assets |
| ComponentsMain.SourceList.Clear | CounterPlot/Source/Components/MainComponent.cpp:108-113 | no files and no assets remain |
| ComponentsMain.SourceList.SetSources | CounterPlot/Source/Components/MainComponent.cpp:115-121 | the files become the given ones, each with empty assets |
| ComponentsMain.SourceList.AddSource | CounterPlot/Source/Components/MainComponent.cpp:123-131 | a listed file changes nothing; a new one is inserted once, with empty assets at the same index, and a sorted list stays sorted |
| ComponentsMain.SourceList.RemoveSource | CounterPlot/Source/Components/MainComponent.cpp:133-136 | the file's row goes from both arrays; an unlisted file changes nothing |
| ComponentsMain.SourceList.RemoveSourceAtRow | CounterPlot/Source/Components/MainComponent.cpp:138-143 | the same row goes from the files and the assets, which stay parallel |
| ComponentsMain.SourceList.SetCaptureForSource | CounterPlot/Source/Components/MainComponent.cpp:145-152 | the file's row, and only it, receives the capture and its thumbnail |
| ComponentsMain.SourceList.GetAllImageAssets | CounterPlot/Source/Components/MainComponent.cpp:154-161 | the captures, one per row, in row order |
| ComponentsMain.SourceList.GetSelectedSources | CounterPlot/Source/Components/MainComponent.cpp:163-172 | exactly the files on selected rows, in list order |
| ComponentsMain.SelectedOfMembers | CounterPlot/Source/Components/MainComponent.cpp:163-172 | a file is returned exactly when it sits on some selected row |
| ComponentsMain.SelectedOfLength | CounterPlot/Source/Components/MainComponent.cpp:163-172 | no more files come back than there are rows, and all of them when every row is selected |
| ComponentsMain.SourceList.DeleteKeyPressed | CounterPlot/Source/Components/MainComponent.cpp:254-260 | the row goes from both arrays, and the row above is selected exactly when the deleted row was the last |
| ComponentsMain.SourceList.SelectedSourceChanged | CounterPlot/Source/Components/MainComponent.cpp:248-252 | listeners hear of a file exactly when one row is selected, and it is the file on the last row selected |
| ComponentsMain.SourceList.KeyPressed | CounterPlot/Source/Components/MainComponent.cpp:188-201 | space and command-A are handled and nothing else; command-A selects every row |
| ComponentsMain.ComputeGeometryLayout | CounterPlot/Source/Components/MainComponent.cpp:537-547 | on a wide enough bar: a square busy indicator at the right, 200 px for the viewer name and 120 px for the mouse position to its left, 150 px for the toggle at the left, and the message area between |
| ComponentsMain.BusyIndicatorColour | CounterPlot/Source/Components/MainComponent.cpp:467 | yellow exactly while some task runs, transparent otherwise |
| ComponentsMain.Tick | CounterPlot/Source/Components/MainComponent.cpp:521-531 | one tick takes the interval off the display time, stopping at 0, and the timer keeps running exactly while time remains |
| ComponentsMain.CountdownEnds | CounterPlot/Source/Components/MainComponent.cpp:521-531 | n ticks leave max(0, ms − n·interval): a message lasts its duration rounded up to whole ticks |
| ComponentsMain.StatusBar.constructor | CounterPlot/Source/Components/MainComponent.cpp:403-408 | no tasks, no messages, no display time and no timer |
| ComponentsMain.StatusBar.IncrementAsyncTaskCount | CounterPlot/Source/Components/MainComponent.cpp:414-418 | the task count goes up by one |
| ComponentsMain.StatusBar.DecrementAsyncTaskCount | CounterPlot/Source/Components/MainComponent.cpp:420-424 | the task count goes down by one |
| ComponentsMain.StatusBar.SetMousePositionInFigure | CounterPlot/Source/Components/MainComponent.cpp:426-430 | the position shown becomes the given one |
| ComponentsMain.StatusBar.SetCurrentViewerName | CounterPlot/Source/Components/MainComponent.cpp:432-436 | the viewer name shown becomes the given one |
| ComponentsMain.StatusBar.SetCurrentErrorMessage | CounterPlot/Source/Components/MainComponent.cpp:438-444 | the error is shown for 4000 ms and the timer runs |
| ComponentsMain.StatusBar.SetCurrentInfoMessage | CounterPlot/Source/Components/MainComponent.cpp:446-455 | the info message is replaced; only a positive duration restarts the display time and the timer |
| ComponentsMain.StatusBar.TimerCallback | CounterPlot/Source/Components/MainComponent.cpp:521-531 | the display time takes one reference tick and never goes negative |
| ComponentsMain.StatusBar.Shown | CounterPlot/Source/Components/MainComponent.cpp:479-495 | an error is drawn whenever there is one, faded by the remaining time; an info message only without an error, and, when no task runs, only while display time remains |
| ComponentsMain.IndicateSuccess | CounterPlot/Source/Components/MainComponent.cpp:670-674 | the error is cleared and the info is shown for 3000 ms, the task count untouched |
| CounterMain.BusyIndicatorColour | CounterPlot/Source/MainComponent.cpp:64-69 | transparent exactly when idle, red exactly when waiting (yellow while running) |
| CounterMain.StatusBar.constructor | CounterPlot/Source/MainComponent.cpp:54-85 | a new status bar is idle with no viewer name |
| CounterMain.StatusBar.SetBusyIndicatorStatus | CounterPlot/Source/MainComponent.cpp:32-36 | the indicator takes the new status |
| CounterMain.StatusBar.SetMousePositionInFigure | CounterPlot/Source/MainComponent.cpp:38-42 | the position shown becomes the given one |
| CounterMain.StatusBar.SetCurrentViewerName | CounterPlot/Source/MainComponent.cpp:44-48 | the viewer name shown becomes the given one |
| CounterMain.FirstInterested | CounterPlot/Source/MainComponent.cpp:134-147 | the index of a view interested in the file with no interested view before it, or -1 exactly when no view is interested |
| CounterMain.CountOnlyVisible | CounterPlot/Source/MainComponent.cpp:134-147 | when exactly view k is visible, one view is visible if k is an index and none otherwise |
| CounterMain.DefaultViewCatchesAll | CounterPlot/Source/MainComponent.cpp:12-26 | with the default view last, some view is interested in every file |
| CounterMain.ExactlyOneVisible | CounterPlot/Source/MainComponent.cpp:109-116 | after a reload, with the default view last, exactly one view is visible |
| CounterMain.LayoutRegions | CounterPlot/Source/MainComponent.cpp:225-245 | the status bar takes the bottom 22 px; the tree the left 300 px when showing, else a 300 px strip just off the left edge; the views the rest |
| CounterMain.MainComponent.constructor | CounterPlot/Source/MainComponent.cpp:95-118 | the given views followed by the default view, only the last visible, the tree showing |
| CounterMain.MainComponent.ReloadCurrentFile | CounterPlot/Source/MainComponent.cpp:129-148 | exactly the first view interested in the current file is visible, loads it once and names the status bar; without one nothing loads |
| CounterMain.MainComponent.SelectedFileChanged | CounterPlot/Source/MainComponent.cpp:187-191 | the file is recorded and exactly the first view interested in it is shown |
| CounterMain.MainComponent.ToggleDirectoryTreeShown | CounterPlot/Source/MainComponent.cpp:150-154 | the tree's showing flag flips |
| CounterMain.MainComponent.FigureMousePosition | CounterPlot/Source/MainComponent.cpp:197-200 | the status bar shows the position |
| CounterMain.MainComponent.DataLoadingThreadWaiting | CounterPlot/Source/MainComponent.cpp:206-209 | the indicator shows waiting |
| CounterMain.MainComponent.DataLoadingThreadRunning | CounterPlot/Source/MainComponent.cpp:211-214 | the indicator shows running |
| CounterMain.MainComponent.DataLoadingThreadFinished | CounterPlot/Source/MainComponent.cpp:216-219 | the indicator shows idle |
| DataHelpers.ColourFromVar | CounterPlot/Source/Core/DataHelpers.cpp:90-113 | void is transparent white, an int an ARGB word, a string hexadecimal text, a 3- or 4-element array RGB or RGBA channels, and anything else black; also `PatchView/Source/Views/LookAndFeel.cpp:60-83`: PatchView's `colourFromVariant` is the same conversion |
| DataHelpers.ColourFromVarFallsBackToBlack | CounterPlot/Source/Core/DataHelpers.cpp:112 | a double, an object or a two-element array reads as black |
| DataHelpers.ColourFromChannelList | CounterPlot/Source/Core/DataHelpers.cpp:104-111 | a colour written as its four channels reads back as itself, and an opaque one as its three |
| DataHelpers.GridTrackInfoArrayFromVar | CounterPlot/Source/Core/DataHelpers.cpp:76-88 | one fractional track per array element, in order, and none for a value that is not an array |
| DataHelpers.PutEntry | CounterPlot/Source/Core/DataHelpers.cpp:31 | assigning a map key replaces an existing entry in place or appends a new one |
| DataHelpers.NodeFromVar | CounterPlot/Source/Core/DataHelpers.cpp:8-36 | the recursive conversion with its loops builds exactly the reference tree `YamlOf` |
| DataHelpers.YamlOfKeepsShape | CounterPlot/Source/Core/DataHelpers.cpp:8-36 | a non-empty array becomes a sequence of its converted elements in order, a non-empty object a map holding every property name, and void, undefined and other kinds a null node |
| DataHelpers.PutEntryKeepsKeys | CounterPlot/Source/Core/DataHelpers.cpp:29-32 | writing a key keeps every key already in the map and adds the new one |
| DataHelpers.VarFromYamlScalar | CounterPlot/Source/Core/DataHelpers.cpp:38-47 | a scalar is its JSON reading when that is not void, and otherwise its text as a string |
| DataHelpers.VarFromYamlNode | CounterPlot/Source/Core/DataHelpers.cpp:49-74 | the recursive conversion with its loops builds exactly the reference value `VarOf` |
| DataHelpers.VarOfKeepsShape | CounterPlot/Source/Core/DataHelpers.cpp:49-74 | a non-empty sequence becomes an array of its converted items in order, a map an object with a property for every key, and null void |
| DataHelpers.YamlListOfStringsRoundTrip | CounterPlot/Source/Core/DataHelpers.cpp:8-74 | an array of strings that JSON does not read as values survives writing to YAML and reading back |
| DataHelpers.EmptyContainersReadBackVoid | CounterPlot/Source/Core/DataHelpers.cpp:15-34 | an empty array or object is written as a null node and reads back as void |
| FigureGrids.MutateFigure | CounterPlot/Source/Views/JetInCloudView.cpp:283-288 | the event's figure is replaced by its mutation and every other figure is unchanged |
| FigureGrids.MutateFiguresInRow | CounterPlot/Source/Views/JetInCloudView.cpp:290-305 | figure k is mutated exactly when k / 2 equals the event figure's index / 2 (C++ truncating division, index -1 for a figure not in the list); the rest are unchanged and the list keeps its length; also `PatchView/Source/Views/BinaryTorquesView.cpp:273-288`: the binary-torques copy: the same row rule |
| FigureGrids.MutateFiguresInColumn | CounterPlot/Source/Views/JetInCloudView.cpp:307-322 | figure k is mutated exactly when k % 2 equals the event figure's index % 2 (C++ remainder, so -1 for an absent figure); the rest are unchanged; also `PatchView/Source/Views/BinaryTorquesView.cpp:290-305`: the binary-torques copy: the same column rule |
| FigureGrids.SameRowIffSamePair | CounterPlot/Source/Views/JetInCloudView.cpp:292-314 | for list positions, sharing a row means lying in the same pair and sharing a column means having the same parity |
| FigureGrids.AbsentFigure | CounterPlot/Source/Views/JetInCloudView.cpp:292-314 | a figure missing from the list (indexOf gives -1) still drags row 0 (positions 0 and 1) along, and shares no column with any figure |
| FigureGrids.PropagatedMarginSides | CounterPlot/Source/Views/JetInCloudView.cpp:221-239 | after a margin edit the edited figure has exactly the new margin; any other figure takes the new top and bottom when in its row, the new left and right when in its column, and keeps the rest |
| FigureGrids.PropagateMargin | CounterPlot/Source/Views/JetInCloudView.cpp:221-239 | the three mutations in order change only margins, each figure's to its propagated margin; also `PatchView/Source/Views/BinaryTorquesView.cpp:204-222`: the binary-torques handler propagates the margin the same way |
| FigureGrids.MarginSteps | CounterPlot/Source/Views/JetInCloudView.cpp:223-238 | the whole-margin, row and column mutations applied to one figure compose to its propagated margin |
| FigureGrids.Remargined | CounterPlot/Source/Views/JetInCloudView.cpp:225-237 | a later margin assignment overrides an earlier one |
| FigureGrids.TwoFigureMargins | CounterPlot/Source/Views/JetInCloudView.cpp:221-239 | with a figure and its colour bar side by side, a margin edit on one gives the other the new top and bottom and leaves its left and right |
| FigureModels.DefaultHasNoContent | CounterPlot/Source/Plotting/PlotModels.hpp:129-164 | a default-constructed figure holds no artists |
| FigureModels.GetDomain | CounterPlot/Source/Plotting/PlotModels.cpp:73-76 | the domain's left, top, right and bottom edges are xmin, ymin, xmax and ymax; also `PatchView/Source/PlotModels.cpp:71-74`: PatchView's domain has origin (xmin, ymin), width xmax − xmin and height ymax − ymin; also `CounterPlot/Source/PlotModels.cpp:71-74`: the older copy's domain is built the same way |
| FigureModels.SetDomain | CounterPlot/Source/Plotting/PlotModels.cpp:78-84 | the four limits become the rectangle's edges and no other field changes |
| FigureModels.DomainRoundTrip | CounterPlot/Source/Plotting/PlotModels.cpp:73-84 | reading back a domain just set gives that domain, and setting the domain a figure already has changes nothing; also `CounterPlot/Source/PlotModels.cpp:71-82`: in the older copy too, setting a domain and reading it back gives that domain |
| FigureModels.WithoutContent | CounterPlot/Source/Plotting/PlotModels.cpp:412-417 | the result has no artists and agrees with the figure on every other field |
| FigureModels.Artists | CounterPlot/Source/Plotting/PlotModels.cpp:396-406 | the content array converts exactly when every element wraps an artist, and then gives those artists in order |
| FigureModels.ContentOf | CounterPlot/Source/Plotting/PlotModels.cpp:396-406 | a non-array value leaves the artists as they were; an array of artists appends them after the existing ones |
| FigureModels.AppendContent | CounterPlot/Source/Plotting/PlotModels.cpp:396-406 | the push-back loop ends with what the content conversion gives, failing with the first non-artist's error |
| FigureModels.ArtistsOfPrefixFails | CounterPlot/Source/Plotting/PlotModels.cpp:400-403 | once an element fails the artist check, the conversion of the whole array fails with that element's error |
| FigureModels.KeyOf | CounterPlot/Source/Plotting/PlotModels.cpp:427-461 | a recognised property name selects a key with exactly that name |
| FigureModels.KeyNameInjective | CounterPlot/Source/Plotting/PlotModels.cpp:428-460 | no two branches of the if-chain test the same name |
| FigureModels.KeyOfKeyName | CounterPlot/Source/Plotting/PlotModels.cpp:427-461 | every field is reached by its own property name |
| FigureModels.FromVar | CounterPlot/Source/Plotting/PlotModels.cpp:419-465 | the loop over the properties gives the reference walk; a value that is not an object gives the default model |
| FigureModels.ApplyProperty | CounterPlot/Source/Plotting/PlotModels.cpp:425-461 | one pass of the loop converts the named field, and can fail only on the "content" property |
| FigureModels.FromPropsStep | CounterPlot/Source/Plotting/PlotModels.cpp:425-462 | one more property applies to the model the earlier properties produced |
| FigureModels.WalkStopsAtError | CounterPlot/Source/Plotting/PlotModels.cpp:402 | an error thrown by a property ends the whole conversion with that error |
| FigureModels.FieldsDetermineModel | CounterPlot/Source/Plotting/PlotModels.hpp:129-164 | two figures that agree on each of the 33 fields are the same figure |
| FigureModels.SetFailsOnlyOnContent | CounterPlot/Source/Plotting/PlotModels.cpp:428-460 | only an array under the content key can make a conversion fail |
| FigureModels.SetIgnoresVoid | CounterPlot/Source/Plotting/PlotModels.cpp:428-460 | a void value leaves the figure unchanged under every key |
| FigureModels.SetOwnField | CounterPlot/Source/Plotting/PlotModels.cpp:428-458 | every key but content converts without error; its field takes the decoded value, or keeps its value when the value is void |
| FigureModels.SetKeepsOthers | CounterPlot/Source/Plotting/PlotModels.cpp:428-460 | converting into one key changes no other field |
| FigureModels.ApplyIgnores | CounterPlot/Source/Plotting/PlotModels.cpp:461 | a property with an unknown name, or with a void value, leaves the figure as it was |
| FigureModels.ApplyFailsOnlyOnContent | CounterPlot/Source/Plotting/PlotModels.cpp:425-461 | a property can fail only when it is named "content" and holds an array |
| FigureModels.ApplyContent | CounterPlot/Source/Plotting/PlotModels.cpp:459 | a "content" property appends its array's artists or fails as the content conversion does |
| FigureModels.FromPropsKeepsAbsentFields | CounterPlot/Source/Plotting/PlotModels.cpp:419-465 | every field whose name the object does not hold keeps the default model's value |
| FigureModels.ApplyOtherKey | CounterPlot/Source/Plotting/PlotModels.cpp:427-461 | a property under another name leaves a field as it was |
| FigureModels.WalkDecodes | CounterPlot/Source/Plotting/PlotModels.cpp:425-462 | over properties with distinct names, a field ends as its own property decodes it, or as it started when that property is absent or void |
| FigureVars.ArtistVars | CounterPlot/Source/Plotting/PlotModels.cpp:396-406 | the content's var form holds one wrapped artist per artist, in order |
| FigureVars.SetPropertyKeepsUnique | CounterPlot/Source/Plotting/PlotModels.cpp:470-502 | `setProperty` never leaves two properties with one name in a DynamicObject |
| FigureVars.SetPropertyEntries | CounterPlot/Source/Plotting/PlotModels.cpp:470-502 | after a `setProperty`, each entry is either the new one or the entry that was there |
| FigureVars.PutAllOmits | CounterPlot/Source/Plotting/PlotModels.cpp:471-502 | a name none of the guarded calls is made under is absent from the object |
| FigureVars.PutAllHolds | CounterPlot/Source/Plotting/PlotModels.cpp:471-502 | when the calls use distinct names, the object has distinct names and holds each call's value under its name |
| FigureVars.ReadNames | CounterPlot/Source/Plotting/PlotModels.cpp:428-460 | in the spelling `fromVar` reads, every field is written under its own name |
| FigureVars.WrittenNamesAsKeyNames | CounterPlot/Source/Plotting/PlotModels.cpp:498-501 | a name `toVar` writes is one `fromVar` knows exactly for the same field, and never for a colour |
| FigureVars.WrittenNamesDistinct | CounterPlot/Source/Plotting/PlotModels.cpp:471-502 | in either spelling no two fields are written under the same name |
| FigureVars.WriteKeysCover | CounterPlot/Source/Plotting/PlotModels.cpp:471-502 | `toVar` has a call for every field except the content |
| FigureVars.NoContentWritten | CounterPlot/Source/Plotting/PlotModels.cpp:467-504 | the object `toVar` builds never holds a "content" property |
| FigureVars.FromPropsOk | CounterPlot/Source/Plotting/PlotModels.cpp:419-465 | an object without a "content" property always reads without error |
| FigureVars.DecodeValue | CounterPlot/Source/Plotting/PlotModels.cpp:471-502 | with conversions that read back their own kinds, each value written is not void and converts back to its field |
| FigureVars.ApplyOwnName | CounterPlot/Source/Plotting/PlotModels.cpp:428-460 | a property under a field's own name sets that field to its conversion, or leaves it when void |
| FigureVars.FromPropsDecodes | CounterPlot/Source/Plotting/PlotModels.cpp:419-465 | over distinct names, every field but the content ends as the property of its name decodes it, or as the default when absent or void |
| FigureVars.ReadBackField | CounterPlot/Source/Plotting/PlotModels.cpp:419-504 | a field read back from the written object is the figure's own value when its call is made and the default's otherwise |
| FigureVars.ToPropsReadsOk | CounterPlot/Source/Plotting/PlotModels.cpp:467-504 | the object `toVar` builds has distinct names and reads without error |
| FigureVars.ReadBackWritten | CounterPlot/Source/Plotting/PlotModels.cpp:471-502 | a field that differs from the default reads back as the figure's own value |
| FigureVars.HoldsWrittenValue | CounterPlot/Source/Plotting/PlotModels.cpp:471-502 | the object holds, under a written field's own name, the value written for it |
| FigureVars.ReadBackUnwritten | CounterPlot/Source/Plotting/PlotModels.cpp:471-502 | a field equal to the default is not written and reads back as the default |
| FigureVars.RoundTrip | CounterPlot/Source/Plotting/PlotModels.cpp:416-504 | with the id compared with the default id and the colours written under the names `fromVar` reads, every figure without artists survives `toVar` then `fromVar` unchanged |
| FigureVars.RoundTripField | CounterPlot/Source/Plotting/PlotModels.cpp:419-504 | each single field survives the corrected round trip |
| FigureVars.RoundTripContent | CounterPlot/Source/Plotting/PlotModels.cpp:459 | an empty content survives the round trip though it is never written |
| FigureVars.ReadsNoContent | CounterPlot/Source/Plotting/PlotModels.cpp:419-465 | an object with no "content" property reads without artists |
| FigureVars.UnwrittenIsDefault | CounterPlot/Source/Plotting/PlotModels.cpp:471-502 | a field whose call is skipped holds the default's value |
| FigureVars.AsWrittenReadBack | CounterPlot/Source/Plotting/PlotModels.cpp:475-501 | as written, all four colours read back as the default's, and when the title equals the default id the id reads back as the default id |
| FigureVars.AsWrittenDropsColour | CounterPlot/Source/Plotting/PlotModels.cpp:455-458 | no call of `toVar` as written reaches a colour's readable name |
| FigureVars.AsWrittenRoundTripFails | CounterPlot/Source/Plotting/PlotModels.cpp:475-501 | as written, the round trip loses a non-default margin colour, and an id whose title equals the default id |
| FigureViews.MakeRectanglesInColumn | CounterPlot/Source/Plotting/FigureView.cpp:8-19 | one box per midpoint, in order, spanning the column's x and width, of the given height and centred vertically on its midpoint; also `PatchView/Source/FigureView.cpp:7-18`: PatchView's copy places the boxes the same way |
| FigureViews.MakeRectanglesInRow | CounterPlot/Source/Plotting/FigureView.cpp:21-32 | one box per midpoint, in order, spanning the row's y and height, of the given width and centred horizontally on its midpoint |
| FigureViews.TrimZeros | CounterPlot/Source/Plotting/FigureView.cpp:78-81 | the result is a prefix of the text, everything it drops is a '0', and it does not itself end in '0' |
| FigureViews.TrimLabel | CounterPlot/Source/Plotting/FigureView.cpp:78-86 | the pop-back loop followed by the '0' put back after a bare '.' gives the reference trimming |
| FigureViews.TrimmedKeepsIntegerPart | CounterPlot/Source/Plotting/FigureView.cpp:78-86 | trimming keeps the '.' and everything before it plus at least one digit after it, and otherwise only drops zeros |
| FigureViews.TrimmedShape | CounterPlot/Source/Plotting/FigureView.cpp:78-86 | a trimmed label never ends in the point, and ends in "0" only directly after the point |
| FigureViews.TrimmedIdempotent | CounterPlot/Source/Plotting/FigureView.cpp:78-86 | trimming a trimmed label changes nothing |
| FigureViews.PointThenZero | CounterPlot/Source/Plotting/FigureView.cpp:83-86 | a text ending in '.' with one '0' put back is already trimmed |
| FigureViews.Fixed8HasPoint | CounterPlot/Source/Plotting/FigureView.cpp:71 | every text `%.8lf` produces contains a '.', so the trimming loop stops before the text runs out |
| FigureViews.TrimmedFraction | CounterPlot/Source/Plotting/FigureView.cpp:71-86 | the `%.8lf` text of 1.5 trims to "1.5" |
| FigureViews.TrimmedWhole | CounterPlot/Source/Plotting/FigureView.cpp:71-86 | the `%.8lf` text of 2 trims to "2.0" |
| FigureViews.TrimmedNegative | CounterPlot/Source/Plotting/FigureView.cpp:71-86 | the zeros of the integer part stay: -10 trims to "-10.0" |
| FigureViews.TickMeaning | CounterPlot/Source/Plotting/FigureView.cpp:73-76 | a tick's value is the location's fraction of the way from l0 to l1, its pixel the same fraction of the way from p0 to p1, and its label the trimmed text |
| FigureViews.TickEndpoints | CounterPlot/Source/Plotting/FigureView.cpp:74-75 | the tick at l0 sits on pixel p0 and the tick at l1 on pixel p1 |
| FigureViews.TickPixelsMonotone | CounterPlot/Source/Plotting/FigureView.cpp:74-75 | ticks keep the order of their locations along the axis, in the direction the pixels run |
| FigureViews.FormatTicks | CounterPlot/Source/Plotting/FigureView.cpp:63-90 | one tick per location, in order, each the reference tick, each label well trimmed; also `PatchView/Source/FigureView.cpp:62-89`: PatchView's copy formats ticks the same way |
| FigureViews.GetPixelLocations | CounterPlot/Source/Plotting/FigureView.cpp:134-139 | the pixels of the ticks, same count and order |
| FigureViews.ZoomedDomain | CounterPlot/Source/Plotting/FigureView.cpp:334-351 | with alt the x range is kept and with ctrl the y range; otherwise the range shrinks by the scale factor and the domain point under the mouse stays under it; also `PatchView/Source/FigureView.cpp:258-275`: PatchView's magnify computes the same domain |
| FigureViews.ZoomByOne | CounterPlot/Source/Plotting/FigureView.cpp:334-351 | a scale factor of one gives back the figure's own domain wherever the mouse is |
| FigureViews.WheelDomain | CounterPlot/Source/Plotting/FigureView.cpp:258-273 | with ctrl the domain is translated by the wheel deltas times its size; otherwise it is zoomed by 1 + deltaY about the mouse position, keeping the x-limits when alt is held |
| FigureViews.WheelKeepsSize | CounterPlot/Source/Plotting/FigureView.cpp:258-273 | panning keeps the domain's size, a wheel event with no delta leaves the domain where it is, and an alt zoom keeps the x-limits and divides only the height by 1 + deltaY |
| FigureViews.SubtractedFrom | CounterPlot/Source/Plotting/FigureView.cpp:640 | the rectangle inset by a border starts left and top later and ends right and bottom earlier by the border's sides |
| FigureViews.ProposedMarginRoundTrip | CounterPlot/Source/Plotting/FigureView.cpp:279-289 | the proposed margin carves exactly the proposed bounds out of the parent, and any margin is recovered from what it carves |
| FigureViews.MarginToSend | PatchView/Source/FigureView.cpp:281-327 | a margin is sent exactly when the plot area's margin differs from the model's, and the margin sent carves out the plot area's bounds |
| FigureViews.OverridesOf | CounterPlot/Source/Plotting/FigureView.cpp:377-385 | a colour id is overridden exactly when the model's colour for it is not transparent white, and then with that colour |
| FigureViews.ColoursFollowModel | CounterPlot/Source/Plotting/FigureView.cpp:377-385 | a figure draws the model's colour where it is set and the look-and-feel's colour where the model leaves transparent white |
| FigureViews.Toggled | CounterPlot/Source/Plotting/FigureView.cpp:612-623 | menu item n flips exactly the n-th mode; any other code changes nothing |
| FigureViews.ToggleTwice | CounterPlot/Source/Plotting/FigureView.cpp:614-622 | choosing the same item twice restores the modes |
| FigureViews.FigureView.constructor | CounterPlot/Source/Plotting/FigureView.cpp:391-419 | the view holds the model, its label texts and colour overrides, the initial modes, and no surface since it is not yet showing |
| FigureViews.FigureView.SetComponentColours | CounterPlot/Source/Plotting/FigureView.cpp:377-385 | the overrides become those of the model and nothing else changes |
| FigureViews.FigureView.RefreshModes | CounterPlot/Source/Plotting/FigureView.cpp:650-665 | resizer and label visibility and label editability follow the model's flags and the modes; the label texts are kept |
| FigureViews.FigureView.AnyArtistWantsSurface | CounterPlot/Source/Plotting/FigureView.cpp:675-684 | the search loop answers whether some artist of the content wants a surface |
| FigureViews.FigureView.CreateOrDestroySurface | CounterPlot/Source/Plotting/FigureView.cpp:667-694 | afterwards there is a surface exactly when the view is showing and some artist wants one; a new surface gets the content, a kept one keeps its own |
| FigureViews.FigureView.SetModel | CounterPlot/Source/Plotting/FigureView.cpp:435-452 | the model is replaced, label texts and colour overrides follow it, the modes are re-applied and the surface follows the content |
| FigureViews.FigureView.ShowingChanged | CounterPlot/Source/Plotting/FigureView.cpp:573-581 | the view holds a surface exactly when it is showing and some artist of its content wants one, a newly made surface gets the content, an existing one keeps its content; the model, overrides, modes and widgets are kept |
| FigureViews.FigureView.MenuItemChosen | CounterPlot/Source/Plotting/FigureView.cpp:599-625 | the chosen item flips its mode, and items 2-5 re-apply the modes to the widgets; the other items leave the widgets as they were; the model, the overrides, the showing flag and the surface are kept |
| FigureViews.FixedChildren | PatchView/Source/FigureView.cpp:364-367 | the non-surface children, never more than all of them |
| FigureViews.SurfaceChildren | PatchView/Source/FigureView.cpp:372-381 | only rendering-surface children |
| FigureViews.Without | PatchView/Source/FigureView.cpp:374 | `removeChildComponent` leaves exactly the other children |
| FigureViews.InitialChildren | PatchView/Source/FigureView.cpp:364-367 | the plot area and the three labels are all fixed children and none is a surface |
| FigureViews.FixedChildrenAppend | PatchView/Source/FigureView.cpp:380 | adding a child extends the surface list or the fixed list, by its kind |
| FigureViews.WithoutSurface | PatchView/Source/FigureView.cpp:374 | removing a surface child keeps the fixed children and drops that surface from the surfaces |
| FigureViews.PatchFigureView.constructor | PatchView/Source/FigureView.cpp:338-368 | a default model, the plot area and the three labels as children, the default label texts and no surface |
| FigureViews.PatchFigureView.SetRenderingSurface | PatchView/Source/FigureView.cpp:370-383 | the old surface child is removed, the new one is appended and given the model's content; the model is unchanged |
| FigureViews.PatchFigureView.SetModel | PatchView/Source/FigureView.cpp:385-399 | the model is replaced, any surface gets its content, the labels its texts, and the children are unchanged |
| FileWatchers.Poll | CounterPlot/Source/Core/FileWatcher.hpp:25-34 | a poll notifies exactly when the file was modified after the last notification, and then the notification time becomes the current time; otherwise it is kept |
| FileWatchers.QuietFileNeverNotifies | CounterPlot/Source/Core/FileWatcher.hpp:25-34 | no run of polls notifies while the file is not modified after the last notification |
| FileWatchers.OneChangeNotifiesOnce | CounterPlot/Source/Core/FileWatcher.hpp:25-34 | one save, seen by polls whose clock is not behind it, is reported at most once, and by the first poll when it is new |
| FileWatchers.FileWatcher.constructor | CounterPlot/Source/Core/FileWatcher.hpp:36-40 | a new watcher has no callback, no file and no running timer |
| FileWatchers.FileWatcher.SetCallback | CounterPlot/Source/Core/FileWatcher.hpp:12-15 | the callback is replaced and nothing else changes |
| FileWatchers.FileWatcher.SetFileToWatch | CounterPlot/Source/Core/FileWatcher.hpp:17-22 | the timer runs every 100 ms, the file is the new one, and only changes after now count; the callback is kept |
| FileWatchers.FileWatcher.TimerCallback | CounterPlot/Source/Core/FileWatcher.hpp:25-34 | the notification time moves as `Poll` says, and the callback, if set, receives the watched file exactly once when the file changed |
| GridViews.GridView.constructor | CounterPlot/Source/Views/JetInCloudView.cpp:98-138 | the eight default colour maps with the first current, a main figure with a 20 px right margin, a colour bar without title, labels, x ticks or gridlines and with margin edits off, and no artist; also `PatchView/Source/Views/BinaryTorquesView.cpp:72-112`: the binary-torques view starts the same way, its colour bar keeping margin edits |
| GridViews.Reloaded | CounterPlot/Source/Views/JetInCloudView.cpp:164-183 | `reloadFigures` as a function: the colour bar spans the extent; with an artist, it takes the stops and the extent as its range and the figures show it and its gradient; the jet-in-cloud view titles the main figure with the file name; also `PatchView/Source/Views/BinaryTorquesView.cpp:129-147`: the binary-torques copy, without the title |
| GridViews.ReloadedKeepsEdits | CounterPlot/Source/Views/JetInCloudView.cpp:164-183 | a reload keeps both margins, the main figure's limits and labels, the colour bar's x-limits and the artist's extent, and sets the colour bar's y-limits and the artist's range to the extent |
| GridViews.ReloadedIdempotent | CounterPlot/Source/Views/JetInCloudView.cpp:164-183 | reloading twice with the same extent, colour map and file is reloading once |
| GridViews.GridView.ReloadFigures | CounterPlot/Source/Views/JetInCloudView.cpp:164-183 | the new figures and artist are `Reloaded` of the old ones with the current colour map, scalar extent and file; also `PatchView/Source/Views/BinaryTorquesView.cpp:129-147`: the binary-torques copy, which leaves the title alone |
| GridViews.GridView.LoadArtist | CounterPlot/Source/Views/JetInCloudView.cpp:149-158 | the new artist replaces the old, its extent becomes the view's, the file is remembered, the figures and artist are `Reloaded` with it, and loading reports success; also `PatchView/Source/Views/BinaryTorquesView.cpp:118-127`: `setDocumentFile` installs the artist and its extent the same way |
| GridViews.GridView.KeyPressed | CounterPlot/Source/Views/JetInCloudView.cpp:194-215 | left and right step the colour map backward and forward modulo the count, keeping the extent; space resets the extent to the artist's, keeping the colour map; each then reloads the figures; any other key is not handled and changes nothing; the colour-map list is kept; also `PatchView/Source/Views/BinaryTorquesView.cpp:158-198`: the binary-torques view also handles return, exactly when the snapshot file could be opened |
| GridViews.GridView.FigureViewSetMargin | CounterPlot/Source/Views/JetInCloudView.cpp:221-239 | the edited figure takes the whole margin and the other takes its top and bottom; also `PatchView/Source/Views/BinaryTorquesView.cpp:204-222`: the binary-torques copy, the same |
| GridViews.GridView.FigureViewSetDomain | CounterPlot/Source/Views/JetInCloudView.cpp:241-257 | the figure takes the domain as its limits; an edit of the colour bar while an artist exists makes its vertical range the scalar extent and reloads the figures from the edited models; otherwise nothing else changes; also `PatchView/Source/Views/BinaryTorquesView.cpp:224-240`: the binary-torques copy, the same |
| GridViews.GridView.FigureViewSetXlabel | CounterPlot/Source/Views/JetInCloudView.cpp:259-265 | only the edited figure's x label changes |
| GridViews.GridView.FigureViewSetYlabel | CounterPlot/Source/Views/JetInCloudView.cpp:267-273 | only the edited figure's y label changes |
| GridViews.GridView.FigureViewSetTitle | CounterPlot/Source/Views/JetInCloudView.cpp:275-281 | only the edited figure's title changes |
| GridViews.MinOf | PatchView/Source/Views/BinaryTorquesView.cpp:40 | `min_element`: a member of the scalars no greater than any of them |
| GridViews.MaxOf | PatchView/Source/Views/BinaryTorquesView.cpp:41 | `max_element`: a member of the scalars no less than any of them |
| GridViews.RowScalarsLength | PatchView/Source/Views/BinaryTorquesView.cpp:15-36 | each row gives six scalars per value |
| GridViews.ScalarsLength | PatchView/Source/Views/BinaryTorquesView.cpp:13-37 | an ni x nj table gives 6·ni·nj scalars |
| GridViews.BuildQuadmesh | PatchView/Source/Views/BinaryTorquesView.cpp:11-43 | the scalars are each cell's log repeated six times, row by row; there are as many vertices, 6·ni·nj; the extent and the mapping's range are the least and greatest scalar and the stops are magma's |
| GridViews.BuildRow | PatchView/Source/Views/BinaryTorquesView.cpp:15-36 | the inner loop gives one row's scalars and as many vertices |
| JetInCloudStore.InitialStateValues | CounterPlot/Source/Viewers/JetInCloudView.cpp:160-206 | the state starts with the scalar range [0, 1] on the current stops, shared by both artists, the main domain [-5, 5] x [-5, 5], each figure showing its artist, no triangle data and no file |
| JetInCloudStore.SetFileEffect | CounterPlot/Source/Viewers/JetInCloudView.cpp:295-304 | a new file is recorded, titles the main figure and is published; the current file changes nothing and publishes nothing |
| JetInCloudStore.ScalarDomainEffect | CounterPlot/Source/Viewers/JetInCloudView.cpp:327-336 | the same range goes into the mapping, the quad-mesh artist's copy and the colour bar's y limits, and nothing else changes |
| JetInCloudStore.ToExtentIsScalarDomain | CounterPlot/Source/Viewers/JetInCloudView.cpp:338-341 | resetting to the extent is setting the scalar range to the triangles' extent |
| JetInCloudStore.TriangleDataEffect | CounterPlot/Source/Viewers/JetInCloudView.cpp:306-317 | the data is stored for the state and the artist; the first data also resets the range to its extent, later data keeps the range |
| JetInCloudStore.FigureDomainEffect | CounterPlot/Source/Viewers/JetInCloudView.cpp:343-350 | only the main figure's four limits change, to the action's |
| JetInCloudStore.FigureMarginEffect | CounterPlot/Source/Viewers/JetInCloudView.cpp:352-358 | the main margin is replaced and the colour bar takes only its top and bottom; nothing else changes |
| JetInCloudStore.Store.constructor | CounterPlot/Source/Viewers/JetInCloudView.cpp:283-286 | the initial state is published once and no job is queued |
| JetInCloudStore.Store.Publish | CounterPlot/Source/Viewers/JetInCloudView.cpp:302 | `subscriber.update` receives the current state once more |
| JetInCloudStore.Store.DispatchSetFile | CounterPlot/Source/Viewers/JetInCloudView.cpp:288-304 | the state becomes the reducer's; a new file queues its loading job in place of any earlier one and publishes once, the current file does neither |
| JetInCloudStore.Store.DispatchSetTriangleData | CounterPlot/Source/Viewers/JetInCloudView.cpp:306-317 | the state becomes the reducer's and is published exactly once on either path |
| JetInCloudStore.Store.DispatchSetColourMap | CounterPlot/Source/Viewers/JetInCloudView.cpp:319-325 | the state becomes the reducer's and is published once |
| JetInCloudStore.Store.DispatchSetScalarDomain | CounterPlot/Source/Viewers/JetInCloudView.cpp:327-336 | the state becomes the reducer's and is published once |
| JetInCloudStore.Store.DispatchSetScalarDomainToExtent | CounterPlot/Source/Viewers/JetInCloudView.cpp:338-341 | the state becomes the reducer's and is published once |
| JetInCloudStore.Store.DispatchSetFigureDomain | CounterPlot/Source/Viewers/JetInCloudView.cpp:343-350 | the state becomes the reducer's and is published once |
| JetInCloudStore.Store.DispatchSetFigureMargin | CounterPlot/Source/Viewers/JetInCloudView.cpp:352-358 | the state becomes the reducer's and is published once |
| JetInCloudStore.Store.DispatchSetFigureDomainAndMargin | CounterPlot/Source/Viewers/JetInCloudView.cpp:360-370 | the combined action has the effect of the domain action followed by the margin action, published once instead of twice |
| JetInCloudStore.JetInCloudViewer.constructor | CounterPlot/Source/Viewers/JetInCloudView.cpp:431-437 | the viewer's store has published the initial state once |
| JetInCloudStore.JetInCloudViewer.LoadFile | CounterPlot/Source/Viewers/JetInCloudView.cpp:489-492 | the file is dispatched to the store |
| JetInCloudStore.JetInCloudViewer.FigureViewSetMargin | CounterPlot/Source/Viewers/JetInCloudView.cpp:512-518 | a margin edit of the main figure reaches the store and is published; one of the colour bar changes nothing |
| JetInCloudStore.JetInCloudViewer.FigureViewSetDomainAndMargin | CounterPlot/Source/Viewers/JetInCloudView.cpp:520-530 | only the main figure's edit reaches the store, as domain then margin |
| JetInCloudStore.JetInCloudViewer.FigureViewSetDomain | CounterPlot/Source/Viewers/JetInCloudView.cpp:532-544 | the main figure's domain becomes its limits, the colour bar's vertical extent becomes the scalar range, and either is published once |
| JetInCloudStore.JetInCloudViewer.Perform | CounterPlot/Source/Viewers/JetInCloudView.cpp:572-583 | next and previous move the colour-map cursor modulo the count and send the stops under it, reset sends the extent, the other commands change no state, and every command reports handled |
| LookAndFeels.IdValuesDistinct | CounterPlot/Source/Core/LookAndFeel.hpp:15-36 | the colour ids have pairwise different values and none is -1, so -1 can signal an unknown name |
| LookAndFeels.NamesTable | CounterPlot/Source/Core/LookAndFeel.cpp:83-95 | CounterPlot's chain knows 13 names, PatchView's 12 |
| LookAndFeels.Lookup | CounterPlot/Source/Core/LookAndFeel.cpp:81-97 | a name yields an id exactly when some entry carries that name, and then an id paired with it |
| LookAndFeels.ColourIdNumber | CounterPlot/Source/Core/LookAndFeel.cpp:81-97 | the int returned is -1 exactly when the name is unknown |
| LookAndFeels.TableEntriesAreNamed | CounterPlot/Source/Core/LookAndFeel.cpp:83-95 | each entry pairs an id with that id's own name, and no two entries share a name or an id |
| LookAndFeels.LookupFindsFirst | CounterPlot/Source/Core/LookAndFeel.cpp:83-96 | the chain returns the id of the first test whose name matches |
| LookAndFeels.LookupFindsOnlyPrefix | PatchView/Source/Views/LookAndFeel.cpp:85-100 | PatchView's shorter chain finds only the names among its twelve tests |
| LookAndFeels.ColourIdRoundTrip | CounterPlot/Source/Core/LookAndFeel.cpp:81-97 | a name found maps to an id whose name it is, and every nameable id is found again by its name (in PatchView except the status bar's); also `PatchView/Source/Views/LookAndFeel.cpp:85-100`: the same round trip holds for PatchView's copy, status bar excluded |
| LookAndFeels.IndexOfId | CounterPlot/Source/Core/LookAndFeel.cpp:83-95 | a nameable id has an entry, among the first twelve unless it is the status bar's |
| LookAndFeels.CopiesAgreeOffStatusBar | PatchView/Source/Views/LookAndFeel.cpp:85-100 | the two copies agree on every name except "status_bar.background" |
| LookAndFeels.StatusBarInCounterPlot | CounterPlot/Source/Core/LookAndFeel.cpp:95 | CounterPlot's copy maps "status_bar.background" to the status bar's id |
| LookAndFeels.StatusBarNotInPatchView | PatchView/Source/Views/LookAndFeel.cpp:87-99 | PatchView's copy does not know "status_bar.background" |
| LookAndFeels.LookupAppend | CounterPlot/Source/Core/LookAndFeel.cpp:95-96 | one more test at the end changes only the answer for its own name |
| LookAndFeels.PropertyTextCycles | CounterPlot/Source/Core/LookAndFeel.cpp:68-79 | non-negative indices cycle through the five property text colours with period 5; also `PatchView/Source/Views/LookAndFeel.cpp:47-58`: PatchView's copy cycles the same way |
| LookAndFeels.NegativePropertyText | CounterPlot/Source/Core/LookAndFeel.cpp:68-79 | with C++'s remainder, a negative index gives black unless it is a multiple of 5, which gives the first text colour |
| LookAndFeels.AppLookAndFeel.constructor | CounterPlot/Source/Core/LookAndFeel.cpp:103-106 | the look-and-feel starts with the given default font |
| LookAndFeels.AppLookAndFeel.GetDefaultFont | CounterPlot/Source/Core/LookAndFeel.cpp:103-106 | returns the current default font |
| LookAndFeels.AppLookAndFeel.SetDefaultFont | CounterPlot/Source/Core/LookAndFeel.cpp:108-111 | the next default font is the one set |
| LookAndFeels.AppLookAndFeel.IncrementFontSize | CounterPlot/Source/Core/LookAndFeel.cpp:113-116 | the font grows by the amount and keeps its typeface |
| LookAndFeels.AppLookAndFeel.GetDefaultScrollbarWidth | CounterPlot/Source/Core/LookAndFeel.cpp:131-134 | scroll bars are 6 pixels wide |
| MeshHelpers.BailsLater | CounterPlot/Source/Plotting/PlotModels.cpp:278-281 | once a loop has bailed out after n items, it counts as bailed out after any later item count too |
| MeshHelpers.AnyPollLater | CounterPlot/Source/Plotting/PlotModels.cpp:278-281 | a callback that answered true within p polls has answered true within any larger number of polls |
| MeshHelpers.FirstPoll | CounterPlot/Source/Plotting/PlotModels.cpp:254-257 | before any item, a loop bails out exactly when a callback is present and its first answer is true |
| MeshHelpers.NextItem | CounterPlot/Source/Plotting/PlotModels.cpp:278 | one more item adds a poll only on every 1000th item, and then the loop bails when that poll answers true |
| MeshHelpers.Quad | CounterPlot/Source/Plotting/PlotModels.cpp:270-276 | each cell contributes six vertices, two triangles |
| MeshHelpers.RowVerticesLength | CounterPlot/Source/Plotting/PlotModels.cpp:264-282 | j cells of a column give 6 j vertices |
| MeshHelpers.MeshVerticesLength | CounterPlot/Source/Plotting/PlotModels.cpp:262-283 | i columns of nj cells give 6 i nj vertices |
| MeshHelpers.MeshLength | CounterPlot/Source/Plotting/PlotModels.cpp:259-284 | the whole mesh has 6 ni nj vertices, and none when either count is not positive |
| MeshHelpers.RowVerticesAt | CounterPlot/Source/Plotting/PlotModels.cpp:264-276 | the six vertices of cell k of a column sit at indices 6k to 6k+5, the two triangles of that cell's corners |
| MeshHelpers.TriangulateRow | CounterPlot/Source/Plotting/PlotModels.cpp:264-282 | the inner loop either bails out (and the poll that stopped it answered true) or appends every cell of the column, having counted nj more items |
| MeshHelpers.TriangulateUniformRectilinearMesh | CounterPlot/Source/Plotting/PlotModels.cpp:252-285 | the result is empty exactly when some poll, before the first cell or after any 1000th, answers true; otherwise it is the full mesh, column by column, six vertices per cell |
| MeshHelpers.NextRow | CounterPlot/Source/Plotting/PlotModels.cpp:262-264 | finishing a column of nj cells advances the item count by nj |
| MeshHelpers.RowsWithin | CounterPlot/Source/Plotting/PlotModels.cpp:262-264 | the items counted before column k never exceed ni nj |
| MeshHelpers.IntendedCornersTile | CounterPlot/Source/Plotting/PlotModels.cpp:266-269 | with each axis divided by its own span, the cells start at the extent's lower corner, end at its upper corner and share their edges with their neighbours |
| MeshHelpers.CornersStart | CounterPlot/Source/Plotting/PlotModels.cpp:266-267 | the first column starts at the left edge and the first row at the bottom edge |
| MeshHelpers.CornersEndX | CounterPlot/Source/Plotting/PlotModels.cpp:268 | the last column ends at the right edge |
| MeshHelpers.CornersEndY | CounterPlot/Source/Plotting/PlotModels.cpp:269 | the last row ends at the top edge |
| MeshHelpers.WholeSpan | CounterPlot/Source/Plotting/PlotModels.cpp:268-269 | n steps of a span divided by n cover the span |
| MeshHelpers.AsWrittenCornersLeaveExtent | CounterPlot/Source/Plotting/PlotModels.cpp:266-269 | as written, a single cell of extent [0, 1] x [0, 2] ends at x = 2, outside the extent, where the intended corners end at x = 1 |
| MeshHelpers.Repeated6At | CounterPlot/Source/Plotting/PlotModels.cpp:303-306 | element 6k + m of the per-vertex scalars is scalar k, for each of the six vertices of cell k |
| MeshHelpers.Repeated6Length | CounterPlot/Source/Plotting/PlotModels.cpp:300-306 | the per-vertex scalars are six per cell |
| MeshHelpers.MakeRectilinearGridScalars | CounterPlot/Source/Plotting/PlotModels.cpp:292-314 | empty exactly when a poll answers true, otherwise every scalar repeated six times in order |
| MeshHelpers.FindScalarExtent | CounterPlot/Source/Plotting/PlotModels.cpp:316-337 | (0, 1) exactly when a poll answers true, otherwise the running minimum from FLT_MAX and the running maximum from the seed the code uses |
| MeshHelpers.IntendedExtentIsMinMax | CounterPlot/Source/Plotting/PlotModels.cpp:322-336 | with the maximum seeded at -FLT_MAX, the extent of non-empty data in float range is its smallest and largest element, both present in the data |
| MeshHelpers.AsWrittenExtentOfNegativeData | CounterPlot/Source/Plotting/PlotModels.cpp:323 | seeded at FLT_MIN, the smallest positive float, the extent of [-1] is (-1, FLT_MIN) instead of (-1, -1) |
| MeshHelpers.ScaleByLog10 | CounterPlot/Source/Plotting/PlotModels.cpp:339-358 | empty exactly when a poll answers true, otherwise the element-wise logarithm of the input, same shape |
| MeshHelpers.OldFirstCall | CounterPlot/Source/PlotModels.cpp:236-239 | the older copies' first, unguarded call throws exactly on a null callback, and otherwise answers whether the loop bails before the first item |
| MeshHelpers.OldNullCallbackThrows | CounterPlot/Source/PlotModels.cpp:236-239 | as written, a null callback, which the same functions' loops test for, makes the first call throw |
| MeshHelpers.NullCallbackNeverBails | CounterPlot/Source/Plotting/PlotModels.cpp:254 | the newer copies, which test for null first, never bail out without a callback |
| MeshHelpers.OldTriangulateUniformRectilinearMesh | CounterPlot/Source/PlotModels.cpp:234-267 | the older copy calls the callback with no null check, so a null callback throws `std::bad_function_call`; any other builds the same as-written mesh as the newer copy |
| MeshHelpers.OldMakeRectilinearGridScalars | CounterPlot/Source/PlotModels.cpp:274-296 | the older copy throws on a null callback and otherwise gives the same scalars |
| MeshHelpers.OldFindScalarExtent | CounterPlot/Source/PlotModels.cpp:298-319 | the older copy throws on a null callback and otherwise gives the same FLT_MIN-seeded extent |
| MeshHelpers.OldScaleByLog10 | CounterPlot/Source/PlotModels.cpp:321-340 | the older copy throws on a null callback and otherwise gives the same logarithms |
| MetalSurfaces.Texture | CounterPlot/Source/Plotting/PlotModels.cpp:232-241 | `fromColours` gives one RGBA word per colour stop, in order |
| MetalSurfaces.TextureOfRoundTrip | CounterPlot/Source/Plotting/PlotModels.cpp:232-241 | a texture has one word per stop, and each word unpacks to the colour it came from |
| MetalSurfaces.MakeDeviceBuffer | CounterPlot/Source/Plotting/MetalSurface.cpp:173-189 | a device buffer made from a vector records the vector's length as its size and holds a buffer of that many elements |
| MetalSurfaces.Cleaned | CounterPlot/Source/Plotting/MetalSurface.cpp:153-167 | a cache is either kept whole or emptied, and is kept whole while it holds fewer than the limit |
| MetalSurfaces.CleanedThenInsert | CounterPlot/Source/Plotting/MetalSurface.cpp:115-118 | cleaning a cache within the limit leaves room for one more buffer, so cleaning and then inserting never exceeds the limit |
| MetalSurfaces.InsertSize | CounterPlot/Source/Plotting/MetalSurface.cpp:117 | inserting one entry grows a cache by at most one |
| MetalSurfaces.BufferCaches.constructor | CounterPlot/Source/MetalSurface.hpp:46 | the caches start empty with a positive limit, and nothing has been made on the device |
| MetalSurfaces.BufferCaches.Clean | CounterPlot/Source/Plotting/MetalSurface.cpp:153-167 | each of the three caches is emptied when it has reached the limit and is otherwise left as it was |
| MetalSurfaces.BufferCaches.GetOrCreate | CounterPlot/Source/Plotting/MetalSurface.cpp:105-151 | a vector already cached by address gets its cached buffer; otherwise a new buffer of the vector's length is made, the caches are cleaned, and it is cached under the address; no cache exceeds the limit |
| MetalSurfaces.ShapesOf | CounterPlot/Source/Plotting/MetalSurface.cpp:19-29 | `setContent` adds at most one node per artist |
| MetalSurfaces.Meshes | CounterPlot/Source/Plotting/Artists.cpp:207 | the artists that add a node are the mesh artists |
| MetalSurfaces.ShapesFollowMeshes | CounterPlot/Source/Plotting/MetalSurface.cpp:19-29 | the scene holds one node per mesh artist, in the artists' order, each with its own artist's vertex count, texture and scalar range |
| MetalSurfaces.SoftwareOnlyDrawsNothing | CounterPlot/Source/Plotting/MetalSurface.cpp:24-27 | artists that do not render to the surface leave the scene empty |
| MetalSurfaces.MetalRenderingSurface.constructor | CounterPlot/Source/Plotting/MetalSurface.cpp:7-12 | a new surface has an empty scene and empty caches |
| MetalSurfaces.MetalRenderingSurface.GetOrCreateBuffer | CounterPlot/Source/Plotting/MetalSurface.cpp:105-151 | an empty vector gets the empty buffer and leaves the caches alone; any other is looked up or made and cached |
| MetalSurfaces.MetalRenderingSurface.RenderColoured | CounterPlot/Source/Plotting/MetalSurface.cpp:31-40 | one node is appended with the vertex count, position and colour buffers (present exactly when the vectors are non-empty) and no scalars or mapping |
| MetalSurfaces.MetalRenderingSurface.RenderMapped | CounterPlot/Source/Plotting/MetalSurface.cpp:42-57 | one node is appended with the vertex count, the texture of the mapping's stops and its scalar range, with position and scalar buffers |
| MetalSurfaces.MetalRenderingSurface.RenderDeviceColoured | CounterPlot/Source/Plotting/MetalSurface.cpp:59-69 | one node is appended holding the device buffers themselves and their size |
| MetalSurfaces.MetalRenderingSurface.RenderDeviceMapped | CounterPlot/Source/Plotting/MetalSurface.cpp:71-85 | one node is appended holding the device buffers, the mapping's texture and scalar range |
| MetalSurfaces.MetalRenderingSurface.SetContent | CounterPlot/Source/Plotting/MetalSurface.cpp:19-29 | the scene is rebuilt from scratch in the transformer's domain, one node per mesh artist in order |
| MetalSurfaces.PatchMetalSurface.TextureAt | PatchView/Source/MetalSurface.cpp:61-77 | an index outside 0-7 loads an empty texture; an index inside loads the texture of its table, failing exactly when that table does not parse |
| MetalSurfaces.PatchMetalSurface.constructor | PatchView/Source/MetalSurface.cpp:7-12 | a new surface selects colour map 0 and loads its texture |
| MetalSurfaces.PatchMetalSurface.SetColorMap | PatchView/Source/MetalSurface.cpp:61-77 | the index is recorded first; the texture becomes the table's, or stays as it was when the table does not parse, and the scene is untouched |
| MetalSurfaces.PatchMetalSurface.NextColorMap | PatchView/Source/MetalSurface.cpp:51-54 | the cursor moves to the next of the eight maps, wrapping from 7 to 0, and its texture is loaded |
| MetalSurfaces.PatchMetalSurface.PrevColorMap | PatchView/Source/MetalSurface.cpp:56-59 | the cursor moves to the previous of the eight maps, wrapping from 0 to 7, and its texture is loaded |
| MetalSurfaces.PatchMetalSurface.GetOrCreateBuffer | PatchView/Source/MetalSurface.cpp:92-126 | with no empty-vector check, every vector is looked up by address or made and cached |
| MetalSurfaces.PatchMetalSurface.RenderColoured | PatchView/Source/MetalSurface.cpp:26-35 | one node is appended with the vertex count and position and colour buffers; the colour map is untouched |
| MetalSurfaces.PatchMetalSurface.RenderMapped | PatchView/Source/MetalSurface.cpp:37-49 | one node is appended with the surface's current colour map and the given scalar range |
| PatchMain.RowCells | PatchView/Source/MainComponent.cpp:79-119 | a row of the mesh has one cell per column index, in order |
| PatchMain.PatchCellsCount | PatchView/Source/MainComponent.cpp:77-120 | the cells of the first i rows of a patch number i times the columns |
| PatchMain.MeshCellsCount | PatchView/Source/MainComponent.cpp:72-121 | the whole mesh has as many cells as its patches' (rows - 1)(cols - 1) summed, none for a patch under two vertices along a side |
| PatchMain.MeshCellsInRange | PatchView/Source/MainComponent.cpp:72-121 | every cell indexes an existing patch and a quad inside that patch's vertex array |
| PatchMain.PatchCellsInRange | PatchView/Source/MainComponent.cpp:77-120 | every cell of a patch lies in its rows and columns |
| PatchMain.OfLength | PatchView/Source/MainComponent.cpp:99-118 | six vertices, six colours and six scalars per cell |
| PatchMain.VertexBlock | PatchView/Source/MainComponent.cpp:81-104 | the six vertices of cell k are its two triangles (00, 01, 10) and (01, 10, 11), at indices 6k to 6k+5 |
| PatchMain.ScalarBlock | PatchView/Source/MainComponent.cpp:97-118 | the six scalars of cell k all hold that cell's value |
| PatchMain.ColoursFollowScalars | PatchView/Source/MainComponent.cpp:106-111 | every vertex colour is the opaque grey of the vertex's scalar |
| PatchMain.Extent | PatchView/Source/MainComponent.cpp:123-124 | for a non-empty list, the smallest and largest element, both present |
| PatchMain.OfAppend | PatchView/Source/MainComponent.cpp:99-118 | the arrays of two runs of cells are the concatenation of their arrays |
| PatchMain.PatchStep | PatchView/Source/MainComponent.cpp:77-120 | one more row of a patch appends that row's vertices, colours and scalars |
| PatchMain.MeshStep | PatchView/Source/MainComponent.cpp:72-121 | one more patch appends that patch's vertices, colours and scalars |
| PatchMain.TriangulateRow | PatchView/Source/MainComponent.cpp:79-119 | the inner loop produces exactly the arrays of one row's cells |
| PatchMain.TriangulatePatch | PatchView/Source/MainComponent.cpp:77-120 | the middle loop produces exactly the arrays of one patch's cells |
| PatchMain.Triangulate | PatchView/Source/MainComponent.cpp:72-121 | the outer loop produces exactly the arrays of every cell of every patch, patch by patch, row by row |
| PatchMain.PatchesQuadMeshArtist.constructor | PatchView/Source/MainComponent.cpp:70-126 | the artist holds the mesh's vertices, colours and scalars, six vertices per cell, with vmin and vmax the smallest and largest scalar |
| PatchMain.PatchesQuadMeshArtist.Render | PatchView/Source/MainComponent.cpp:128-131 | rendering appends one node with the artist's vertex count, the surface's texture and the artist's scalar range |
| PatchMain.RedGreenBlueReadsBack | PatchView/Source/MainComponent.cpp:162-166 | the surface's texture has three words, reading back as red, green and blue |
| PatchMain.MainMetalSurface.constructor | PatchView/Source/MainComponent.cpp:160-170 | the surface starts with the red-green-blue texture, an empty scene and empty caches |
| PatchMain.MainMetalSurface.GetOrCreateBuffer | PatchView/Source/MainComponent.cpp:216-247 | a hit returns the stored buffer and changes nothing; a miss makes one new buffer and stores it; no stored buffer is ever removed and the other caches are untouched |
| PatchMain.MainMetalSurface.RenderColoured | PatchView/Source/MainComponent.cpp:184-193 | one node is appended with the cached position and colour buffers and the vertex count |
| PatchMain.MainMetalSurface.RenderMapped | PatchView/Source/MainComponent.cpp:195-207 | one node is appended with the cached position and scalar buffers, the fixed texture and the scalar range |
| PatchMain.MainComponent.constructor | PatchView/Source/MainComponent.cpp:271-283 | the model is the default figure holding the quad-mesh artist, and the view shows it on a Metal surface |
| PatchMain.MainComponent.SetMargin | PatchView/Source/MainComponent.cpp:303-307 | only the model's margin changes, and the view shows the new model |
| PatchMain.MainComponent.SetDomainFromView | PatchView/Source/MainComponent.cpp:309-316 | the model's limits become the rectangle's edges, so its domain reads back as the rectangle, and the view shows it |
| PatchMain.MainComponent.SetXlabel | PatchView/Source/MainComponent.cpp:318-322 | only the x label changes, and the view's label shows it |
| PatchMain.MainComponent.SetYlabel | PatchView/Source/MainComponent.cpp:324-328 | only the y label changes, and the view's label shows it |
| PatchMain.MainComponent.SetTitle | PatchView/Source/MainComponent.cpp:330-334 | only the title changes, and the view's label shows it |
| Outlines.Numbered | PatchView/Source/OutlineView.cpp:35 | each row's number is its position in the list, counted from the rows already there |
| Outlines.LeavesAreStrings | PatchView/Source/OutlineView.cpp:24-42 | only strings become rows |
| Outlines.GenerateOutlineInto | PatchView/Source/OutlineView.cpp:22-43 | the rows of a value are appended after the existing ones: one per string, depth first, left to right, each at the number of arrays around it plus the starting level and numbered by the list's size when added; other kinds add nothing |
| Outlines.NumberedAppend | PatchView/Source/OutlineView.cpp:35-37 | numbering two runs of rows in turn numbers their concatenation |
| Outlines.GenerateOutline | PatchView/Source/OutlineView.cpp:45-50 | the outline of a value is its strings in depth-first order, row k numbered k, each holding a string |
| Outlines.ModelLeavesUpTo | PatchView/Source/OutlineView.cpp:58-72 | the first n entries of the view's model give n rows plus two more for each array among them |
| Outlines.ModelHasThirtyRows | PatchView/Source/OutlineView.cpp:56-73 | the view's model outlines to exactly 30 rows: fifteen strings and five arrays of three |
| Outlines.ItemAt | PatchView/Source/OutlineView.cpp:125 | indexing past either end of the outline yields an item holding void |
| Outlines.OutlineView.constructor | PatchView/Source/OutlineView.cpp:56-73 | the model is a 20-entry array, every fourth entry the array of three child strings and the rest "Object" followed by the index; no row is hovered or selected |
| Outlines.OutlineView.MouseMove | PatchView/Source/OutlineView.cpp:108-112 | the hovered row is the mouse's height divided by the row height, truncated toward zero; the selection is untouched |
| Outlines.OutlineView.MouseExit | PatchView/Source/OutlineView.cpp:114-118 | no row is hovered; the selection is untouched |
| Outlines.OutlineView.MouseDown | PatchView/Source/OutlineView.cpp:120-130 | the selected row is the truncated row under the mouse, even past the last row, because the outline holds no arrays and the reset to -1 never applies |
| PlotLayout.TopMargin | CounterPlot/Source/Plotting/PlotModels.cpp:29-37 | the top strip starts at the left margin and the top edge, is as tall as the top margin and ends where the right margin starts |
| PlotLayout.BottomMargin | CounterPlot/Source/Plotting/PlotModels.cpp:39-47 | the bottom strip spans the same columns and sits flush with the area's bottom, as tall as the bottom margin |
| PlotLayout.LeftMargin | CounterPlot/Source/Plotting/PlotModels.cpp:49-57 | the left strip starts at the left edge below the top margin, is as wide as the left margin and ends where the bottom margin starts |
| PlotLayout.RightMargin | CounterPlot/Source/Plotting/PlotModels.cpp:59-67 | the right strip is flush with the area's right edge, as wide as the right margin, over the same rows |
| PlotLayout.MarginStripsFramePlotArea | CounterPlot/Source/Plotting/PlotModels.cpp:29-67 | the four strips border the plot area exactly: top and bottom span its columns, left and right its rows, and each touches the matching edge; also `CounterPlot/Source/PlotModels.cpp:27-65`: the older copy's strips frame the plot area the same way; also `PatchView/Source/PlotModels.cpp:27-65`: PatchView's strips frame the plot area the same way |
| PlotLayout.Compute | CounterPlot/Source/Plotting/PlotModels.cpp:9-27 | each strip is carved from the plot-facing edge outward: the tick area (tick length, truncated and clipped to the strip), then the label area less its padding, leaving the rest of the margin outside; every piece keeps the strip's extent across it; also `PatchView/Source/PlotModels.cpp:7-25`: PatchView's copy carves the strips the same way; also `CounterPlot/Source/PlotModels.cpp:7-25`: the older copy carves the strips the same way |
| ResizerFrames.Zones | CounterPlot/Source/Plotting/ResizerFrame.cpp:29-45 | the nine zones, numbered row by row from the top left, carved from the bounds with an 8-pixel border |
| ResizerFrames.ZonesOfFrame | CounterPlot/Source/Plotting/ResizerFrame.cpp:29-45 | for bounds at least two borders wide and tall, the zones are the four corner squares, the four edge strips and the middle, with the expected positions and sizes |
| ResizerFrames.ZonesTile | CounterPlot/Source/Plotting/ResizerFrame.cpp:29-45 | every point inside the bounds lies in exactly one zone: the one of its row band and column band |
| ResizerFrames.ZonesInsideFrame | CounterPlot/Source/Plotting/ResizerFrame.cpp:29-45 | no zone holds a point outside the bounds |
| ResizerFrames.ZoneForPoint | CounterPlot/Source/Plotting/ResizerFrame.cpp:92-103 | the zone returned holds the point, corners winning over edges; the middle is returned exactly when no other zone holds the point |
| ResizerFrames.ZoneForPointOfFrame | CounterPlot/Source/Plotting/ResizerFrame.cpp:92-103 | on a laid-out frame a point inside gets the zone of its bands and a point outside gets the middle |
| ResizerFrames.DragMovesOnlyItsEdges | CounterPlot/Source/Plotting/ResizerFrame.cpp:52-64 | a drag moves only the edges of the dragged zone (both for a corner, one for an edge, none for the middle) by the drag distance, keeping the opposite edges while the box does not turn inside out |
| ResizerFrames.ResizerFrame.constructor | CounterPlot/Source/Plotting/ResizerFrame.cpp:7-18 | a new frame has no callback, nothing being dragged and empty zones |
| ResizerFrames.ResizerFrame.SetCallback | CounterPlot/Source/Plotting/ResizerFrame.cpp:20-23 | only the callback changes |
| ResizerFrames.ResizerFrame.Resized | CounterPlot/Source/Plotting/ResizerFrame.cpp:29-45 | the zone array becomes the layout of the frame's local bounds |
| ResizerFrames.ResizerFrame.MouseMove | CounterPlot/Source/Plotting/ResizerFrame.cpp:47-50 | the cursor becomes the one of the zone under the mouse; nothing else changes |
| ResizerFrames.ResizerFrame.MouseDown | CounterPlot/Source/Plotting/ResizerFrame.cpp:66-71 | the parent's bounds are remembered and the zone under the mouse becomes the dragged zone and the cursor |
| ResizerFrames.ResizerFrame.MouseDrag | CounterPlot/Source/Plotting/ResizerFrame.cpp:52-64 | with a callback, it receives the remembered bounds with the dragged zone's edges moved; without one, nothing is sent |
| ResizerFrames.ResizerFrame.MouseUp | CounterPlot/Source/Plotting/ResizerFrame.cpp:73-76 | the dragged zone returns to the middle |
| ResizerFrames.ResizerFrame.HitTest | CounterPlot/Source/Plotting/ResizerFrame.cpp:78-85 | a point hits the frame exactly when some zone other than one equal to the middle contains it |
| ResizerFrames.HitTestOfFrame | CounterPlot/Source/Plotting/ResizerFrame.cpp:78-85 | on a laid-out frame the hit area is exactly the 8-pixel border inside the bounds |
| Runtime.KindName | CounterPlot/Source/Core/Runtime.hpp:235-331 | each kind of wrapped data has its own name, distinct from every other kind's |
| Runtime.SummaryOfArray1 | CounterPlot/Source/Core/Runtime.hpp:240-244 | a one-dimensional array summarises as "double[" followed by its length in decimal and "]" |
| Runtime.TypeName | CounterPlot/Source/Core/Runtime.hpp:176-183 | wrapped data is named by its kind; any other value by its text |
| Runtime.MakeTypeErrorStart | CounterPlot/Source/Core/Runtime.hpp:149-160 | the message starts with the caller and ": " when there is a caller, then "expected " |
| Runtime.MakeTypeErrorEnd | CounterPlot/Source/Core/Runtime.hpp:149-160 | without an index the message ends with ", got " and the value's type name |
| Runtime.MakeTypeErrorAtIndex | CounterPlot/Source/Core/Runtime.hpp:149-160 | with an index the message ends with " at index " and that index, which reads back from the message's tail |
| Runtime.CheckData | CounterPlot/Source/Core/Runtime.hpp:185-195 | succeeds exactly when the value wraps data of the expected kind, returning that data; otherwise fails with the type error naming the expected kind |
| Runtime.OptData | CounterPlot/Source/Core/Runtime.hpp:197-205 | the data exactly when the value wraps data of the kind, otherwise nothing |
| Runtime.OptDataAgreesWithCheckData | CounterPlot/Source/Core/Runtime.hpp:185-205 | the optional lookup is empty exactly when the checked lookup fails, and otherwise both give the same data |
| Runtime.Represent | CounterPlot/Source/Core/Runtime.hpp:207-222 | wrapped data shows its summary, an array "list[]", an object "dict{}", anything else its text |
| Runtime.Positional | CounterPlot/Source/Core/Runtime.hpp:54-66 | there are never more positional arguments than parts |
| Runtime.Call | CounterPlot/Source/Core/Runtime.hpp:38-75 | void when the bailout fires first; the "not a function" error when the head is not native; otherwise the head applied to the keyword object (bailout checker first) and the positional parts |
| Runtime.PositionalInOrder | CounterPlot/Source/Core/Runtime.hpp:58-61 | every positional argument is a part after the head without a keyword, and without keywords all parts after the head are positional |
| Runtime.KeywordsHoldLastValue | CounterPlot/Source/Core/Runtime.hpp:62-63 | a keyword given several times holds its last value; one never given keeps its initial value |
| Runtime.KeywordsAtLastWithKey | CounterPlot/Source/Core/Runtime.hpp:62-63 | the keyword object holds the value of the last part with that keyword |
| Runtime.KeywordsWithoutKey | CounterPlot/Source/Core/Runtime.hpp:62-63 | a keyword with no part keeps its initial value |
| Runtime.LastWithKeyFinds | CounterPlot/Source/Core/Runtime.hpp:54-66 | a last part with the keyword is found exactly when some part after the head has it |
| Runtime.LastWithKey | CounterPlot/Source/Core/Runtime.hpp:54-66 | the index found has the keyword and no later part does |
| Runtime.At | CounterPlot/Source/Core/Runtime.hpp:77-89 | the value bound to the key, or void when the scope has none |
| Runtime.CheckArg | CounterPlot/Source/Core/Runtime.cpp:10-18 | fails with "required argument at index … not found" exactly when the index is past the arguments, otherwise returns that argument |
| Runtime.CheckArgData | CounterPlot/Source/Core/Runtime.cpp:20-34 | a missing argument gives the "not found" error, a present one of the wrong kind "wrong type for argument at index", otherwise the wrapped data of the right kind |
| Runtime.ListBuiltin | CounterPlot/Source/Core/Runtime.cpp:36-39 | an array of all positional arguments, in order |
| Runtime.DictBuiltin | CounterPlot/Source/Core/Runtime.cpp:41-44 | the keyword object itself |
| Runtime.ItemBuiltin | CounterPlot/Source/Core/Runtime.cpp:46-49 | a missing first or second argument is an error naming its index; otherwise the element at the given index |
| Runtime.AttrBuiltin | CounterPlot/Source/Core/Runtime.cpp:51-54 | fewer than two arguments is an error; otherwise the named property of an object, or void when it is absent or the first argument is no object |
| Runtime.LinspaceBuiltin | CounterPlot/Source/Core/Runtime.cpp:56-62 | fails exactly when fewer than three arguments are given, naming the first missing index; otherwise a wrapped array of `nd::linspace`'s values for the first two arguments as reals and the third as an integer |
| Runtime.PlotBuiltin | CounterPlot/Source/Core/Runtime.cpp:64-77 | succeeds exactly when two one-dimensional arrays of equal length are given, yielding a line artist; arrays of unequal length give the size-mismatch message |
| Runtime.Builtins | CounterPlot/Source/Core/Runtime.cpp:84-91 | exactly the five names list, dict, item, plot and linspace, each a native function flagged builtin |
| Runtime.Kernel.constructor | CounterPlot/Source/Core/Runtime.hpp:117 | a new kernel has no entries |
| Runtime.Kernel.Insert | CounterPlot/Source/Core/Runtime.hpp:117 | inserting binds the name to the value and flags, replacing any earlier binding |
| Runtime.LoadBuiltins | CounterPlot/Source/Core/Runtime.cpp:84-91 | the kernel gains the five builtins, overwriting entries of those names and keeping the rest; attr is not registered |
| TableViews.Size | CounterPlot/Source/Components/TableView.cpp:7-16 | a column's size is the length of the data array its type selects |
| TableViews.MaxSizeIsMax | CounterPlot/Source/Components/TableView.cpp:18-25 | the row count is at least every column's size and, for a non-empty count, equals some column's size |
| TableViews.MaxRows | CounterPlot/Source/Components/TableView.cpp:18-25 | the loop computes the largest column size, 0 for no columns |
| TableViews.CellArea | CounterPlot/Source/Components/TableView.cpp:31-42 | out-of-range indices give the empty rectangle; otherwise the rectangle between the cell's column and row edges |
| TableViews.ComputeGeometry | CounterPlot/Source/Components/TableView.cpp:264-277 | the column edges are 0 then the gutter width plus each multiple of the column width, one per column and one more; the row edges likewise from the header height in steps of the row height |
| TableViews.CellsOfGeometry | CounterPlot/Source/Components/TableView.cpp:31-42 | on that geometry, data cell (i, j) is the column-width by row-height box after the gutter and header, gutter cells and header cells are their strips, and rows past the last are empty |
| TableViews.TranslationsInverse | CounterPlot/Source/Components/TableView.cpp:298-306 | converting from table to component coordinates and back, in either order, returns the point |
| TableViews.CellAt | CounterPlot/Source/Components/TableView.cpp:279-296 | over the header strip of an existing column the cell is (0, column); anywhere else it is the cell computed from the scrolled position |
| TableViews.Band | CounterPlot/Source/Components/TableView.cpp:293-294 | truncating one plus a non-negative offset over a positive size gives the 1-based band that holds the offset |
| TableViews.DataCellContainsPoint | CounterPlot/Source/Components/TableView.cpp:293-294 | for a point past the gutter and header, the cell found is a data cell whose box contains the point |
| TableViews.Toggled | CounterPlot/Source/Components/TableView.cpp:122-128 | only column k changes, and only its selection flips |
| TableViews.HeaderClick | CounterPlot/Source/Components/TableView.cpp:107-132 | as written: a header click off the abscissa reaches for column col - 1, which fails exactly when that column does not exist |
| TableViews.HeaderClickFixed | CounterPlot/Source/Components/TableView.cpp:107-132 | with the range check, every click the source handles gives the same model, and a click off the columns changes nothing |
| TableViews.HeaderClickEffects | CounterPlot/Source/Components/TableView.cpp:109-129 | a plain click toggles the clicked column and nothing else; "Make Column Abscissa" makes it the abscissa and unselects it |
| TableViews.PlainClickTwice | CounterPlot/Source/Components/TableView.cpp:128 | two plain clicks on the same header restore the model |
| TableViews.HeaderClickPastLastColumn | CounterPlot/Source/Components/TableView.cpp:279-296 | in a one-column table a click on the header strip right of the column yields cell (0, 2), and the click then reaches for a column that does not exist |
| TableViews.HeaderClickFixedKeepsColumns | CounterPlot/Source/Components/TableView.cpp:107-132 | a click never changes the number of columns or any column other than the clicked one |
| TableViews.Limit | CounterPlot/Source/Components/TableView.cpp:150 | the clamp lies within the bounds when they are ordered, and leaves a value already within them alone |
| TableViews.WheelScrollPushesShortTableDown | CounterPlot/Source/Components/TableView.cpp:148-150 | as written, a table shorter than the view gets a lowest offset above 0, and a wheel event with no movement pushes it 74 pixels down |
| TableViews.WheelScrollFixed | CounterPlot/Source/Components/TableView.cpp:146-153 | the intended offset never goes above 0 or below the lowest useful offset, and agrees with the source whenever the table is taller than the view |
| TableViews.TableView.constructor | CounterPlot/Source/Components/TableView.cpp:62-64 | a new view shows the default model, unscrolled |
| TableViews.TableView.SetModel | CounterPlot/Source/Components/TableView.cpp:66-70 | only the model changes |
| TableViews.TableView.MouseMove | CounterPlot/Source/Components/TableView.cpp:134-138 | the hovered cell becomes the cell under the mouse |
| TableViews.TableView.MouseExit | CounterPlot/Source/Components/TableView.cpp:140-144 | no cell is hovered |
| TableViews.TableView.MouseDown | CounterPlot/Source/Components/TableView.cpp:107-132 | the model becomes the result of a header click on the hovered cell, with the range check |
| TableViews.WheelScroll | CounterPlot/Source/Components/TableView.cpp:146-153 | as written: with a table taller than the view the offset stays within [lowest offset, 0] and moves by deltaY view heights when that keeps it there; with a shorter table it is the lowest offset (above 0) or 0 |
| TableViews.TableView.MouseWheelMove | CounterPlot/Source/Components/TableView.cpp:146-153 | the vertical offset becomes `WheelScroll` of the old one (the clamp as written, which pushes a short table down), and the hovered cell is recomputed at the new offset |
| TableViews.RowOnscreenBand | CounterPlot/Source/Components/TableView.cpp:308-313 | a row is on screen exactly when its band, shifted by the scroll offset, overlaps the view's height |
| ViewerCollections.Ids | CounterPlot/Source/Core/ViewerCollection.cpp:64-71 | one identity per item, in item order |
| ViewerCollections.FirstInterested | CounterPlot/Source/Core/ViewerCollection.cpp:48-54 | the index found holds a viewer interested in the file and no earlier one is; -1 exactly when none is |
| ViewerCollections.FirstNamed | CounterPlot/Source/Core/ViewerCollection.cpp:56-62 | the index found holds a viewer with the name and no earlier one does; -1 exactly when none does |
| ViewerCollections.FindViewerForFile | CounterPlot/Source/Core/ViewerCollection.cpp:48-54 | the loop returns the first interested viewer in insertion order, or null; also `CounterPlot/Source/Components/MainComponent.hpp:64-70`: the older copy searches the same way |
| ViewerCollections.FindViewerWithName | CounterPlot/Source/Core/ViewerCollection.cpp:56-62 | the loop returns the first viewer with the name in insertion order, or null |
| ViewerCollections.GetAllComponents | CounterPlot/Source/Core/ViewerCollection.cpp:64-71 | every viewer, in insertion order; also `CounterPlot/Source/Components/MainComponent.hpp:72-79`: the older copy lists them the same way |
| ViewerCollections.ShowOnlyLeavesOne | CounterPlot/Source/Core/ViewerCollection.cpp:93-100 | after showOnly at most one viewer is visible, it is the one asked for, it is visible whenever it is in the collection, and every viewer has the stored bounds |
| ViewerCollections.RefreshedReconfiguresStale | CounterPlot/Source/Core/ViewerCollection.cpp:106-121 | a tick configures an item again exactly when it is an extension loaded before its file's last change, gives it the name and file interests its file now states, and leaves no item stale |
| ViewerCollections.ExtensionsAreYaml | CounterPlot/Source/Core/ViewerCollection.cpp:33-46 | the new items are extensions made only from ".yaml" children, each loaded now, configured once and named and interested as its own file states, and every ".yaml" child gives one |
| ViewerCollections.ViewerCollection.constructor | CounterPlot/Source/Core/ViewerCollection.cpp:8-11 | a new collection has no items and has announced nothing |
| ViewerCollections.ViewerCollection.Add | CounterPlot/Source/Core/ViewerCollection.cpp:23-26 | the viewer is appended as a non-extension item, and the viewers stay distinct |
| ViewerCollections.ViewerCollection.Clear | CounterPlot/Source/Core/ViewerCollection.cpp:28-31 | no items remain |
| ViewerCollections.ViewerCollection.LoadAllInDirectory | CounterPlot/Source/Core/ViewerCollection.cpp:33-46 | one extension item per ".yaml" child, configured from that file, is appended in listing order, and each new viewer is announced to the listeners in the same order |
| ViewerCollections.ViewerCollection.SetBounds | CounterPlot/Source/Core/ViewerCollection.cpp:73-91 | the bounds are stored and given to exactly the visible viewers |
| ViewerCollections.ViewerCollection.ShowOnly | CounterPlot/Source/Core/ViewerCollection.cpp:93-100 | only the given viewer stays visible and every viewer gets the stored bounds |
| ViewerCollections.ViewerCollection.TimerCallback | CounterPlot/Source/Core/ViewerCollection.cpp:106-121 | every stale extension item is configured again from its file and stamped with the current time, the rest are unchanged, and exactly the stale items' viewers are announced, in item order |
| ViewerCollections.StaleIdsAreStaleItems | CounterPlot/Source/Core/ViewerCollection.cpp:106-121 | a tick announces a viewer exactly when a stale extension item holds it, and makes no more announcements than there are items |
| ViewerCollections.InlineViewerCollection.constructor | CounterPlot/Source/Components/MainComponent.hpp:25-28 | the older collection starts with no items |
| ViewerCollections.InlineViewerCollection.Add | CounterPlot/Source/Components/MainComponent.hpp:40-43 | the viewer is appended as a non-extension item |
| ViewerCollections.InlineViewerCollection.Clear | CounterPlot/Source/Components/MainComponent.hpp:45-48 | no items remain |
| ViewerCollections.InlineViewerCollection.LoadAllInDirectory | CounterPlot/Source/Components/MainComponent.hpp:50-62 | one extension item per ".yaml" child, configured from that file, is appended in listing order, and each new viewer is announced in the same order |
| ViewerCollections.InlineViewerCollection.SetBounds | CounterPlot/Source/Components/MainComponent.hpp:81-85 | in this version every viewer gets the bounds, visible or not |
| ViewerCollections.InlineViewerCollection.ShowOnly | CounterPlot/Source/Components/MainComponent.hpp:87-91 | only the given viewer stays visible; bounds are untouched |
| ViewerCollections.InlineViewerCollection.TimerCallback | CounterPlot/Source/Components/MainComponent.hpp:96-111 | every stale extension item is configured again from its file and stamped, and exactly the stale items' viewers are announced, as in the newer version |

## Left out

- Floating point: doubles and floats are `real`s, so rounding (in `smooth`'s `float` temporaries, in `linspace`, in tick values) and NaN other than `linspace`'s 0/0 are not modelled.
- Locating ticks (`Ticker::locateTicks`, its log variant) and the domain-to-pixel mapping used in drawing.
- The mouse-drag pan of a figure (CounterPlot/Source/Plotting/FigureView.cpp:242-250, PatchView/Source/FigureView.cpp:248-256) is not modelled; of the panning gestures only the Ctrl-wheel pan (`FigureViews.WheelDomain`) is.
- `undeformedDomain` (CounterPlot/Source/Plotting/FigureView.cpp:703-714), which keeps the domain's aspect ratio, is not modelled.
- `setBoundsAndSendDomainResizeIfNeeded` and `sendDomainResizeForNewMargin` (CounterPlot/Source/Plotting/FigureView.cpp:454-475), which ask the listener for a new domain when the plot area resizes, are not modelled.
- The JUCE `var` conversions `operator bool`, `operator double` and `toString`, and the DataHelpers codecs `varFromBorderSize`/`borderSizeFromVar` and `varFromStringMap`/`stringMapFromVar`, are the fields of `Vars.Conversions`. The model assumes, as `Vars.Faithful` states, only that each JUCE conversion reads back a value of its own kind and that each codec reads back what it wrote. Nothing else about them is stated. The rows that rest on these laws are FigureVars.DecodeValue, FigureVars.ReadBackField, FigureVars.ReadBackWritten, FigureVars.RoundTrip and FigureVars.RoundTripField (each requires `Faithful(c)`), and the rows whose proofs call them. FigureVars.ToPropsReadsOk, which these proofs use, holds for any conversions.
- `String::getIntValue` accumulates its digits in a 32-bit `int`, so a run of more than nine or ten digits wraps; `Text.IntValue` reads any run exactly. For colour channels, which keep the value modulo 256, the wrap makes no difference, because 2^32 is a multiple of 256. `Text.IsSpace` is the ASCII white space JUCE skips; the other Unicode spaces that `iswspace` may accept are not modelled.
- Tick labels are modelled from the `%.8lf` text they are trimmed from; the conversion of a double to that text is not modelled.
- The values of vertices and scalars computed with `sin`, `cos`, `log10` or `logf`: the functions are parameters, so only counts, order and extents are stated.
- BinaryTorques.BuildTorquesArtist: states vertex and scalar counts and the scalar extent, not vertex coordinates.
- GridViews.BuildQuadmesh: states vertex and scalar counts and the extent, not vertex coordinates.
- MeshHelpers.ScaleByLog10: the source calls `logf` (the natural logarithm) despite the name; the logarithm is a parameter, so the values are stated only in terms of it.
- Runtime.ItemBuiltin: requires an array first argument and an index in range, which JUCE's `var` indexing only asserts; other inputs are not modelled.
- Concurrency: the thread pool, the jet-in-cloud store's worker job, `MessageManager::callAsync` and `DataLoadingThread`; an asynchronous load is modelled as an action that may later arrive.
- Loaders whose behaviour is not visible: HDF5, the patches2d database (`looksLikeDatabase`), JUCE JSON parsing and yaml-cpp parsing of text; each is an opaque function parameter or an abstract tree.
- The `nd` array library is not part of this model: where the program calls `nd::linspace`, its result comes from a function parameter, so its entries are not stated.
- `UserExtensionView::configure`: what a ".yaml" file configures (a name and the files the viewer is interested in) comes from a function parameter; the rest of an extension view's configuration is not modelled.
- Directory scans, file chooser dialogs, snapshot and PNG writing (`saveSnapshot`), movie writing and properties files.
- Metal device calls: buffers are modelled by their sizes and contents, textures as word sequences, scene nodes by their vertex counts.
- PatchView's `MetalSurface.h` is not part of this model, so the cache limit of PatchView's surface is a constructor parameter.
- PatchView's `LookAndFeel.hpp` is not part of this model: PatchView's lookups return the same symbolic ids, with CounterPlot's numeric values.
- The `paint`, `paintOverChildren` and drawing overrides of components, including `OutlineView::paint`, the status bar's drawing and the table view's painters, and `LinePlotArtist` in PatchView's `MainComponent.cpp`. The line artists' `paint` in CounterPlot and in PatchView's `FigureView.cpp` is modelled as the list of drawing operations it issues; the shape each glyph draws for its marker style is not.
- Fonts are reduced to a name and a height.
- `setLookAndFeelDefaults`, which only issues `setColour` calls.
- File names compare by exact text: case-insensitive file systems are not modelled.
- `FileWatcher`: the clock and the file's modification time are parameters, and the callback is an identity whose calls are recorded.
- The export script receives matplotlib's `cmaps_listed` as an input; the map data itself is not modelled.
- `JetInCloudView`'s xlabel, ylabel and title handlers are empty in the source and are not modelled.
- `ResizerFrameTestComponent`, a demonstration component.
- `allowUserResize` and component visibility animations; listener registration (`add/removeListener`) in both viewer collections. The announcements the collections make to their listeners are recorded in their `reconfigured` fields.
- Artists created fresh in the source are values in the model, so object identity between artists is not modelled.
- `JetInCloudView::update` creating a rendering surface is not modelled beyond whether one is wanted.
- `int` loop counters are unbounded: 32-bit overflow of counters and of `nd::array` sizes is not modelled.
- ColourMaps.ColourMapCollection.Next and ColourMaps.ColourMapCollection.Prev require a non-empty collection: on an empty one the source's `% names.size ()` divides by zero, which C++ leaves undefined.
- `setSources` does not sort its argument, so `addSource` keeps the list sorted only when it already was; the model states sortedness under that condition.

## Findings

| source | as written | input that shows it | evidently intended | confidence | as-written member | corrected member |
|---|---|---|---|---|---|---|
| CounterPlot/Source/Plotting/PlotModels.cpp:266-269 | the cell corners divide the x span by the y cell count and the y span by the x cell count | one cell over x in [0, 1], y in [0, 2]: its right edge is at x = 2 | each axis divided by its own cell count, so the cells tile the extent | not executed | MeshHelpers.AsWrittenCornersLeaveExtent | MeshHelpers.IntendedCornersTile |
| CounterPlot/Source/Plotting/PlotModels.cpp:323 | the running maximum starts at `FLT_MIN`, the smallest positive float | all scalars -1: the maximum comes out as `FLT_MIN` | start at the lowest float, so the extent is the data's min and max | not executed | MeshHelpers.AsWrittenExtentOfNegativeData | MeshHelpers.IntendedExtentIsMinMax |
| CounterPlot/Source/PlotModels.cpp:236 | the older mesh helpers call `bailout ()` before any null check, although their loops test `bailout != nullptr` before every later call | a null callback: the first call throws `std::bad_function_call` | test for null before the first call too, as the newer copy does at CounterPlot/Source/Plotting/PlotModels.cpp:254, so a null callback means never bail out | not executed | MeshHelpers.OldNullCallbackThrows | MeshHelpers.NullCallbackNeverBails |
| CounterPlot/Source/Views/BinaryTorquesView.cpp:17-18 | the scalar extent starts at the raw value of cell (0, 0), then widens by the logarithms | one cell holding 100: extent [2, 100] instead of [2, 2] | start at the logarithm of cell (0, 0), so the extent is the emitted scalars' min and max | not executed | BinaryTorques.RawSeedWidensExtent | BinaryTorques.IntendedExtentIsMinMax |
| CounterPlot/Source/Plotting/PlotModels.cpp:475-501 | `toVar` writes "id" when the title differs from the default id, and writes colours under "-colour" keys that `fromVar` (which reads "-color") ignores | a model with a non-default margin colour, or with the default title and another id: reading the written var back does not give the model | test the id against the default id and write the names `fromVar` reads | not executed | FigureVars.AsWrittenRoundTripFails | FigureVars.RoundTrip |
| CounterPlot/Source/Core/AsciiLoader.cpp:37-54 | before any data row the column count is 0, so an empty line has the "right" count and is kept as a row | lines "", "1 2", "": 2 rows of 2 columns but only 2 values | skip lines with no values, so the data always holds rows × columns values | not executed | AsciiLoaders.LeadingEmptyLineCountsAsRow | AsciiLoaders.LoadFixedIsRectangular |
| CounterPlot/Source/Components/TableView.cpp:279-296 | over the header strip but right of the last column, `cellAtPosition` returns row 0 with a column past the end, and `mouseDown` takes a reference to that column | a one-column table clicked at (200, 10): cell (0, 2), column index 1 out of range | header clicks off the columns change nothing | not executed | TableViews.HeaderClickPastLastColumn | TableViews.HeaderClickFixed |
| CounterPlot/Source/Components/TableView.cpp:146-153 | the wheel clamp's lower bound exceeds 0 when the table is shorter than the view, so the table is pushed down | the default model in a 100 px view with no scroll: offset 74 | clamp to [min(lowest offset, 0), 0] | not executed | TableViews.WheelScrollPushesShortTableDown | TableViews.WheelScrollFixed |
| Tools/colormaps.py:12 | channels are multiplied by 256 and truncated, so a channel of exactly 1.0 is written as 256, outside the reader's byte range | pure white: written "256 256 256", read back as black | multiply by 255 or clamp to 255 | not executed | ColourMapExport.WhiteReadsBackAsBlack | ColourMapExport.ClampedTableReadsBack |
