// The spreadsheet-like table view: column/row edge geometry, the cell under
// the mouse, header clicks that select columns or make one the abscissa, and
// vertical scrolling with the mouse wheel.
module TableViews {
  import opened Wrappers
  import opened Numbers
  import opened Geometry

  // ---------------------------------------------------------------------
  // The table model

  datatype SeriesType = IntType | DoubleType | TimeType | StringType

  /** One column: its name, its data of one of four types, and whether it is selected. */
  datatype Series = Series(
    name: string, kind: SeriesType,
    integerData: seq<int>, doubleData: seq<real>, timeData: seq<real>, stringData: seq<string>,
    selected: bool)

  /** `Series::size`: the length of the data array of the column's own type. */
  function Size(s: Series): (n: nat)
    ensures s.kind == DoubleType ==> n == |s.doubleData|
    ensures s.kind == IntType ==> n == |s.integerData|
  {
    match s.kind
    case IntType => |s.integerData|
    case DoubleType => |s.doubleData|
    case TimeType => |s.timeData|
    case StringType => |s.stringData|
  }

  datatype TableModel = TableModel(
    columns: seq<Series>, abscissa: int,
    columnWidth: int, rowHeight: int, headerHeight: int, gutterWidth: int)

  /** The field initialisers of `TableModel`. */
  const DefaultModel := TableModel([], 0, 100, 22, 26, 32)

  /** The longest column's length, 0 when there are no columns. */
  function MaxSize(columns: seq<Series>): nat
  {
    if |columns| == 0 then 0 else Max(MaxSize(columns[..|columns| - 1]), Size(columns[|columns| - 1]))
  }

  /** `MaxSize` is the maximum of the column lengths: no column is longer, and it is some column's length or 0. */
  lemma {:induction false} MaxSizeIsMax(columns: seq<Series>)
    ensures forall k :: 0 <= k < |columns| ==> Size(columns[k]) <= MaxSize(columns)
    ensures MaxSize(columns) == 0 || exists k :: 0 <= k < |columns| && Size(columns[k]) == MaxSize(columns)
    decreases |columns|
  {
    if |columns| > 0 {
      var n := |columns| - 1;
      MaxSizeIsMax(columns[..n]);
      assert forall k :: 0 <= k < n ==> columns[..n][k] == columns[k];
      if MaxSize(columns) != 0 && MaxSize(columns) != Size(columns[n]) {
        var k :| 0 <= k < n && Size(columns[..n][k]) == MaxSize(columns[..n]);
        assert Size(columns[k]) == MaxSize(columns);
      }
    }
  }

  /** `TableModel::maxRows`: a running `jmax` over the columns, from 0. */
  method MaxRows(m: TableModel) returns (max: int)
    ensures max == MaxSize(m.columns)
  {
    max := 0;
    var k := 0;
    while k < |m.columns|
      invariant 0 <= k <= |m.columns|
      invariant max == MaxSize(m.columns[..k])
    {
      assert m.columns[..k + 1][..k] == m.columns[..k];
      max := Max(max, Size(m.columns[k]));
      k := k + 1;
    }
    assert m.columns[..k] == m.columns;
  }

  // ---------------------------------------------------------------------
  // Geometry

  /** Column and row edges in table coordinates. */
  datatype TableGeometry = TableGeometry(colEdges: seq<int>, rowEdges: seq<int>)

  /**
   * `Geometry::getCellArea (i, j)`: the rectangle between edges i, i + 1 and
   * j, j + 1, or the empty rectangle when either pair is out of range.
   */
  function CellArea(g: TableGeometry, i: int, j: int): (r: Rect)
    ensures (i < 0 || i + 1 >= |g.rowEdges| || j < 0 || j + 1 >= |g.colEdges|) ==> r == Rect(0, 0, 0, 0)
    ensures 0 <= i && i + 1 < |g.rowEdges| && 0 <= j && j + 1 < |g.colEdges| ==>
      r.x == g.colEdges[j] && r.Right() == g.colEdges[j + 1] && r.y == g.rowEdges[i] && r.Bottom() == g.rowEdges[i + 1]
  {
    if i < 0 || i + 1 >= |g.rowEdges| || j < 0 || j + 1 >= |g.colEdges| then Rect(0, 0, 0, 0)
    else Rect(g.colEdges[j], g.rowEdges[i], g.colEdges[j + 1] - g.colEdges[j], g.rowEdges[i + 1] - g.rowEdges[i])
  }

  /** The edges `computeGeometry` lays down for a model with `rows` rows. */
  predicate IsGeometryOf(g: TableGeometry, m: TableModel, rows: nat)
  {
    |g.colEdges| == |m.columns| + 2 && g.colEdges[0] == 0
    && (forall j :: 1 <= j <= |m.columns| + 1 ==> g.colEdges[j] == (j - 1) * m.columnWidth + m.gutterWidth)
    && |g.rowEdges| == rows + 2 && g.rowEdges[0] == 0
    && (forall i :: 1 <= i <= rows + 1 ==> g.rowEdges[i] == (i - 1) * m.rowHeight + m.headerHeight)
  }

  /** `computeGeometry`: C + 2 column edges [0, g, g + w, ...] and R + 2 row edges [0, h, h + r, ...]. */
  method ComputeGeometry(m: TableModel) returns (g: TableGeometry)
    ensures IsGeometryOf(g, m, MaxSize(m.columns))
  {
    var colEdges := [0];
    var rowEdges := [0];
    var j := 0;
    while j < |m.columns| + 1
      invariant 0 <= j <= |m.columns| + 1
      invariant |colEdges| == j + 1 && colEdges[0] == 0
      invariant forall c :: 1 <= c <= j ==> colEdges[c] == (c - 1) * m.columnWidth + m.gutterWidth
    {
      colEdges := colEdges + [j * m.columnWidth + m.gutterWidth];
      j := j + 1;
    }
    var rows := MaxRows(m);
    var i := 0;
    while i < rows + 1
      invariant 0 <= i <= rows + 1
      invariant |rowEdges| == i + 1 && rowEdges[0] == 0
      invariant forall r :: 1 <= r <= i ==> rowEdges[r] == (r - 1) * m.rowHeight + m.headerHeight
    {
      rowEdges := rowEdges + [i * m.rowHeight + m.headerHeight];
      i := i + 1;
    }
    g := TableGeometry(colEdges, rowEdges);
  }

  /**
   * The cells of the computed geometry: data cell (i, j), both from 1, is a
   * columnWidth x rowHeight box right of the gutter and under the header;
   * column 0 is the gutter and row 0 the header; the row after the last is empty.
   */
  lemma CellsOfGeometry(g: TableGeometry, m: TableModel, rows: nat, i: int, j: int)
    requires IsGeometryOf(g, m, rows)
    ensures 1 <= i <= rows && 1 <= j <= |m.columns| ==>
      CellArea(g, i, j) == Rect(m.gutterWidth + (j - 1) * m.columnWidth, m.headerHeight + (i - 1) * m.rowHeight, m.columnWidth, m.rowHeight)
    ensures 1 <= i <= rows ==> CellArea(g, i, 0) == Rect(0, m.headerHeight + (i - 1) * m.rowHeight, m.gutterWidth, m.rowHeight)
    ensures 1 <= j <= |m.columns| ==> CellArea(g, 0, j) == Rect(m.gutterWidth + (j - 1) * m.columnWidth, 0, m.columnWidth, m.headerHeight)
    ensures CellArea(g, rows + 1, j) == Rect(0, 0, 0, 0)
  {
    if 1 <= i <= rows {
      assert g.rowEdges[i + 1] - g.rowEdges[i] == m.rowHeight by {
        assert i * m.rowHeight == (i - 1) * m.rowHeight + m.rowHeight;
      }
    }
    if 1 <= j <= |m.columns| {
      assert g.colEdges[j + 1] - g.colEdges[j] == m.columnWidth by {
        assert j * m.columnWidth == (j - 1) * m.columnWidth + m.columnWidth;
      }
    }
  }

  // ---------------------------------------------------------------------
  // Points and cells

  /** `Cell {row, col}`; row 0 is the header and column 0 the gutter. */
  datatype Cell = Cell(row: int, col: int)

  const NoCell := Cell(-1, -1)

  function TableToComponent(p: Point, upperLeft: Point): Point
  {
    Point(p.x + upperLeft.x, p.y + upperLeft.y)
  }

  function ComponentToTable(p: Point, upperLeft: Point): Point
  {
    Point(p.x - upperLeft.x, p.y - upperLeft.y)
  }

  /** The two translations undo each other, in both orders. */
  lemma TranslationsInverse(p: Point, upperLeft: Point)
    ensures ComponentToTable(TableToComponent(p, upperLeft), upperLeft) == p
    ensures TableToComponent(ComponentToTable(p, upperLeft), upperLeft) == p
  {
  }

  predicate Sized(m: TableModel)
  {
    m.columnWidth > 0 && m.rowHeight > 0
  }

  /** The header column under x: `1 + (x - gutterWidth) / columnWidth`, truncated to int. */
  function HeaderColumn(m: TableModel, pos: Point): int
    requires Sized(m)
  {
    Trunc(1.0 + (pos.x - m.gutterWidth as real) / m.columnWidth as real)
  }

  /** The data cell under a point: table coordinates divided into rows and columns from 1. */
  function DataCell(m: TableModel, upperLeft: Point, pos: Point): Cell
    requires Sized(m)
  {
    var t := ComponentToTable(pos, upperLeft);
    Cell(Trunc(1.0 + (t.y - m.headerHeight as real) / m.rowHeight as real),
         Trunc(1.0 + (t.x - m.gutterWidth as real) / m.columnWidth as real))
  }

  /** `cellAtPosition`: {0, col} over the header of a real column, else the data cell. */
  function CellAt(m: TableModel, upperLeft: Point, pos: Point): (c: Cell)
    requires Sized(m)
    ensures pos.y < m.headerHeight as real && 1 <= HeaderColumn(m, pos) <= |m.columns| ==>
      c == Cell(0, HeaderColumn(m, pos))
    ensures !(pos.y < m.headerHeight as real && 1 <= HeaderColumn(m, pos) <= |m.columns|) ==>
      c == DataCell(m, upperLeft, pos)
  {
    var col := HeaderColumn(m, pos);
    if pos.y < m.headerHeight as real && 1 <= col && col <= |m.columns| then Cell(0, col)
    else DataCell(m, upperLeft, pos)
  }

  /** Truncating `1 + v / size` for v >= 0 numbers the band of width `size` holding v, from 1. */
  lemma Band(v: real, size: int)
    requires size > 0 && v >= 0.0
    ensures var n := Trunc(1.0 + v / size as real);
      n >= 1 && ((n - 1) * size) as real <= v < (n * size) as real
  {
    var s := size as real;
    var q := v / s;
    var n := Trunc(1.0 + q);
    DivTimes(v, s);
    ScaleBounds((n - 1) as real, q, n as real, s);
    CastProduct(n - 1, size);
    CastProduct(n, size);
    assert q < n as real;
    assert q * s < n as real * s;
    assert v < n as real * s;
    assert v < (n * size) as real;
  }

  lemma DivTimes(v: real, s: real)
    requires s > 0.0 && v >= 0.0
    ensures v / s >= 0.0 && v / s * s == v
  {
  }

  /** Multiplying by a positive number keeps the order. */
  lemma ScaleBounds(lo: real, q: real, hi: real, s: real)
    requires s > 0.0 && lo <= q < hi
    ensures lo * s <= q * s < hi * s
  {
  }

  lemma CastProduct(a: int, b: int)
    ensures (a * b) as real == a as real * b as real
  {
  }

  /**
   * Below the header and right of the gutter (in table coordinates), the data
   * cell returned is the one whose box contains the point.
   */
  lemma DataCellContainsPoint(m: TableModel, upperLeft: Point, pos: Point)
    requires Sized(m)
    requires pos.y - upperLeft.y >= m.headerHeight as real && pos.x - upperLeft.x >= m.gutterWidth as real
    ensures var c := DataCell(m, upperLeft, pos);
      c.row >= 1 && c.col >= 1
      && (m.headerHeight + (c.row - 1) * m.rowHeight) as real <= pos.y - upperLeft.y < (m.headerHeight + c.row * m.rowHeight) as real
      && (m.gutterWidth + (c.col - 1) * m.columnWidth) as real <= pos.x - upperLeft.x < (m.gutterWidth + c.col * m.columnWidth) as real
  {
    Band(pos.y - upperLeft.y - m.headerHeight as real, m.rowHeight);
    Band(pos.x - upperLeft.x - m.gutterWidth as real, m.columnWidth);
  }

  // ---------------------------------------------------------------------
  // Header clicks

  /** The popup menu's items: 1 "Make Column Abscissa", 2 "Select/Unselect Column"; 0 is a dismissed menu. */
  const MakeAbscissaItem := 1
  const ToggleSelectionItem := 2

  function Toggled(columns: seq<Series>, k: nat): (r: seq<Series>)
    requires k < |columns|
    ensures |r| == |columns| && r[k].selected == !columns[k].selected
    ensures forall i :: 0 <= i < |r| && i != k ==> r[i] == columns[i]
  {
    columns[k := columns[k].(selected := !columns[k].selected)]
  }

  /**
   * `mouseDown` as written: on the header (row 0) of any column other than the
   * abscissa it takes `columns.getReference (col - 1)` without checking that
   * the column exists; `Err` stands for that out-of-range access.
   */
  function HeaderClick(m: TableModel, over: Cell, isPopupMenu: bool, choice: int): (r: Result<TableModel>)
    ensures r.Err? <==> over.row == 0 && over.col != m.abscissa && !(1 <= over.col <= |m.columns|)
  {
    if over.row == 0 && over.col != m.abscissa then
      var k := over.col - 1;
      if !(0 <= k < |m.columns|) then Err("column index out of range")
      else if !isPopupMenu || choice == ToggleSelectionItem then Ok(m.(columns := Toggled(m.columns, k)))
      else if choice == MakeAbscissaItem then
        Ok(m.(abscissa := over.col, columns := m.columns[k := m.columns[k].(selected := false)]))
      else Ok(m)
    else Ok(m)
  }

  /** The click handling with the missing range check added: clicks off the columns change nothing. */
  function HeaderClickFixed(m: TableModel, over: Cell, isPopupMenu: bool, choice: int): (r: TableModel)
    ensures !(over.row == 0 && over.col != m.abscissa && !(1 <= over.col <= |m.columns|)) ==>
      r == HeaderClick(m, over, isPopupMenu, choice).value
  {
    if over.row == 0 && over.col != m.abscissa && !(1 <= over.col <= |m.columns|) then m
    else HeaderClick(m, over, isPopupMenu, choice).value
  }

  /**
   * A plain click on a header toggles that column's selection and nothing else;
   * "Make Column Abscissa" makes it the abscissa and unselects it.
   */
  lemma HeaderClickEffects(m: TableModel, over: Cell, isPopupMenu: bool, choice: int)
    requires over.row == 0 && over.col != m.abscissa && 1 <= over.col <= |m.columns|
    ensures var r := HeaderClickFixed(m, over, isPopupMenu, choice);
      var k := over.col - 1;
      |r.columns| == |m.columns|
      && (forall i :: 0 <= i < |m.columns| && i != k ==> r.columns[i] == m.columns[i])
      && (!isPopupMenu ==> r.columns[k].selected == !m.columns[k].selected && r.abscissa == m.abscissa)
      && (isPopupMenu && choice == MakeAbscissaItem ==> !r.columns[k].selected && r.abscissa == over.col)
  {
  }

  /** Two plain clicks on the same header cell restore the model. */
  lemma PlainClickTwice(m: TableModel, over: Cell)
    ensures var once := HeaderClickFixed(m, over, false, 0);
      HeaderClickFixed(once, over, false, 0) == m
  {
    var once := HeaderClickFixed(m, over, false, 0);
    if over.row == 0 && over.col != m.abscissa && 1 <= over.col <= |m.columns| {
      var k := over.col - 1;
      assert Toggled(once.columns, k) == m.columns;
    }
  }

  /**
   * Over the header strip but right of the only column, `cellAtPosition`
   * falls through to the data-cell formula, which gives row 0 and column 2;
   * `mouseDown` then reaches for column index 1 of a one-column table.
   */
  lemma HeaderClickPastLastColumn(s: Series)
    ensures var m := DefaultModel.(columns := [s]);
      var over := CellAt(m, Point(0.0, 0.0), Point(200.0, 10.0));
      over == Cell(0, 2) && HeaderClick(m, over, false, 0).Err?
  {
    var m := DefaultModel.(columns := [s]);
    assert HeaderColumn(m, Point(200.0, 10.0)) == 2;
    var d := DataCell(m, Point(0.0, 0.0), Point(200.0, 10.0));
    assert 1.0 + (10.0 - 26.0) / 22.0 == 6.0 / 22.0;
    assert d.row == 0;
  }

  /** With the range check, a click never changes the number of columns or touches a column other than the clicked one. */
  lemma HeaderClickFixedKeepsColumns(m: TableModel, over: Cell, isPopupMenu: bool, choice: int)
    ensures var r := HeaderClickFixed(m, over, isPopupMenu, choice);
      |r.columns| == |m.columns|
      && forall i :: 0 <= i < |m.columns| && i != over.col - 1 ==> r.columns[i] == m.columns[i]
  {
  }

  // ---------------------------------------------------------------------
  // Scrolling

  /** `jlimit (lo, hi, v)` on floats, as JUCE defines it (it only asserts lo <= hi). */
  function Limit(lo: real, hi: real, v: real): (r: real)
    ensures lo <= hi ==> lo <= r <= hi
    ensures lo <= v <= hi ==> r == v
  {
    if v < lo then lo else if hi < v then hi else v
  }

  /** The lowest scroll offset: the table's bottom at the view's bottom. */
  function LowestOffset(m: TableModel, height: int): int
  {
    -(MaxSize(m.columns) as int) * m.rowHeight - m.headerHeight + height
  }

  /** `mouseWheelMove` as written: move by deltaY view heights, then clamp to [ymin, 0]. */
  function WheelScroll(m: TableModel, height: int, y: real, deltaY: real): (r: real)
    ensures LowestOffset(m, height) <= 0 ==> LowestOffset(m, height) as real <= r <= 0.0
    ensures LowestOffset(m, height) > 0 ==> r == LowestOffset(m, height) as real || r == 0.0
    ensures LowestOffset(m, height) as real <= y + deltaY * height as real <= 0.0 ==> r == y + deltaY * height as real
  {
    Limit(LowestOffset(m, height) as real, 0.0, y + deltaY * height as real)
  }

  /** When the whole table fits in the view, ymin is above 0 and the "clamp" pushes the table down by ymin. */
  lemma WheelScrollPushesShortTableDown()
    ensures WheelScroll(DefaultModel, 100, 0.0, 0.0) == 74.0
  {
    assert LowestOffset(DefaultModel, 100) == 74;
  }

  /** The evidently intended clamp: never above 0, never below the lowest useful offset. */
  function WheelScrollFixed(m: TableModel, height: int, y: real, deltaY: real): (r: real)
    ensures Min(LowestOffset(m, height), 0) as real <= r <= 0.0
    ensures LowestOffset(m, height) <= 0 ==> r == WheelScroll(m, height, y, deltaY)
  {
    Limit(Min(LowestOffset(m, height), 0) as real, 0.0, y + deltaY * height as real)
  }

  // ---------------------------------------------------------------------
  // The component

  /** `Array<int>::operator[]`: out-of-range indices give 0. */
  function EdgeAt(edges: seq<int>, k: int): int
  {
    if 0 <= k < |edges| then edges[k] else 0
  }

  class TableView {
    var model: TableModel
    var upperLeftOfTable: Point
    var mouseOverCell: Cell
    var height: int

    predicate Valid()
      reads this
    {
      Sized(model)
    }

    constructor (height: int)
      ensures model == DefaultModel && upperLeftOfTable == Point(0.0, 0.0) && this.height == height
      ensures Valid()
    {
      model := DefaultModel;
      upperLeftOfTable := Point(0.0, 0.0);
      mouseOverCell := NoCell;
      this.height := height;
    }

    method SetModel(newModel: TableModel)
      requires Sized(newModel)
      modifies this
      ensures model == newModel && Valid()
      ensures upperLeftOfTable == old(upperLeftOfTable) && mouseOverCell == old(mouseOverCell) && height == old(height)
    {
      model := newModel;
    }

    method MouseMove(pos: Point)
      requires Valid()
      modifies this
      ensures model == old(model) && upperLeftOfTable == old(upperLeftOfTable) && height == old(height)
      ensures mouseOverCell == CellAt(model, upperLeftOfTable, pos)
    {
      mouseOverCell := CellAt(model, upperLeftOfTable, pos);
    }

    method MouseExit()
      modifies this
      ensures mouseOverCell == NoCell
      ensures model == old(model) && upperLeftOfTable == old(upperLeftOfTable) && height == old(height)
    {
      mouseOverCell := NoCell;
    }

    /** A click on the cell under the mouse; `choice` is the popup menu's result. */
    method MouseDown(isPopupMenu: bool, choice: int)
      requires Valid()
      modifies this
      ensures model == HeaderClickFixed(old(model), mouseOverCell, isPopupMenu, choice) && Valid()
      ensures mouseOverCell == old(mouseOverCell) && upperLeftOfTable == old(upperLeftOfTable) && height == old(height)
    {
      if mouseOverCell.row == 0 && mouseOverCell.col != model.abscissa && 1 <= mouseOverCell.col <= |model.columns| {
        var k := mouseOverCell.col - 1;
        var column := model.columns[k];
        if isPopupMenu {
          if choice == MakeAbscissaItem {
            model := model.(abscissa := mouseOverCell.col, columns := model.columns[k := column.(selected := false)]);
          } else if choice == ToggleSelectionItem {
            model := model.(columns := model.columns[k := column.(selected := !column.selected)]);
          }
        } else {
          model := model.(columns := model.columns[k := column.(selected := !column.selected)]);
        }
      }
    }

    /**
     * `mouseWheelMove`, as written: the offset follows `WheelScroll`, so a
     * table shorter than the view is pushed down (see
     * `WheelScrollPushesShortTableDown`); the hovered cell is recomputed.
     */
    method MouseWheelMove(pos: Point, deltaY: real)
      requires Valid()
      modifies this
      ensures model == old(model) && height == old(height)
      ensures upperLeftOfTable == old(upperLeftOfTable).(y := WheelScroll(model, height, old(upperLeftOfTable).y, deltaY))
      ensures mouseOverCell == CellAt(model, upperLeftOfTable, pos)
    {
      var y := WheelScroll(model, height, upperLeftOfTable.y, deltaY);
      upperLeftOfTable := upperLeftOfTable.(y := y);
      mouseOverCell := CellAt(model, upperLeftOfTable, pos);
    }

    /** `isRowOnscreen`: data row `row` (from 0) overlaps the view vertically. */
    function IsRowOnscreen(row: int, g: TableGeometry): bool
      reads this
    {
      var y0 := EdgeAt(g.rowEdges, row + 1) as real + upperLeftOfTable.y;
      var y1 := EdgeAt(g.rowEdges, row + 2) as real + upperLeftOfTable.y;
      y1 > 0.0 && y0 < height as real
    }
  }

  /**
   * On the computed geometry, data row `row` is on screen exactly when its
   * band, shifted by the scroll offset, overlaps (0, height).
   */
  lemma RowOnscreenBand(view: TableView, g: TableGeometry, rows: nat, row: int)
    requires IsGeometryOf(g, view.model, rows) && 0 <= row < rows
    ensures view.IsRowOnscreen(row, g) <==>
      (view.model.headerHeight + (row + 1) * view.model.rowHeight) as real + view.upperLeftOfTable.y > 0.0
      && (view.model.headerHeight + row * view.model.rowHeight) as real + view.upperLeftOfTable.y < view.height as real
  {
    assert g.rowEdges[row + 1] == row * view.model.rowHeight + view.model.headerHeight;
    assert g.rowEdges[row + 2] == (row + 1) * view.model.rowHeight + view.model.headerHeight;
  }
}
