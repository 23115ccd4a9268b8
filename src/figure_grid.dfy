// The two-column figure grids of the jet-in-cloud and binary-torques views:
// an edit made in one figure is carried to the figures that share its row or
// its column, the figure at list position n sitting in row n / 2 and column
// n % 2 (C++ integer division and remainder).
module FigureGrids {
  import opened Numbers
  import opened Geometry
  import opened FigureModels

  /** The grid row of list position `n`. */
  function RowOf(n: int): int
  {
    CDiv(n, 2)
  }

  /** The grid column of list position `n`; -1 for the absent figure's position -1. */
  function ColumnOf(n: int): int
  {
    CMod(n, 2)
  }

  /** `mutateFigure`: the mutation applied to the event's figure only. */
  function MutateFigure<T>(figures: seq<T>, source: nat, mutation: T -> T): (r: seq<T>)
    requires source < |figures|
    ensures |r| == |figures| && r[source] == mutation(figures[source])
    ensures forall k :: 0 <= k < |r| && k != source ==> r[k] == figures[k]
  {
    figures[source := mutation(figures[source])]
  }

  /**
   * `mutateFiguresInRow`: every figure whose row is the source's row is
   * mutated, in list order; `source` is `figures.indexOf` of the event's
   * figure, -1 when it is not in the list.
   */
  method MutateFiguresInRow<T>(figures: seq<T>, source: int, mutation: T -> T) returns (r: seq<T>)
    ensures |r| == |figures|
    ensures forall k :: 0 <= k < |r| ==>
      r[k] == if RowOf(k) == RowOf(source) then mutation(figures[k]) else figures[k]
  {
    var sourceRow := CDiv(source, 2);
    r := figures;
    var n := 0;
    while n < |figures|
      invariant 0 <= n <= |figures| == |r|
      invariant forall k :: 0 <= k < n ==>
        r[k] == if RowOf(k) == RowOf(source) then mutation(figures[k]) else figures[k]
      invariant forall k :: n <= k < |r| ==> r[k] == figures[k]
    {
      if CDiv(n, 2) == sourceRow {
        r := r[n := mutation(r[n])];
      }
      n := n + 1;
    }
  }

  /** `mutateFiguresInCol`: every figure whose column is the source's column is mutated. */
  method MutateFiguresInColumn<T>(figures: seq<T>, source: int, mutation: T -> T) returns (r: seq<T>)
    ensures |r| == |figures|
    ensures forall k :: 0 <= k < |r| ==>
      r[k] == if ColumnOf(k) == ColumnOf(source) then mutation(figures[k]) else figures[k]
  {
    var sourceColumn := CMod(source, 2);
    r := figures;
    var n := 0;
    while n < |figures|
      invariant 0 <= n <= |figures| == |r|
      invariant forall k :: 0 <= k < n ==>
        r[k] == if ColumnOf(k) == ColumnOf(source) then mutation(figures[k]) else figures[k]
      invariant forall k :: n <= k < |r| ==> r[k] == figures[k]
    {
      if CMod(n, 2) == sourceColumn {
        r := r[n := mutation(r[n])];
      }
      n := n + 1;
    }
  }

  /** Two figures share a row exactly when their list positions are in the same pair. */
  lemma SameRowIffSamePair(a: nat, b: nat)
    ensures RowOf(a) == RowOf(b) <==> a / 2 == b / 2
    ensures ColumnOf(a) == ColumnOf(b) <==> a % 2 == b % 2
  {
  }

  /** An absent figure (position -1) shares row 0 with positions 0 and 1, but no column with anyone. */
  lemma AbsentFigure(k: nat)
    ensures RowOf(-1) == 0 && (RowOf(k) == RowOf(-1) <==> k < 2)
    ensures ColumnOf(k) != ColumnOf(-1)
  {
  }

  // ---------------------------------------------------------------------
  // The mutations the handlers apply

  function SetMargin(value: Border): FigureModel -> FigureModel
  {
    (m: FigureModel) => m.(margin := value)
  }

  function CopyTopAndBottom(value: Border): FigureModel -> FigureModel
  {
    (m: FigureModel) => m.(margin := m.margin.WithTop(value.top).WithBottom(value.bottom))
  }

  function CopyLeftAndRight(value: Border): FigureModel -> FigureModel
  {
    (m: FigureModel) => m.(margin := m.margin.WithLeft(value.left).WithRight(value.right))
  }

  function SetLimits(value: Domain): FigureModel -> FigureModel
  {
    (m: FigureModel) => m.(xmin := value.x, xmax := value.Right(), ymin := value.y, ymax := value.Bottom())
  }

  /**
   * The margin figure `k` ends with after `figureViewSetMargin` on the figure
   * at `source`: the whole margin for the source, then the top and bottom in
   * the source's row and the left and right in its column.
   */
  function PropagatedMargin(b: Border, k: nat, source: nat, value: Border): Border
  {
    var own := if k == source then value else b;
    var row := if RowOf(k) == RowOf(source) then own.WithTop(value.top).WithBottom(value.bottom) else own;
    if ColumnOf(k) == ColumnOf(source) then row.WithLeft(value.left).WithRight(value.right) else row
  }

  /** The source takes the whole margin; any other figure takes the row's or the column's sides of it. */
  lemma PropagatedMarginSides(b: Border, k: nat, source: nat, value: Border)
    ensures k == source ==> PropagatedMargin(b, k, source, value) == value
    ensures var r := PropagatedMargin(b, k, source, value);
      k != source ==>
        r.top == (if RowOf(k) == RowOf(source) then value.top else b.top) &&
        r.bottom == (if RowOf(k) == RowOf(source) then value.bottom else b.bottom) &&
        r.left == (if ColumnOf(k) == ColumnOf(source) then value.left else b.left) &&
        r.right == (if ColumnOf(k) == ColumnOf(source) then value.right else b.right)
  {
  }

  /** `figureViewSetMargin`: only margins change, each to its `PropagatedMargin`. */
  method PropagateMargin(figures: seq<FigureModel>, source: nat, value: Border) returns (r: seq<FigureModel>)
    requires source < |figures|
    ensures |r| == |figures|
    ensures forall k :: 0 <= k < |r| ==>
      r[k] == figures[k].(margin := PropagatedMargin(figures[k].margin, k, source, value))
  {
    var f1 := MutateFigure(figures, source, SetMargin(value));
    var f2 := MutateFiguresInRow(f1, source, CopyTopAndBottom(value));
    r := MutateFiguresInColumn(f2, source, CopyLeftAndRight(value));
    forall k | 0 <= k < |r|
      ensures r[k] == figures[k].(margin := PropagatedMargin(figures[k].margin, k, source, value))
    {
      MarginSteps(figures[k], f1[k], f2[k], r[k], k, source, value);
    }
  }

  /** The three mutations on one figure compose to `PropagatedMargin`. */
  lemma MarginSteps(m: FigureModel, m1: FigureModel, m2: FigureModel, m3: FigureModel, k: nat, source: nat, value: Border)
    requires m1 == if k == source then SetMargin(value)(m) else m
    requires m2 == if RowOf(k) == RowOf(source) then CopyTopAndBottom(value)(m1) else m1
    requires m3 == if ColumnOf(k) == ColumnOf(source) then CopyLeftAndRight(value)(m2) else m2
    ensures m3 == m.(margin := PropagatedMargin(m.margin, k, source, value))
  {
    var own := if k == source then value else m.margin;
    var row := if RowOf(k) == RowOf(source) then own.WithTop(value.top).WithBottom(value.bottom) else own;
    assert m1 == m.(margin := own);
    Remargined(m, own, row);
    assert m2 == m.(margin := row);
    Remargined(m, row, PropagatedMargin(m.margin, k, source, value));
  }

  /** Setting the margin twice is setting it to the second value. */
  lemma Remargined(m: FigureModel, a: Border, b: Border)
    ensures m.(margin := a).(margin := b) == m.(margin := b)
  {
  }

  /**
   * In a two-figure grid (main figure at 0, colour bar at 1) both figures
   * share a row and no column: the other figure takes the top and bottom and
   * keeps its left and right.
   */
  lemma TwoFigureMargins(b: Border, source: nat, value: Border)
    requires source < 2
    ensures PropagatedMargin(b, 1 - source, source, value) == b.WithTop(value.top).WithBottom(value.bottom)
  {
  }
}
