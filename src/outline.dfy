// PatchView's outline view: a nested `var` of strings and arrays flattened
// into numbered, indented rows, and the rows the mouse is over or has
// selected.
module Outlines {
  import opened Vars
  import opened Numbers
  import Text

  /** The height of one row and the indent of one level, in pixels. */
  const RowHeight := 22
  const Indent := 12

  /** One row of the outline: the string shown, its row number and its depth. */
  datatype OutlineItem = OutlineItem(data: Var, row: int, level: int)

  // ---------------------------------------------------------------------
  // The reference: the string leaves, depth first, with their depth

  /** The strings of `v`, left to right, each with the number of arrays around it plus `level`. */
  function Leaves(v: Var, level: int): seq<(Var, int)>
    decreases v, 1, 0
  {
    if v.List? then LeavesUpTo(v, |v.items|, level + 1)
    else if v.Str? then [(v, level)]
    else []
  }

  /** The leaves of the first `n` children of the array `p`. */
  function LeavesUpTo(p: Var, n: nat, level: int): seq<(Var, int)>
    requires p.List? && n <= |p.items|
    decreases p, 0, n
  {
    if n == 0 then []
    else LeavesUpTo(p, n - 1, level) + Leaves(p.items[n - 1], level)
  }

  /** The leaves numbered in order, from `start`. */
  function Numbered(leaves: seq<(Var, int)>, start: int): (r: seq<OutlineItem>)
    ensures |r| == |leaves|
    ensures forall k :: 0 <= k < |r| ==> r[k] == OutlineItem(leaves[k].0, start + k, leaves[k].1)
  {
    seq(|leaves|, k requires 0 <= k < |leaves| => OutlineItem(leaves[k].0, start + k, leaves[k].1))
  }

  /** Only strings are leaves. */
  lemma {:induction false} LeavesAreStrings(v: Var, level: int)
    ensures forall e :: e in Leaves(v, level) ==> e.0.Str?
    decreases v, 1, 0
  {
    if v.List? {
      LeavesUpToAreStrings(v, |v.items|, level + 1);
    }
  }

  lemma {:induction false} LeavesUpToAreStrings(p: Var, n: nat, level: int)
    requires p.List? && n <= |p.items|
    ensures forall e :: e in LeavesUpTo(p, n, level) ==> e.0.Str?
    decreases p, 0, n
  {
    if n > 0 {
      LeavesUpToAreStrings(p, n - 1, level);
      LeavesAreStrings(p.items[n - 1], level);
    }
  }

  // ---------------------------------------------------------------------
  // generateOutline

  /**
   * `generateOutline (data, items, level)`: appends the rows of `data` to
   * `items`, each numbered by the size of `items` when it is added. The
   * JUCE array passed by reference is threaded through as a value.
   */
  method GenerateOutlineInto(data: Var, items: seq<OutlineItem>, level: int) returns (res: seq<OutlineItem>)
    ensures res == items + Numbered(Leaves(data, level), |items|)
    decreases data, 1
  {
    if data.List? {
      res := items;
      var i := 0;
      while i < |data.items|
        invariant i <= |data.items|
        invariant res == items + Numbered(LeavesUpTo(data, i, level + 1), |items|)
      {
        res := GenerateOutlineInto(data.items[i], res, level + 1);
        NumberedAppend(LeavesUpTo(data, i, level + 1), Leaves(data.items[i], level + 1), |items|);
        i := i + 1;
      }
    } else if data.Str? {
      res := items + [OutlineItem(data, |items|, level)];
    } else {
      // any other kind is a programming error the source only asserts against
      res := items;
    }
  }

  /** Numbering two runs of leaves in turn numbers their concatenation. */
  lemma NumberedAppend(a: seq<(Var, int)>, b: seq<(Var, int)>, start: int)
    ensures Numbered(a + b, start) == Numbered(a, start) + Numbered(b, start + |a|)
  {
    var l, r := Numbered(a + b, start), Numbered(a, start) + Numbered(b, start + |a|);
    assert |l| == |r|;
    forall k | 0 <= k < |l|
      ensures l[k] == r[k]
    {
      if k >= |a| {
        assert (a + b)[k] == b[k - |a|];
      }
    }
  }

  /**
   * `generateOutline (root)`: one row per string of `root`, depth first,
   * numbered 0, 1, …, at the depth of the arrays around it.
   */
  method GenerateOutline(root: Var) returns (items: seq<OutlineItem>)
    ensures items == Numbered(Leaves(root, 0), 0)
    ensures forall k :: 0 <= k < |items| ==> items[k].row == k && items[k].data.Str?
  {
    items := GenerateOutlineInto(root, [], 0);
    LeavesAreStrings(root, 0);
    forall k | 0 <= k < |items|
      ensures items[k].data.Str?
    {
      assert Leaves(root, 0)[k] in Leaves(root, 0);
    }
  }

  // ---------------------------------------------------------------------
  // The view

  /** The string the constructor puts at index `n` when it is not an array. */
  function ObjectName(n: int): string
  {
    "Object" + Text.IntToString(n)
  }

  /** The array the constructor puts at every fourth index. */
  const ChildNode: Var := List([Str("Child 1"), Str("Child 2"), Str("Child 3")])

  /** The constructor's model: 20 entries, every fourth of them a three-string array. */
  function ModelEntry(n: nat): Var
  {
    if n % 4 == 0 then ChildNode else Str(ObjectName(n))
  }

  /** A string entry is one row, an array entry three. */
  lemma EntryLeaves(n: nat)
    ensures |Leaves(ModelEntry(n), 1)| == if n % 4 == 0 then 3 else 1
  {
    if n % 4 == 0 {
      assert |LeavesUpTo(ChildNode, 1, 2)| == 1;
      assert |LeavesUpTo(ChildNode, 2, 2)| == 2;
    }
  }

  /** One more multiple of 4 below `m + 1` than below `m` exactly when `m` is one. */
  lemma MultiplesStep(m: nat)
    ensures (m + 4) / 4 == (m + 3) / 4 + (if m % 4 == 0 then 1 else 0)
  {
  }

  /** Counting the leaves of the first `n` model entries: one per string, three per array. */
  lemma {:induction false} ModelLeavesUpTo(entries: seq<Var>, n: nat)
    requires n <= |entries|
    requires forall k :: 0 <= k < |entries| ==> entries[k] == ModelEntry(k)
    ensures |LeavesUpTo(List(entries), n, 1)| == n + 2 * ((n + 3) / 4)
  {
    if n > 0 {
      ModelLeavesUpTo(entries, n - 1);
      assert List(entries).items[n - 1] == ModelEntry(n - 1);
      EntryLeaves(n - 1);
      MultiplesStep(n - 1);
    }
  }

  /** The constructor's model has exactly 30 rows: fifteen strings and five arrays of three. */
  lemma ModelHasThirtyRows(entries: seq<Var>)
    requires |entries| == 20
    requires forall k :: 0 <= k < |entries| ==> entries[k] == ModelEntry(k)
    ensures |Numbered(Leaves(List(entries), 0), 0)| == 30
  {
    ModelLeavesUpTo(entries, 20);
  }

  /** The row a vertical position falls in: the float quotient truncated toward zero. */
  function RowAt(y: real): int
  {
    Trunc(y / RowHeight as real)
  }

  /** JUCE's `Array::operator[]`: the item at `i`, or a default item (holding void) when `i` is out of range. */
  function ItemAt(items: seq<OutlineItem>, i: int): (item: OutlineItem)
    ensures !(0 <= i < |items|) ==> item.data == Void
  {
    if 0 <= i < |items| then items[i] else OutlineItem(Void, 0, 0)
  }

  class OutlineView {
    var model: Var
    var mouseOverRow: int
    var selectedRow: int

    /** The view starts with the 20-entry model and no row under the mouse or selected. */
    constructor ()
      ensures model.List? && |model.items| == 20
      ensures forall k :: 0 <= k < 20 ==> model.items[k] == ModelEntry(k)
      ensures mouseOverRow == -1 && selectedRow == -1
    {
      mouseOverRow := -1;
      selectedRow := -1;
      var entries: seq<Var> := [];
      for n := 0 to 20
        invariant |entries| == n
        invariant forall k :: 0 <= k < n ==> entries[k] == ModelEntry(k)
      {
        if n % 4 == 0 {
          var node := List([Str("Child 1"), Str("Child 2"), Str("Child 3")]);
          entries := entries + [node];
        } else {
          entries := entries + [Str(ObjectName(n))];
        }
      }
      model := List(entries);
    }

    /** `mouseMove`: the row under the mouse becomes the hovered row. */
    method MouseMove(y: real)
      modifies this
      ensures mouseOverRow == RowAt(y)
      ensures model == old(model) && selectedRow == old(selectedRow)
    {
      mouseOverRow := RowAt(y);
    }

    /** `mouseExit`: no row is hovered. */
    method MouseExit()
      modifies this
      ensures mouseOverRow == -1
      ensures model == old(model) && selectedRow == old(selectedRow)
    {
      mouseOverRow := -1;
    }

    /**
     * `mouseDown`: the row under the mouse becomes the selected row. The
     * reset to -1 for an array item never happens, because the outline holds
     * only strings and an index past its end reads a void item; so the
     * selection is the row even below the last one.
     */
    method MouseDown(y: real)
      modifies this
      ensures selectedRow == RowAt(y)
      ensures model == old(model) && mouseOverRow == old(mouseOverRow)
    {
      var row := RowAt(y);
      var items := GenerateOutline(model);
      selectedRow := if ItemAt(items, row).data.List? then -1 else row;
    }
  }
}
