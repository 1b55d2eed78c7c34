/** The step grid of the vanilla sequencer: one row of boolean cells per sound,
    `steps` cells per row. */
module StepGrid {

  /** The six sounds, one grid row each, in display order. */
  const Sounds: seq<string> := ["Kick", "Snare", "Hi-Hat", "Crash", "Toms", "Clap"]

  type Grid = seq<seq<bool>>

  /** One row per sound and exactly `steps` cells in every row. */
  predicate WellFormed(g: Grid, steps: nat) {
    |g| == |Sounds| && forall r :: 0 <= r < |g| ==> |g[r]| == steps
  }

  /** A cell as the scheduler reads it: an index outside the grid yields `undefined`,
      which is falsy, so it reads as an inactive cell. */
  predicate Cell(g: Grid, row: int, col: int) {
    0 <= row < |g| && 0 <= col < |g[row]| && g[row][col]
  }

  /** A fresh row of `steps` inactive cells (`new Array(steps).fill(false)`). */
  function EmptyRow(steps: nat): (row: seq<bool>)
    ensures |row| == steps && forall i :: 0 <= i < steps ==> !row[i]
  {
    seq(steps, _ => false)
  }

  /** The row that replaces `oldRow` when the grid is rebuilt with `steps` columns. */
  function ResizedRow(oldRow: seq<bool>, steps: nat): (row: seq<bool>)
    ensures |row| == steps
  {
    seq(steps, i requires 0 <= i < steps => i < |oldRow| && oldRow[i])
  }

  /** The grid after a rebuild: a row that existed keeps the cells that still fit,
      a row that did not exist (the very first build) starts empty. */
  function Resized(oldGrid: Grid, steps: nat): (g: Grid)
    ensures WellFormed(g, steps)
  {
    seq(|Sounds|, r requires 0 <= r < |Sounds| =>
      if r < |oldGrid| then ResizedRow(oldGrid[r], steps) else EmptyRow(steps))
  }

  /** A rebuild keeps every old cell that still fits and makes every other cell inactive. */
  lemma ResizedCells(oldGrid: Grid, steps: nat)
    ensures forall r, c :: 0 <= r < |Sounds| && 0 <= c < steps ==>
      (Resized(oldGrid, steps)[r][c] <==> Cell(oldGrid, r, c))
  {
    var g := Resized(oldGrid, steps);
    forall r, c | 0 <= r < |Sounds| && 0 <= c < steps
      ensures g[r][c] <==> Cell(oldGrid, r, c)
    {
      if r < |oldGrid| {
        assert g[r] == ResizedRow(oldGrid[r], steps);
      } else {
        assert g[r] == EmptyRow(steps);
      }
    }
  }

  /** Rebuilding a grid at the step count it already has changes nothing. */
  lemma ResizedSameSteps(g: Grid, steps: nat)
    requires WellFormed(g, steps)
    ensures Resized(g, steps) == g
  {
    var h := Resized(g, steps);
    forall r | 0 <= r < |Sounds|
      ensures h[r] == g[r]
    {
      assert |h[r]| == |g[r]|;
      forall c | 0 <= c < steps
        ensures h[r][c] == g[r][c]
      {
        assert h[r] == ResizedRow(g[r], steps);
      }
    }
  }

  /** The index-copy loop of one row: fill with false, then copy the cells below
      `min(steps, |oldRow|)`. */
  method CopyRow(oldRow: seq<bool>, steps: nat) returns (newRow: seq<bool>)
    ensures |newRow| == steps
    ensures forall i :: 0 <= i < steps && i < |oldRow| ==> newRow[i] == oldRow[i]
    ensures forall i :: |oldRow| <= i < steps ==> !newRow[i]
    ensures newRow == ResizedRow(oldRow, steps)
  {
    newRow := EmptyRow(steps);
    var i := 0;
    while i < if steps < |oldRow| then steps else |oldRow|
      invariant 0 <= i <= steps && i <= |oldRow|
      invariant |newRow| == steps
      invariant forall k :: 0 <= k < i ==> newRow[k] == oldRow[k]
      invariant forall k :: i <= k < steps ==> !newRow[k]
    {
      newRow := newRow[i := oldRow[i]];
      i := i + 1;
    }
    assert forall k :: 0 <= k < steps ==> newRow[k] == ResizedRow(oldRow, steps)[k];
  }

  /** The grid rebuild: one row per sound, copied from the old row when there was one. */
  method RebuildGrid(oldGrid: Grid, steps: nat) returns (g: Grid)
    ensures g == Resized(oldGrid, steps)
  {
    g := [];
    var r := 0;
    while r < |Sounds|
      invariant 0 <= r <= |Sounds|
      invariant g == Resized(oldGrid, steps)[..r]
    {
      var row;
      if r < |oldGrid| {
        row := CopyRow(oldGrid[r], steps);
      } else {
        row := EmptyRow(steps);
      }
      g := g + [row];
      r := r + 1;
    }
  }

  /** The clear button: every cell inactive, dimensions unchanged. */
  function Cleared(g: Grid): (h: Grid)
    ensures |h| == |g|
    ensures forall r :: 0 <= r < |g| ==> |h[r]| == |g[r]| && forall c :: 0 <= c < |g[r]| ==> !h[r][c]
  {
    seq(|g|, r requires 0 <= r < |g| => EmptyRow(|g[r]|))
  }

  /** A click on a cell: that cell flips, every other cell and every row length stays. */
  function Toggled(g: Grid, row: nat, col: nat): (h: Grid)
    requires row < |g| && col < |g[row]|
    ensures |h| == |g| && forall r :: 0 <= r < |g| ==> |h[r]| == |g[r]|
    ensures h[row][col] == !g[row][col]
    ensures forall r, c :: 0 <= r < |g| && 0 <= c < |g[r]| && (r, c) != (row, col) ==> h[r][c] == g[r][c]
  {
    g[row := g[row][col := !g[row][col]]]
  }
}
