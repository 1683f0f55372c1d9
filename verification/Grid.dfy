/** Semantic grid states and the patches between them (diffGridState.ts, applyGridPatch.ts). */
module Grids {
  import opened Basics

  datatype Cell = Cell(styleId: nat, text: string, width: nat, x: nat)

  /** `Hole` is the unset element an out-of-range patch index leaves in a JavaScript array. */
  datatype Row = Row(cells: seq<Cell>, wrapped: bool) | Hole

  datatype Cursor = Cursor(visible: bool, x: nat, y: nat)

  datatype Grid = Grid(
    cols: nat,
    covers: nat,
    cursor: Option<Cursor>,
    palette: seq<string>,
    revision: nat,
    rows: seq<Row>,
    startRow: nat,
    styles: seq<string>,
    title: string,
    totalRows: nat)

  datatype Patch = Patch(
    baseRevision: nat,
    cols: nat,
    covers: nat,
    cursor: Option<Cursor>,
    palette: seq<string>,
    revision: nat,
    rows: seq<(int, Row)>,
    startRow: nat,
    styles: seq<string>,
    title: string,
    totalRows: nat)

  /** A patch can only describe two states of the same shape. */
  predicate SameShape(previous: Grid, next: Grid) {
    previous.cols == next.cols && |previous.rows| == |next.rows| && previous.startRow == next.startRow
  }

  /** The rows at `from` and later that differ, with their indices, in order. */
  function ChangedRows(previous: seq<Row>, next: seq<Row>, from: nat): seq<(int, Row)>
    requires |previous| == |next|
    requires from <= |next|
    decreases |next| - from
  {
    if from == |next| then []
    else if previous[from] != next[from] then [(from, next[from])] + ChangedRows(previous, next, from + 1)
    else ChangedRows(previous, next, from + 1)
  }

  function PatchHeader(previous: Grid, next: Grid, rows: seq<(int, Row)>): Patch {
    Patch(previous.revision, next.cols, next.covers, next.cursor, next.palette, next.revision, rows,
          next.startRow, next.styles, next.title, next.totalRows)
  }

  function Diff(previous: Grid, next: Grid): Option<Patch> {
    if SameShape(previous, next)
    then Some(PatchHeader(previous, next, ChangedRows(previous.rows, next.rows, 0)))
    else None
  }

  /** Assignment to a JavaScript array element: a later index leaves holes, a negative one is no element. */
  function SetRow(rows: seq<Row>, index: int, row: Row): seq<Row> {
    if index < 0 then rows
    else if index < |rows| then rows[index := row]
    else rows + seq(index - |rows|, _ => Hole) + [row]
  }

  function SetRows(rows: seq<Row>, changes: seq<(int, Row)>): seq<Row>
    decreases |changes|
  {
    if changes == [] then rows
    else SetRows(SetRow(rows, changes[0].0, changes[0].1), changes[1..])
  }

  function Apply(state: Grid, patch: Patch): Option<Grid> {
    if state.revision != patch.baseRevision then None
    else Some(Grid(patch.cols, patch.covers, patch.cursor, patch.palette, patch.revision,
                   SetRows(state.rows, patch.rows), patch.startRow, patch.styles, patch.title,
                   patch.totalRows))
  }

  method DiffGridState(previous: Grid, next: Grid) returns (patch: Option<Patch>)
    ensures patch == Diff(previous, next)
  {
    if previous.cols != next.cols || |previous.rows| != |next.rows| || previous.startRow != next.startRow {
      return None;
    }
    var rows: seq<(int, Row)> := [];
    var index := 0;
    while index < |next.rows|
      invariant 0 <= index <= |next.rows|
      invariant rows + ChangedRows(previous.rows, next.rows, index) == ChangedRows(previous.rows, next.rows, 0)
    {
      if previous.rows[index] != next.rows[index] {
        rows := rows + [(index, next.rows[index])];
      }
      index := index + 1;
    }
    assert rows + [] == rows;
    patch := Some(PatchHeader(previous, next, rows));
  }

  method ApplyGridPatch(state: Grid, patch: Patch) returns (result: Option<Grid>)
    ensures result == Apply(state, patch)
  {
    if state.revision != patch.baseRevision {
      return None;
    }
    var rows := state.rows;
    var i := 0;
    while i < |patch.rows|
      invariant 0 <= i <= |patch.rows|
      invariant SetRows(rows, patch.rows[i..]) == SetRows(state.rows, patch.rows)
    {
      var (index, row) := patch.rows[i];
      assert patch.rows[i..][1..] == patch.rows[i + 1..];
      rows := SetRow(rows, index, row);
      i := i + 1;
    }
    result := Some(Grid(patch.cols, patch.covers, patch.cursor, patch.palette, patch.revision, rows,
                        patch.startRow, patch.styles, patch.title, patch.totalRows));
  }

  /** Overwriting the changed rows from `from` on turns any rows that agree before `from` into `next`. */
  lemma {:induction false} ChangedRowsRestore(previous: seq<Row>, next: seq<Row>, from: nat, rows: seq<Row>)
    requires |previous| == |next| == |rows|
    requires from <= |next|
    requires rows[..from] == next[..from]
    requires rows[from..] == previous[from..]
    ensures SetRows(rows, ChangedRows(previous, next, from)) == next
    decreases |next| - from
  {
    if from == |next| {
      assert rows == rows[..from] + rows[from..];
    } else {
      assert rows[from] == rows[from..][0] == previous[from..][0] == previous[from];
      var updated := rows[from := next[from]];
      assert updated[..from + 1] == next[..from + 1];
      assert updated[from + 1..] == rows[from..][1..] == previous[from..][1..] == previous[from + 1..];
      ChangedRowsRestore(previous, next, from + 1, updated);
      var changes := ChangedRows(previous, next, from);
      if previous[from] != next[from] {
        assert changes[1..] == ChangedRows(previous, next, from + 1);
      } else {
        assert updated == rows;
      }
    }
  }

  /** A difference exists exactly between states of one shape, and applying it gives the newer state. */
  lemma DiffThenApply(previous: Grid, next: Grid)
    ensures Diff(previous, next).Some? <==> SameShape(previous, next)
    ensures Diff(previous, next).Some? ==> Apply(previous, Diff(previous, next).value) == Some(next)
  {
    if SameShape(previous, next) {
      ChangedRowsRestore(previous.rows, next.rows, 0, previous.rows);
    }
  }

  /** A difference carries each changed row exactly once, in order, and no row that stayed the same. */
  lemma {:induction false} DiffIsMinimal(previous: seq<Row>, next: seq<Row>, from: nat)
    requires |previous| == |next|
    requires from <= |next|
    ensures forall i :: from <= i < |next| ==>
              (previous[i] != next[i] <==> (i, next[i]) in ChangedRows(previous, next, from))
    ensures forall c :: c in ChangedRows(previous, next, from) ==>
              from <= c.0 < |next| && c.1 == next[c.0] && previous[c.0] != next[c.0]
    ensures forall i, j :: 0 <= i < j < |ChangedRows(previous, next, from)| ==>
              ChangedRows(previous, next, from)[i].0 < ChangedRows(previous, next, from)[j].0
    decreases |next| - from
  {
    if from < |next| {
      DiffIsMinimal(previous, next, from + 1);
    }
  }
}
