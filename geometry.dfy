/**
 * Building VTK geometry objects from nested sequences: `array2vtkCellArray`,
 * `array2vtkPoints` and `array2vtkIdList`.  Each takes an optional target object; a given
 * target is filled in place and returned, otherwise a new object is made.
 */
module Geometry {
  import opened Common
  import opened CellEncoding

  /** An array-like argument: a flat sequence, or a nested sequence of rows. */
  datatype ArrayLike = Flat(values: seq<int>) | Nested(rows: seq<seq<int>>)

  datatype ConversionError = NotTwoD | NotThreeColumns | NotOneD | Ragged

  /** `numpy.asarray(a)` has rank 1: a flat sequence, or an empty list. */
  predicate IsOneD(a: ArrayLike)
  {
    a.Flat? || a.rows == []
  }

  function OneDValues(a: ArrayLike): seq<int>
    requires IsOneD(a)
  {
    if a.Flat? then a.values else []
  }

  /** `numpy.asarray(a)` has rank 2 and shape (n, 3). */
  predicate IsPointArray(a: ArrayLike)
  {
    a.Nested? && a.rows != [] && forall i :: 0 <= i < |a.rows| ==> |a.rows[i]| == 3
  }

  /** A VTK id list: a sequence of point ids. */
  class IdList {
    var ids: seq<int>

    constructor ()
      ensures ids == []
    {
      ids := [];
    }

    method Reset()
      modifies this
      ensures ids == []
    {
      ids := [];
    }

    method InsertNextId(x: int)
      modifies this
      ensures ids == old(ids) + [x]
    {
      ids := ids + [x];
    }

    method SetNumberOfIds(n: nat)
      modifies this
      ensures |ids| == n
    {
      ids := seq(n, _ => 0);
    }

    method SetId(i: nat, x: int)
      requires i < |ids|
      modifies this
      ensures ids == old(ids)[i := x]
    {
      ids := ids[i := x];
    }

    function GetId(i: nat): int
      reads this
      requires i < |ids|
    {
      ids[i]
    }
  }

  /** A VTK cell array: its connectivity data (`GetData()`) and its number of cells. */
  class CellArray {
    var data: seq<int>
    var count: nat

    constructor ()
      ensures data == [] && count == 0
    {
      data, count := [], 0;
    }

    method Reset()
      modifies this
      ensures data == [] && count == 0
    {
      data, count := [], 0;
    }

    method InsertNextCell(ids: seq<int>)
      modifies this
      ensures data == old(data) + [|ids|] + ids && count == old(count) + 1
    {
      data, count := data + [|ids|] + ids, count + 1;
    }

    /** `SetCells(n, ids)`: replaces the whole connectivity by an encoding of n cells. */
    method SetCells(n: nat, flat: seq<int>)
      requires CellCount(flat) == n
      modifies this
      ensures data == flat && count == n
    {
      data, count := flat, n;
    }
  }

  /** A VTK point set. */
  class Points {
    var points: seq<(int, int, int)>

    constructor ()
      ensures points == []
    {
      points := [];
    }

    method SetData(rows: seq<seq<int>>)
      requires forall i :: 0 <= i < |rows| ==> |rows[i]| == 3
      modifies this
      ensures points == PointsOf(rows)
    {
      points := PointsOf(rows);
    }

    function GetPoint(i: nat): (int, int, int)
      reads this
      requires i < |points|
    {
      points[i]
    }
  }

  function PointsOf(rows: seq<seq<int>>): (ps: seq<(int, int, int)>)
    requires forall i :: 0 <= i < |rows| ==> |rows[i]| == 3
    ensures |ps| == |rows|
    ensures forall i :: 0 <= i < |rows| ==> ps[i] == (rows[i][0], rows[i][1], rows[i][2])
  {
    seq(|rows|, i requires 0 <= i < |rows| => (rows[i][0], rows[i][1], rows[i][2]))
  }

  lemma EncodePrefix(rows: seq<Row>, i: nat)
    requires i < |rows|
    ensures Encode(rows[..i + 1]) == Encode(rows[..i]) + [|rows[i]|] + rows[i]
  {
    assert rows[..i + 1] == rows[..i] + [rows[i]];
    EncodeAppend(rows[..i], [rows[i]]);
    assert [rows[i]][1..] == [];
  }

  lemma EncodeEachPrefix(blocks: seq<Block>, i: nat)
    requires i < |blocks|
    ensures EncodeEach(blocks[..i + 1]) == EncodeEach(blocks[..i]) + Encode(blocks[i].rows)
  {
    EncodeEachAppend(blocks[..i], [blocks[i]]);
    assert blocks[..i + 1] == blocks[..i] + [blocks[i]];
    assert [blocks[i]][1..] == [];
  }

  lemma {:induction false} EncodeEachAppend(a: seq<Block>, b: seq<Block>)
    ensures EncodeEach(a + b) == EncodeEach(a) + EncodeEach(b)
  {
    if a == [] {
      assert a + b == b;
    } else {
      assert (a + b)[0] == a[0];
      assert (a + b)[1..] == a[1..] + b;
      EncodeEachAppend(a[1..], b);
    }
  }

  lemma {:induction false} RowCountsAppend(a: seq<Block>, b: seq<Block>)
    ensures RowCounts(a + b) == RowCounts(a) + RowCounts(b)
  {
    if a == [] {
      assert a + b == b;
    } else {
      assert (a + b)[0] == a[0];
      assert (a + b)[1..] == a[1..] + b;
      RowCountsAppend(a[1..], b);
    }
  }

  lemma RowCountPrefix(blocks: seq<Block>, i: nat)
    requires i < |blocks|
    ensures Sum(RowCounts(blocks[..i + 1])) == Sum(RowCounts(blocks[..i])) + |blocks[i].rows|
  {
    assert blocks[..i + 1] == blocks[..i] + [blocks[i]];
    RowCountsAppend(blocks[..i], [blocks[i]]);
    SumAppend(RowCounts(blocks[..i]), RowCounts([blocks[i]]));
    assert RowCounts([blocks[i]]) == [|blocks[i].rows|] by {
      assert [blocks[i]][1..] == [];
    }
    assert Sum([|blocks[i].rows|]) == |blocks[i].rows| by {
      assert [|blocks[i].rows|][1..] == [];
    }
  }

  /** One row the way the list-of-lists path does it: the row's ids go through an id list. */
  method FillIds(ids: IdList, row: seq<int>)
    modifies ids
    ensures ids.ids == row
  {
    ids.Reset();
    var j := 0;
    while j < |row|
      invariant 0 <= j <= |row|
      invariant ids.ids == row[..j]
    {
      ids.InsertNextId(row[j]);
      assert row[..j + 1] == row[..j] + [row[j]];
      j := j + 1;
    }
  }

  /** The list-of-lists path: reset the cells, then insert every row in order. */
  method InsertRows(cells: CellArray, rows: seq<Row>)
    modifies cells
    ensures cells.data == Encode(rows) && cells.count == |rows|
  {
    cells.Reset();
    var ids := new IdList();
    var i := 0;
    while i < |rows|
      invariant 0 <= i <= |rows|
      invariant cells.data == Encode(rows[..i]) && cells.count == i
    {
      FillIds(ids, rows[i]);
      cells.InsertNextCell(ids.ids);
      EncodePrefix(rows, i);
      i := i + 1;
    }
    assert rows[..i] == rows;
  }

  /** The list-of-blocks path: the blocks' encodings are laid one after the other. */
  method EncodeBlockList(blocks: seq<Block>) returns (flat: seq<int>, n: nat)
    ensures flat == Encode(BlockRows(blocks)) && n == |BlockRows(blocks)|
  {
    flat, n := [], 0;
    var i := 0;
    while i < |blocks|
      invariant 0 <= i <= |blocks|
      invariant flat == EncodeEach(blocks[..i]) && n == Sum(RowCounts(blocks[..i]))
    {
      EncodeEachPrefix(blocks, i);
      RowCountPrefix(blocks, i);
      flat := flat + Encode(blocks[i].rows);
      n := n + |blocks[i].rows|;
      i := i + 1;
    }
    assert blocks[..i] == blocks;
    EncodeBlocks(blocks);
    BlockRowsCount(blocks);
  }

  /**
   * `array2vtkCellArray(input, target)`: the cell array (the target when given) holds exactly
   * the encoding of the input's rows and that many cells; whatever it held before is gone.
   * A ragged block is a shape error and leaves the target untouched.
   */
  method Array2VtkCellArray(input: CellInput, target: CellArray?) returns (r: Result<CellArray, ConversionError>)
    modifies target
    ensures r.Ok? <==> CellRows(input).Ok?
    ensures r.Ok? ==> (r.value.data == Encode(CellRows(input).value)
                   && r.value.count == |CellRows(input).value|
                   && CellCount(r.value.data) == r.value.count)
    ensures r.Ok? && target != null ==> r.value == target
    ensures r.Ok? && target == null ==> fresh(r.value)
    ensures r.Err? && target != null ==> target.data == old(target.data) && target.count == old(target.count)
  {
    match CellRows(input)
    case Err(_) => {
      r := Err(Ragged);
      return;
    }
    case Ok(rows) => {
      var cells: CellArray;
      if target != null {
        cells := target;
      } else {
        cells := new CellArray();
      }
      DecodeEncode(rows);
      match input {
        case RowList(_) =>
          InsertRows(cells, rows);
        case OneBlock(b) =>
          cells.SetCells(|b.rows|, Encode(b.rows));
        case BlockList(bs) =>
          var flat, n := EncodeBlockList(bs);
          cells.SetCells(n, flat);
      }
      r := Ok(cells);
    }
  }

  /**
   * `array2vtkPoints(a, target)`: only an (n, 3) array is accepted; point i is row i and a
   * given target is the object returned.  A flat list, of any length, is rejected.
   */
  method Array2VtkPoints(a: ArrayLike, target: Points?) returns (r: Result<Points, ConversionError>)
    modifies target
    ensures r.Ok? <==> IsPointArray(a)
    ensures r.Ok? ==> r.value.points == PointsOf(a.rows)
    ensures r.Ok? && target != null ==> r.value == target
    ensures r.Ok? && target == null ==> fresh(r.value)
    ensures r.Err? && target != null ==> target.points == old(target.points)
    ensures IsOneD(a) ==> r == Err(NotTwoD)
  {
    if IsOneD(a) {
      return Err(NotTwoD);
    }
    if exists i :: 0 <= i < |a.rows| && |a.rows[i]| != |a.rows[0]| {
      return Err(NotTwoD);
    }
    if |a.rows[0]| != 3 {
      return Err(NotThreeColumns);
    }
    var points: Points;
    if target != null {
      points := target;
    } else {
      points := new Points();
    }
    points.SetData(a.rows);
    r := Ok(points);
  }

  /**
   * `array2vtkIdList(a, target)`: only a 1-D input is accepted; id i is element i and a given
   * target is the object returned.  Nested input is rejected.
   */
  method Array2VtkIdList(a: ArrayLike, target: IdList?) returns (r: Result<IdList, ConversionError>)
    modifies target
    ensures r.Ok? <==> IsOneD(a)
    ensures r.Ok? ==> r.value.ids == OneDValues(a)
    ensures r.Ok? && target != null ==> r.value == target
    ensures r.Ok? && target == null ==> fresh(r.value)
    ensures r.Err? && target != null ==> target.ids == old(target.ids)
  {
    if !IsOneD(a) {
      return Err(NotOneD);
    }
    var values := OneDValues(a);
    var ids: IdList;
    if target != null {
      ids := target;
    } else {
      ids := new IdList();
    }
    ids.SetNumberOfIds(|values|);
    var i := 0;
    while i < |values|
      invariant 0 <= i <= |values|
      invariant |ids.ids| == |values|
      invariant ids.ids[..i] == values[..i]
    {
      ids.SetId(i, values[i]);
      i := i + 1;
    }
    assert ids.ids == ids.ids[..i];
    r := Ok(ids);
  }

  /**
   * The cell-array test with a target: the same object comes back, holding the test's encoding
   * and 4 cells, and a second call with the same rows still leaves 4 cells, not 8.
   */
  method CellTargetIsReset() returns (same: bool, firstCount: nat, secondCount: nat, data: seq<int>)
    ensures same && firstCount == 4 && secondCount == 4
    ensures data == [1, 0, 2, 1, 2, 3, 3, 4, 5, 4, 6, 7, 8, 9]
  {
    var rows: seq<Row> := [[0], [1, 2], [3, 4, 5], [6, 7, 8, 9]];
    ListOfListsExample();
    var cells := new CellArray();
    var r1 := Array2VtkCellArray(RowList(rows), cells);
    firstCount := r1.value.count;
    var r2 := Array2VtkCellArray(RowList(rows), cells);
    secondCount := r2.value.count;
    same := r1.value == cells && r2.value == cells;
    data := cells.data;
  }

  /** The points test: rows become points, a target keeps its identity, flat lists are rejected. */
  method PointsTest() returns (p0: (int, int, int), p1: (int, int, int), same: bool, shortRejected: bool, tripleRejected: bool)
    ensures p0 == (0, 0, 0) && p1 == (1, 1, 1) && same
    ensures shortRejected && tripleRejected
  {
    var rows := [[0, 0, 0], [1, 1, 1]];
    var target := new Points();
    var r := Array2VtkPoints(Nested(rows), target);
    p0, p1 := r.value.GetPoint(0), r.value.GetPoint(1);
    same := r.value == target;
    var bad2 := Array2VtkPoints(Flat([0, 1]), null);
    var bad3 := Array2VtkPoints(Flat([0, 1, 1]), null);
    shortRejected, tripleRejected := bad2.Err?, bad3.Err?;
  }

  /** The id-list test: every id kept in order, a target keeps its identity, nested input rejected. */
  method IdListTest() returns (ids: seq<int>, same: bool, nestedRejected: bool)
    ensures ids == [1, 2, 3, 4, 5] && same && nestedRejected
  {
    var target := new IdList();
    var r := Array2VtkIdList(Flat([1, 2, 3, 4, 5]), target);
    ids, same := r.value.ids, r.value == target;
    var bad := Array2VtkIdList(Nested([[1, 2, 3]]), null);
    nestedRejected := bad.Err?;
  }
}
