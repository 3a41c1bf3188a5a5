/**
 * The flat connectivity encoding used by a VTK cell array: every cell is written as its
 * number of point ids followed by the ids, and the cells follow one another in input order.
 * Rows may come as a list of variable-length rows, as one rectangular block (a 2-D integer
 * array) or as a list of such blocks of different widths.
 */
module CellEncoding {
  import opened Common

  type Row = seq<int>

  /** The `[len, ids...]` encoding of a sequence of cells. */
  function Encode(rows: seq<Row>): seq<int>
  {
    if rows == [] then [] else [|rows[0]|] + rows[0] + Encode(rows[1..])
  }

  /** Number of entries each cell takes in the encoding: its length plus the length slot. */
  function EncodedSize(rows: seq<Row>): nat
  {
    if rows == [] then 0 else |rows[0]| + 1 + EncodedSize(rows[1..])
  }

  /** Reads an encoding back into its cells; None when the data is not a well-formed encoding. */
  function Decode(flat: seq<int>): Option<seq<Row>>
    decreases |flat|
  {
    if flat == [] then Some([])
    else
      var n := flat[0];
      if n < 0 || n > |flat| - 1 then None
      else
        match Decode(flat[1 + n..])
        case None => None
        case Some(rest) => Some([flat[1..1 + n]] + rest)
  }

  /** Number of cells held by an encoding (0 for malformed data). */
  function CellCount(flat: seq<int>): nat
  {
    match Decode(flat)
    case None => 0
    case Some(rows) => |rows|
  }

  lemma {:induction false} EncodeLength(rows: seq<Row>)
    ensures |Encode(rows)| == EncodedSize(rows)
  {
    if rows != [] {
      EncodeLength(rows[1..]);
    }
  }

  /** Decoding undoes encoding, so the cells and their number are recovered exactly. */
  lemma {:induction false} DecodeEncode(rows: seq<Row>)
    ensures Decode(Encode(rows)) == Some(rows)
    ensures CellCount(Encode(rows)) == |rows|
  {
    if rows != [] {
      var flat := Encode(rows);
      var n := |rows[0]|;
      assert flat[0] == n;
      assert flat[1..1 + n] == rows[0];
      assert flat[1 + n..] == Encode(rows[1..]);
      DecodeEncode(rows[1..]);
      assert [rows[0]] + rows[1..] == rows;
    }
  }

  /** One row in front: its length slot and ids come first. */
  lemma EncodeCons(row: Row, rest: seq<Row>)
    ensures Encode([row] + rest) == [|row|] + row + Encode(rest)
  {
    assert ([row] + rest)[0] == row && ([row] + rest)[1..] == rest;
  }

  /** Encoding two row lists one after the other is concatenating their encodings. */
  lemma {:induction false} EncodeAppend(a: seq<Row>, b: seq<Row>)
    ensures Encode(a + b) == Encode(a) + Encode(b)
  {
    if a == [] {
      assert a + b == b;
    } else {
      assert (a + b)[0] == a[0];
      assert (a + b)[1..] == a[1..] + b;
      EncodeAppend(a[1..], b);
    }
  }

  /** A block: a 2-D integer array whose rows are its cells. */
  datatype Block = Block(width: nat, rows: seq<Row>)

  /** Every row of the block has the block's width. */
  predicate IsRectangular(b: Block)
  {
    forall i :: 0 <= i < |b.rows| ==> |b.rows[i]| == b.width
  }

  /** The three input forms the conversion accepts. */
  datatype CellInput =
    | RowList(rows: seq<Row>)       // a Python list of lists of ids
    | OneBlock(block: Block)        // a single 2-D integer array
    | BlockList(blocks: seq<Block>) // a Python list of 2-D integer arrays

  datatype ShapeError = RaggedBlock

  /** Cells of a list of blocks, block after block. */
  function BlockRows(blocks: seq<Block>): seq<Row>
  {
    if blocks == [] then [] else blocks[0].rows + BlockRows(blocks[1..])
  }

  function RowCounts(blocks: seq<Block>): (counts: seq<nat>)
    ensures |counts| == |blocks|
  {
    if blocks == [] then [] else [|blocks[0].rows|] + RowCounts(blocks[1..])
  }

  predicate AllRectangular(blocks: seq<Block>)
  {
    forall i :: 0 <= i < |blocks| ==> IsRectangular(blocks[i])
  }

  /** The cells an input denotes, or the shape error for a ragged block. */
  function CellRows(input: CellInput): (r: Result<seq<Row>, ShapeError>)
    ensures input.RowList? ==> r == Ok(input.rows)
    ensures input.OneBlock? ==> (r.Ok? <==> IsRectangular(input.block))
    ensures input.BlockList? ==>
              (r.Ok? <==> forall i :: 0 <= i < |input.blocks| ==> IsRectangular(input.blocks[i]))
  {
    match input
    case RowList(rows) => Ok(rows)
    case OneBlock(b) => if IsRectangular(b) then Ok(b.rows) else Err(RaggedBlock)
    case BlockList(bs) => if AllRectangular(bs) then Ok(BlockRows(bs)) else Err(RaggedBlock)
  }

  /** The cells of a list of blocks number the sum of the blocks' row counts. */
  lemma {:induction false} BlockRowsCount(blocks: seq<Block>)
    ensures |BlockRows(blocks)| == Sum(RowCounts(blocks))
  {
    if blocks != [] {
      BlockRowsCount(blocks[1..]);
    }
  }

  /** Encoding a list of blocks is concatenating the blocks' own encodings, in order. */
  function EncodeEach(blocks: seq<Block>): seq<int>
  {
    if blocks == [] then [] else Encode(blocks[0].rows) + EncodeEach(blocks[1..])
  }

  lemma {:induction false} EncodeBlocks(blocks: seq<Block>)
    ensures Encode(BlockRows(blocks)) == EncodeEach(blocks)
  {
    if blocks != [] {
      EncodeAppend(blocks[0].rows, BlockRows(blocks[1..]));
      EncodeBlocks(blocks[1..]);
    }
  }

  /** A rectangular block of N rows of width w encodes into N * (w + 1) entries. */
  lemma {:induction false} RectangularSize(b: Block)
    requires IsRectangular(b)
    ensures |Encode(b.rows)| == |b.rows| * (b.width + 1)
    decreases |b.rows|
  {
    if b.rows != [] {
      var tail := Block(b.width, b.rows[1..]);
      RectangularSize(tail);
      assert Encode(b.rows) == [b.width] + b.rows[0] + Encode(tail.rows);
    }
  }

  /** `s` written n times. */
  function Repeat(s: seq<int>, n: nat): (r: seq<int>)
    ensures |r| == n * |s|
  {
    if n == 0 then [] else s + Repeat(s, n - 1)
  }

  /** n copies of one row: the rows of an array whose rows are all equal. */
  function Copies(row: Row, n: nat): (rows: seq<Row>)
    ensures |rows| == n
  {
    if n == 0 then [] else [row] + Copies(row, n - 1)
  }

  /** n copies of one row encode as `[len] + row` repeated n times. */
  lemma {:induction false} EncodeCopies(row: Row, n: nat)
    ensures Encode(Copies(row, n)) == Repeat([|row|] + row, n)
  {
    if n > 0 {
      EncodeCopies(row, n - 1);
    }
  }

  /** The list-of-lists case of the conversion test. */
  lemma ListOfListsExample()
    ensures Encode([[0], [1, 2], [3, 4, 5], [6, 7, 8, 9]])
            == [1, 0, 2, 1, 2, 3, 3, 4, 5, 4, 6, 7, 8, 9]
    ensures CellCount(Encode([[0], [1, 2], [3, 4, 5], [6, 7, 8, 9]])) == 4
  {
    ListOfListsEncoding();
    DecodeEncode([[0], [1, 2], [3, 4, 5], [6, 7, 8, 9]]);
  }

  /** The test's rows encode, one row at a time, into the expected connectivity list. */
  lemma ListOfListsEncoding()
    ensures Encode([[0], [1, 2], [3, 4, 5], [6, 7, 8, 9]])
            == [1, 0, 2, 1, 2, 3, 3, 4, 5, 4, 6, 7, 8, 9]
  {
    var r3: seq<Row> := [[6, 7, 8, 9]];
    var r2: seq<Row> := [[3, 4, 5]] + r3;
    var r1: seq<Row> := [[1, 2]] + r2;
    assert [[0], [1, 2], [3, 4, 5], [6, 7, 8, 9]] == [[0]] + r1;
    EncodeCons([6, 7, 8, 9], []);
    assert r3 == [[6, 7, 8, 9]] + [];
    assert Encode(r3) == [4, 6, 7, 8, 9];
    EncodeCons([3, 4, 5], r3);
    assert Encode(r2) == [3, 3, 4, 5] + [4, 6, 7, 8, 9];
    EncodeCons([1, 2], r2);
    assert Encode(r1) == [2, 1, 2] + [3, 3, 4, 5, 4, 6, 7, 8, 9];
    EncodeCons([0], r1);
  }

  /** The rectangular-array case: three rows `[0, 1, 2]` give `[3, 0, 1, 2]` three times and 3 cells. */
  lemma BlockExample()
    ensures Encode(Copies([0, 1, 2], 3)) == Repeat([3, 0, 1, 2], 3)
    ensures CellCount(Encode(Copies([0, 1, 2], 3))) == 3
  {
    EncodeCopies([0, 1, 2], 3);
    assert [|[0, 1, 2]|] + [0, 1, 2] == [3, 0, 1, 2];
    DecodeEncode(Copies([0, 1, 2], 3));
  }

  /** The blocks of the list-of-blocks case: widths 1, 3 and 2, with 3, 3 and 2 rows. */
  const ExampleBlocks := [Block(1, Copies([0], 3)), Block(3, Copies([0, 1, 2], 3)), Block(2, Copies([0, 1], 2))]

  lemma ExampleBlocksShape()
    ensures ExampleBlocks[1..] == [ExampleBlocks[1], ExampleBlocks[2]]
    ensures ExampleBlocks[1..][1..] == [ExampleBlocks[2]] && ExampleBlocks[1..][1..][1..] == []
    ensures AllRectangular(ExampleBlocks)
  {
    CopiesRectangular([0], 3);
    CopiesRectangular([0, 1, 2], 3);
    CopiesRectangular([0, 1], 2);
  }

  lemma BlockListEncoding()
    ensures Encode(BlockRows(ExampleBlocks)) == Repeat([1, 0], 3) + Repeat([3, 0, 1, 2], 3) + Repeat([2, 0, 1], 2)
  {
    var blocks := ExampleBlocks;
    var b0, b1, b2 := blocks[0], blocks[1], blocks[2];
    ExampleBlocksShape();
    EncodeBlocks(blocks);
    assert EncodeEach([b2]) == Encode(b2.rows) + EncodeEach([]);
    assert EncodeEach([b1, b2]) == Encode(b1.rows) + EncodeEach([b2]);
    assert EncodeEach(blocks) == Encode(b0.rows) + Encode(b1.rows) + Encode(b2.rows);
    EncodeCopies([0], 3);
    EncodeCopies([0, 1, 2], 3);
    EncodeCopies([0, 1], 2);
    assert [|[0]|] + [0] == [1, 0];
    assert [|[0, 1, 2]|] + [0, 1, 2] == [3, 0, 1, 2];
    assert [|[0, 1]|] + [0, 1] == [2, 0, 1];
  }

  lemma BlockListCells()
    ensures CellCount(Encode(BlockRows(ExampleBlocks))) == 8
  {
    var blocks := ExampleBlocks;
    ExampleBlocksShape();
    DecodeEncode(BlockRows(blocks));
    BlockRowsCount(blocks);
    assert RowCounts([blocks[2]]) == [2];
    assert RowCounts([blocks[1], blocks[2]]) == [3, 2];
    assert RowCounts(blocks) == [3, 3, 2];
    assert Sum([3, 3, 2]) == 8 by {
      assert [3, 3, 2][1..] == [3, 2];
      assert [3, 2][1..] == [2];
      assert [2][1..] == [];
    }
  }

  /** The list-of-blocks case: blocks of widths 1, 3 and 2 give their encodings in order and 8 cells. */
  lemma BlockListExample()
    ensures CellRows(BlockList(ExampleBlocks)) == Ok(BlockRows(ExampleBlocks))
    ensures Encode(BlockRows(ExampleBlocks)) == Repeat([1, 0], 3) + Repeat([3, 0, 1, 2], 3) + Repeat([2, 0, 1], 2)
    ensures CellCount(Encode(BlockRows(ExampleBlocks))) == 8
  {
    ExampleBlocksShape();
    BlockListEncoding();
    BlockListCells();
  }

  lemma {:induction false} CopiesRectangular(row: Row, n: nat)
    ensures IsRectangular(Block(|row|, Copies(row, n)))
  {
    if n > 0 {
      CopiesRectangular(row, n - 1);
      var rows := Copies(row, n);
      assert forall i :: 1 <= i < n ==> rows[i] == Copies(row, n - 1)[i - 1];
    }
  }
}
