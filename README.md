# TVTK array marshalling, the Mayavi engine, metadata symbol paths and the class tree

This project models four pieces of Mayavi/TVTK in Dafny and proves properties of each.

1. **TVTK's array handler** (`enthought.tvtk.array_handler`), as its test suite pins it down:
   - `array2vtk` and `vtk2array`, with tuple/component bookkeeping, reuse of a target array,
     zero-copy sharing recorded in the module's `_array_cache` keyed by the native handle, and
     bit arrays that are always copied;
   - `array2vtkCellArray`, which writes the flat `[len, ids...]` cell encoding from a list of
     rows, one rectangular array or a list of arrays, resetting a given target;
   - `array2vtkPoints` and `array2vtkIdList`, with their shape checks and target reuse;
   - `get_correct_sig`, which picks one overload for an argument list;
   - `deref_array`, which replaces array arguments by native objects.
   The module itself is not part of this model; its behaviour is taken from
   `enthought/tvtk/tests/test_array_handler.py`.
2. **The Mayavi `Engine`'s scene bookkeeping** (`enthought/mayavi/core/engine.py`): the list of
   managed scenes, the current scene/object/selection fields and their fallback rules, the
   viewer-reference map, the scene-title counter, adding and removing scenes, reconciling the
   scene count with a saved state, and the guards on adding sources and filters.
3. **`Metadata.get_callable`** (`enthought/mayavi/core/metadata.py`): the choice between a
   factory and `class_name`, the parsing of `module:expr` and dotted symbol paths, and the
   attribute walk of `_import_module`.
4. **The class tree** asserted by `enthought/tvtk/tests/test_class_tree.py`: `get_level` over an
   acyclic bases relation, and the tree's level, layer, parent/child and ancestor invariants.

Files and modules:

| file | module | contents |
|---|---|---|
| `common.dfy` | `Common` | `Option`, `Result`, `FirstWith` (the first position whose key matches, used by `FirstManaged` and `FindNode`), `Sum` and `SumAppend` |
| `cell_encoding.dfy` | `CellEncoding` | the cell encoding, its decoder, the three input forms |
| `element_types.dfy` | `ElementTypes` | numeric and VTK element types, storing a value into a typed array |
| `data_arrays.dfy` | `DataArrays` | `array2vtk`, `vtk2array`, the array cache (classes over Dafny arrays) |
| `geometry.dfy` | `Geometry` | cell arrays, points and id lists (classes filled in place) |
| `signatures.dfy` | `Signatures` | `get_correct_sig` and its truth table |
| `deref.dfy` | `Dereference` | `deref_array` |
| `engine.dfy` | `MayaviEngine` | the `Engine` class and the id generator |
| `metadata.dfy` | `MayaviMetadata` | `split`/`join`, path parsing, the `Metadata` class |
| `class_tree.dfy` | `ClassTree` | levels, the tree, ancestors |

Modelling choices:
- **Memory sharing.** A numeric array's buffer and a VTK array's storage are Dafny `array<int>`
  objects. A VTK array that shares memory with a numeric array holds the very same object.
  The native side is a `Toolkit` object holding the live arrays by handle, the next free
  handle and the cache.
- **Element values** are integers. An integer element type keeps the low bits of a stored
  value, in two's complement when signed. A bit array keeps whether the value is non-zero. The
  float types store every value unchanged.
- **Engine scenes.** A Mayavi scene is a value carrying the number of the TVTK scene it wraps
  and its name. The scene factory, the GUI and the viewer windows are outside the model:
  - TVTK scenes are numbered; the engine keeps the scene factory's next number above every
    TVTK scene it has been given, so a new viewer wraps a TVTK scene never seen before, even
    after the scene with the highest number is closed;
  - a viewer is identified with its TVTK scene;
  - `error(...)` is a failed outcome that changes nothing.
- **Imports.** Python's imports are a parameter `Env`. It maps importable dotted module names to
  module objects, and (object, attribute name) pairs to attribute values.
- **Class hierarchies.** A hierarchy lists a module's classes in definition order. Each class
  names its bases by position, and bases always come earlier, so the bases relation is acyclic
  and levels are well defined.

Two cases the tests pin that may look surprising:
- **Flat points.** Flat lists are rejected by `array2vtkPoints` whatever their length, even a
  multiple of three (`test_array_handler.py:226-229`).
- **Single signatures.** A single signature is returned even when its arity differs from the
  call's (`test_array_handler.py:253`, `:272`, `:288`).

Further notes:
- **Character arrays** convert to VTK's unsigned char type and read back as `UInt8`. The test
  compares `chr(int(GetTuple1(i)))` with each character (`test_array_handler.py:37-39`), so the
  stored codes are 0..255; the characters made from `[-128, 0, 127]` are the codes 128, 0, 127.
- **Closing scenes** (`close_scene`, `_on_scene_closed` and so `__set_pure_state__`) goes through
  `remove_scene` as the source writes it, so the recorded current scene survives its own
  closing (see "## Findings"). Those members therefore promise no validity of the current
  scene; `new_scene` and `add_source` are modelled from any state, including that one.
- **`get_correct_sig`'s rule** is not written out anywhere in the tests; the model uses a rule
  consistent with all thirteen rows of the table. Among several signatures of the call's
  arity, it takes the first one whose array-kind positions are exactly the positions of the
  array arguments.
- **Dead branch in `add_filter`.** The "Please create a VTK scene" branch
  (`engine.py:229-230`) cannot be reached: a missing object is not a `Base`, so it is refused
  earlier (`engine.py:215-219`). The model has no such error.

## Model

| member | source | states |
|---|---|---|
| CellEncoding.DecodeEncode | enthought/tvtk/tests/test_array_handler.py:162-168 | decoding the encoding of any list of rows gives back exactly those rows, so the cell count is the number of rows |
| CellEncoding.EncodeLength | enthought/tvtk/tests/test_array_handler.py:162-168 | the encoding has one slot per row plus one per id |
| CellEncoding.EncodeAppend | enthought/tvtk/tests/test_array_handler.py:196-203 | encoding two row lists one after the other is concatenating their encodings |
| CellEncoding.CellRows | enthought/tvtk/tests/test_array_handler.py:159-203 | a list of lists is taken as it is; a block, or a list of blocks, is accepted exactly when every block is rectangular |
| CellEncoding.BlockRowsCount | enthought/tvtk/tests/test_array_handler.py:196-203 | the cells of a list of blocks number the sum of the blocks' row counts |
| CellEncoding.EncodeBlocks | enthought/tvtk/tests/test_array_handler.py:196-203 | a list of blocks encodes as the blocks' own encodings, concatenated in order |
| CellEncoding.RectangularSize | enthought/tvtk/tests/test_array_handler.py:184-194 | an N-row block of width w encodes into N * (w + 1) entries |
| CellEncoding.EncodeCopies | enthought/tvtk/tests/test_array_handler.py:184-194 | N equal rows encode as `[len] + row` repeated N times |
| CellEncoding.CopiesRectangular | enthought/tvtk/tests/test_array_handler.py:184-188 | N copies of a row form a rectangular block of the row's width |
| CellEncoding.EncodeCons | enthought/tvtk/tests/test_array_handler.py:162-168 | the encoding of a row followed by more rows is the row's length, the row, then the encoding of the rest |
| CellEncoding.ListOfListsEncoding | enthought/tvtk/tests/test_array_handler.py:162-168 | the test's four rows encode to the test's expected id list |
| CellEncoding.ListOfListsExample | enthought/tvtk/tests/test_array_handler.py:162-168 | `[[0],[1,2],[3,4,5],[6,7,8,9]]` encodes as `[1,0,2,1,2,3,3,4,5,4,6,7,8,9]` holding 4 cells |
| CellEncoding.BlockExample | enthought/tvtk/tests/test_array_handler.py:184-194 | three rows `[0,1,2]` encode as `[3,0,1,2]` three times and 3 cells |
| CellEncoding.ExampleBlocksShape | enthought/tvtk/tests/test_array_handler.py:196-197 | the test's three blocks (widths 1, 3, 2) are rectangular |
| CellEncoding.BlockListEncoding | enthought/tvtk/tests/test_array_handler.py:196-202 | the three blocks encode as `[1,0]*3 + [3,0,1,2]*3 + [2,0,1]*2` |
| CellEncoding.BlockListCells | enthought/tvtk/tests/test_array_handler.py:203 | their encoding holds N*2 + 2 = 8 cells |
| CellEncoding.BlockListExample | enthought/tvtk/tests/test_array_handler.py:196-203 | the list of blocks is accepted, encodes as in the test and holds 8 cells |
| ElementTypes.VtkTypeOf | enthought/tvtk/tests/test_array_handler.py:37-60 | no numeric type converts to a bit array; the VTK type is signed exactly for the signed integer types, so characters are stored as unsigned codes, and floating exactly for the float types |
| ElementTypes.TypeRoundTrip | enthought/tvtk/tests/test_array_handler.py:86-94 | numeric type to VTK type and back is the identity except that characters come back as UInt8 codes; every non-bit VTK type is reached |
| ElementTypes.CharacterCodes | enthought/tvtk/tests/test_array_handler.py:37-53 | a character array holds exactly the codes 0..255, which its VTK array keeps; the characters made from -128, 0 and 127 are the codes 128, 0 and 127 |
| ElementTypes.Cast | enthought/tvtk/tests/test_array_handler.py:51-58 | the stored value is representable in the array's type, and a representable value is stored unchanged |
| ElementTypes.CastAll | enthought/tvtk/tests/test_array_handler.py:51-60 | storing a sequence stores each element, in order, with the length kept |
| ElementTypes.CastAllFitting | enthought/tvtk/tests/test_array_handler.py:80-94 | storing values that are already representable changes none of them |
| ElementTypes.FitsReadBack | enthought/tvtk/tests/test_array_handler.py:86-91 | a value of a VTK array fits the numeric type it is read back as |
| ElementTypes.WideningKeepsValues | enthought/tvtk/tests/test_array_handler.py:96-103 | Int8 values survive storing into a double or id-type array |
| ElementTypes.WrapExamples | enthought/tvtk/tests/test_array_handler.py:51-58 | 128 wraps to -128 in a char array, 2^32 to 0 in an unsigned int array, 5 becomes 1 in a bit array |
| DataArrays.NumArray.constructor | enthought/tvtk/tests/test_array_handler.py:51-78 | a new numeric array's buffer is fresh and holds the values stored as its type; every element is typed |
| DataArrays.NumArray.Set | enthought/tvtk/tests/test_array_handler.py:125 | writing one element changes that element only, storing the value as the array's type |
| DataArrays.Toolkit.NewArray | enthought/tvtk/tests/test_array_handler.py:98 | a new empty VTK array of the given type, under a handle not used before; the cache is unchanged |
| DataArrays.Toolkit.InsertNextValue | enthought/tvtk/tests/test_array_handler.py:106-110 | the array's values gain the stored value at the end and one more tuple |
| DataArrays.Toolkit.Array2Vtk | enthought/tvtk/tests/test_array_handler.py:80-156 | the target comes back when given, else a new array of the matching type; the shape is the input's; with equal element types the very input buffer is read, otherwise a converted copy; a non-bit result's buffer is cached under its handle; a bit result leaves the cache alone |
| DataArrays.Toolkit.Bind | enthought/tvtk/tests/test_array_handler.py:129-131 | a live array reads the given buffer with the given shape, recorded in the cache unless it is a bit array |
| DataArrays.Toolkit.Vtk2Array | enthought/tvtk/tests/test_array_handler.py:357-366 | the result has the matching numeric type, the array's shape (1-D for one component) and its values; a cached array is read back as the cached buffer itself, any other as a fresh copy |
| DataArrays.Toolkit.Destroy | enthought/tvtk/tests/test_array_handler.py:140-146 | destroying an array removes exactly its cache entry: the key is gone and the cache shrinks by one if it was there |
| DataArrays.Toolkit.RoundTrip | enthought/tvtk/tests/test_array_handler.py:76-94 | the new VTK array has the array's type, tuples, components and values and is cached under its handle; reading it back keeps shape and values, keeps 1-D arrays 1-D, gives characters back as UInt8 codes, and shares the original memory for every other type |
| DataArrays.ConvertIntoDoubleTarget | enthought/tvtk/tests/test_array_handler.py:96-103 | converting an Int8 array into a given double array returns that same array with 3 tuples and the values kept |
| DataArrays.BitValues | enthought/tvtk/tests/test_array_handler.py:105-117 | 0 and 1 are stored unchanged in a bit array |
| DataArrays.AppendBitPair | enthought/tvtk/tests/test_array_handler.py:106-110 | two `InsertNextValue` calls append 0 and 1 to a bit array |
| DataArrays.FillBits | enthought/tvtk/tests/test_array_handler.py:106-110 | a new bit array filled by `InsertNextValue` holds 0, 1, 0, 1 |
| DataArrays.BitArrayRoundTrip | enthought/tvtk/tests/test_array_handler.py:105-117 | that bit array reads back as `[0,1,0,1]` and converting it back into the bit array holds `[0,1,0,1]` |
| DataArrays.ConvertDoubles | enthought/tvtk/tests/test_array_handler.py:121-122 | a 2 x 3 double array converts to a VTK array reading its very buffer, cached under the handle |
| DataArrays.WriteFirstRow | enthought/tvtk/tests/test_array_handler.py:125 | writing the first row stores 10, 20, 30 |
| DataArrays.DestroyCached | enthought/tvtk/tests/test_array_handler.py:140-146 | destroying an array with a cache entry shrinks the cache by one and removes the key |
| DataArrays.SharedConversionLifetime | enthought/tvtk/tests/test_array_handler.py:119-146 | a write to the source is seen as the VTK array's first tuple `(10,20,30)`, the cache holds the source buffer, and destroying the VTK array removes exactly that entry |
| DataArrays.ConvertIntoBits | enthought/tvtk/tests/test_array_handler.py:149-151 | converting into a bit array copies the values into storage other than the source's, without a cache entry |
| DataArrays.BitTargetIsCopied | enthought/tvtk/tests/test_array_handler.py:148-156 | later writes to the source do not reach the bit array, which still holds `[0,1,0,1]`, and the cache did not grow |
| Geometry.PointsOf | enthought/tvtk/tests/test_array_handler.py:216-219 | point i is the triple of row i, for every row |
| Geometry.FillIds | enthought/tvtk/tests/test_array_handler.py:162-163 | a reset id list filled from a row holds exactly the row |
| Geometry.InsertRows | enthought/tvtk/tests/test_array_handler.py:170-182 | after a reset, inserting every row leaves exactly the encoding of the rows and their count, whatever was there before |
| Geometry.EncodeBlockList | enthought/tvtk/tests/test_array_handler.py:196-203 | the loop over blocks builds the encoding of all their rows and counts them |
| Geometry.Array2VtkCellArray | enthought/tvtk/tests/test_array_handler.py:159-203 | succeeds exactly for a valid input; the result (the target when given, else a new object) holds the encoding of the input's rows and their number, replacing its old contents; a refused input leaves the target as it was |
| Geometry.Array2VtkPoints | enthought/tvtk/tests/test_array_handler.py:214-229 | succeeds exactly for an (n, 3) array; point i is row i; a target comes back as itself; a flat list is refused |
| Geometry.Array2VtkIdList | enthought/tvtk/tests/test_array_handler.py:232-246 | succeeds exactly for 1-D input; id i is element i; a target comes back as itself; nested input is refused |
| Geometry.CellTargetIsReset | enthought/tvtk/tests/test_array_handler.py:170-182 | with a target the same object comes back holding the test's encoding and 4 cells, and a second call still leaves 4 cells |
| Geometry.PointsTest | enthought/tvtk/tests/test_array_handler.py:214-229 | the points are `(0,0,0)` and `(1,1,1)`, the target is kept, and flat lists of length 2 and 3 are refused |
| Geometry.IdListTest | enthought/tvtk/tests/test_array_handler.py:232-246 | the ids are `[1,2,3,4,5]`, the target is kept and `[[1,2,3]]` is refused |
| Signatures.WithArity | enthought/tvtk/tests/test_array_handler.py:254-256 | the kept signatures are exactly those of the given arity |
| Signatures.GetCorrectSig | enthought/tvtk/tests/test_array_handler.py:248-307 | no signatures give none; one is taken as it is; among several, a TypeError exactly when none has the call's arity; a chosen one is declared, of the call's arity, and fits whenever several have that arity; when exactly one of several has it, that one is taken |
| Signatures.FirstFitFound | enthought/tvtk/tests/test_array_handler.py:279 | the first fit fits and no earlier signature does; nothing is found only when nothing fits |
| Signatures.FirstFitWithArity | enthought/tvtk/tests/test_array_handler.py:259-262 | dropping the signatures of another arity does not change the first fit |
| Signatures.GetCorrectSigFirstFit | enthought/tvtk/tests/test_array_handler.py:276-299 | with several candidates and an array argument, the choice is exactly the first declared signature that fits, and there is none exactly when nothing fits |
| Signatures.ArrayKindNames | enthought/tvtk/tests/test_array_handler.py:251-268 | the array kinds of the tests (data, id-type, cell and float arrays, points, id lists) are array kinds |
| Signatures.ScalarKindNames | enthought/tvtk/tests/test_array_handler.py:316-318 | `int`, `Prop`, `Points` and every tuple kind are not array kinds |
| Signatures.SignatureTableArity | enthought/tvtk/tests/test_array_handler.py:251-290 | rows 1 to 5 of the table: None, the single signatures, the TypeError and the only signature of the right arity |
| Signatures.SignatureRowOneCandidate | enthought/tvtk/tests/test_array_handler.py:256 | row 6: the only two-parameter signature is taken |
| Signatures.FirstOfTwoChosen | enthought/tvtk/tests/test_array_handler.py:257 | a scalar then an array choose the first of two signatures when it wants an array second |
| Signatures.SignatureRowArrayFits | enthought/tvtk/tests/test_array_handler.py:257 | row 7 gives `['int', 'vtkDataArray']` |
| Signatures.NoArrayNoSig | enthought/tvtk/tests/test_array_handler.py:277-278 | several candidates but no array argument give no choice |
| Signatures.SignatureRowsNoArrays | enthought/tvtk/tests/test_array_handler.py:258-260 | rows 8 and 9 give None |
| Signatures.SecondOfThreeChosen | enthought/tvtk/tests/test_array_handler.py:279 | when the first signature wants an array first, a scalar then an array choose the second |
| Signatures.SignatureRowAmbiguous | enthought/tvtk/tests/test_array_handler.py:261-262 | row 10 gives `['int', 'vtkPoints']` |
| Signatures.SignatureRowNumericArray | enthought/tvtk/tests/test_array_handler.py:263-264 | row 11 gives `['vtkIdTypeArray', 'vtkCellArray']` |
| Signatures.SignatureRowArrayObject | enthought/tvtk/tests/test_array_handler.py:265-266 | row 12: a TVTK array object counts as an array and gives `['vtkIdTypeArray', 'vtkCellArray']` |
| Signatures.SignatureRowArrayObjectSecond | enthought/tvtk/tests/test_array_handler.py:267-268 | row 13 still gives `['vtkIdTypeArray', 'vtkCellArray']` |
| Dereference.ConvertArray | enthought/tvtk/tests/test_array_handler.py:311-339 | an array is always converted: to a cell array, points or an id list exactly for those kind names, otherwise to a data array |
| Dereference.Deref | enthought/tvtk/tests/test_array_handler.py:309-355 | one native argument per argument; scalars, strings and tuples pass and wrappers are unwrapped; without a signature every array goes through `array2vtk`; with one, an array at an array kind goes to the converter that kind names and an array at any other kind passes unchanged; the TypeError and a too-short signature are the only errors |
| Dereference.DerefWithoutSignatures | enthought/tvtk/tests/test_array_handler.py:309-355 | no signature list and an empty one dereference alike, and never fail |
| Dereference.DerefPlainIdentity | enthought/tvtk/tests/test_array_handler.py:345-347 | a list of plain values reaches VTK unchanged |
| Dereference.DerefBySignature | enthought/tvtk/tests/test_array_handler.py:311-328 | a single long-enough signature is applied position by position |
| Dereference.OneArrayArgument | enthought/tvtk/tests/test_array_handler.py:329-339 | one array at an array kind goes to the converter that kind names |
| Dereference.TwoArguments | enthought/tvtk/tests/test_array_handler.py:341-343 | two arguments under a two-kind signature are dereferenced position by position |
| Dereference.ThreeArguments | enthought/tvtk/tests/test_array_handler.py:345-353 | three arguments under a three-kind signature are dereferenced position by position |
| Dereference.PlainPasses | enthought/tvtk/tests/test_array_handler.py:345-347 | a plain value passes at any kind |
| Dereference.ToDataArray | enthought/tvtk/tests/test_array_handler.py:329-330 | an array at `vtkDataArray` goes through `array2vtk` |
| Dereference.DerefSingleArrays | enthought/tvtk/tests/test_array_handler.py:329-339 | cases 1 to 4: data array, float array, cell array of 2 cells, points |
| Dereference.DerefScalarAndIdList | enthought/tvtk/tests/test_array_handler.py:341-343 | case 5: the scalar passes and the list becomes an id list |
| Dereference.DerefTupleArgument | enthought/tvtk/tests/test_array_handler.py:345-348 | case 6: scalar and tuple pass, the list becomes a data array |
| Dereference.DerefWrappedArgument | enthought/tvtk/tests/test_array_handler.py:350-353 | case 7: the wrapper is unwrapped, the scalar passes, the numeric array becomes a data array |
| Dereference.DerefNonArrayKinds | enthought/tvtk/tests/test_array_handler.py:355 | case 8: lists at kinds that are not array kinds pass unchanged |
| MayaviEngine.CurrentSceneOf | enthought/mayavi/core/engine.py:496-507 | none exactly when there are no scenes; the only scene when there is one; a managed scene whenever the recorded one is managed |
| MayaviEngine.CurrentSceneSeveral | enthought/mayavi/core/engine.py:502-505 | with several scenes the recorded current scene wins, and without one the last scene is taken |
| MayaviEngine.CurrentObjectOf | enthought/mayavi/core/engine.py:514-520 | the recorded object if set, else the current scene, else none exactly when there are no scenes |
| MayaviEngine.SelectionFilter | enthought/mayavi/core/engine.py:530-535 | something is kept exactly when it is a Base or an adder node, and then unchanged |
| MayaviEngine.SelectionFilterIdempotent | enthought/mayavi/core/engine.py:530-535 | setting the selection twice is setting it once |
| MayaviEngine.FirstManaged | enthought/mayavi/core/engine.py:380-384 | the first position of a scene wrapping the TVTK scene, and none exactly when no scene does |
| MayaviEngine.Removed | enthought/mayavi/core/engine.py:380-387 | one scene fewer when the TVTK scene is managed, the same scenes otherwise |
| MayaviEngine.DropAtDistinct | enthought/mayavi/core/engine.py:387 | dropping one of distinct scenes keeps them distinct |
| MayaviEngine.DropAtMembers | enthought/mayavi/core/engine.py:387 | dropping one of distinct scenes keeps exactly the scenes wrapping other TVTK scenes |
| MayaviEngine.RemovedKeepsOthers | enthought/mayavi/core/engine.py:380-387 | with distinct scenes, removal keeps exactly the scenes wrapping other TVTK scenes, still distinct and in order: those before the removed position stay put, those after it move up by one |
| MayaviEngine.RemoveLast | enthought/mayavi/core/engine.py:150-151 | removing the last of distinct scenes leaves the ones before it, in order |
| MayaviEngine.SceneOfSelection | enthought/mayavi/core/engine.py:487-494 | a managed scene wrapping the object's TVTK scene, and none exactly when the object has none or it is not managed |
| MayaviEngine.SourceTargetOf | enthought/mayavi/core/engine.py:186-202 | a given scene is refused exactly when unmanaged, else the managed scene wrapping its TVTK scene; without one, a new scene exactly when there are none, else the current scene |
| MayaviEngine.FilterTargetOf | enthought/mayavi/core/engine.py:212-232 | accepted exactly for a running pipeline object; each error exactly in its own case (not a Base, a scene, not running) |
| MayaviEngine.ChildrenUiListOf | enthought/mayavi/core/engine.py:546-553 | a single adder node when helpers are shown and there are no scenes, else the scenes in order |
| MayaviEngine.NatToString | enthought/mayavi/core/engine.py:354 | a non-empty string of decimal digits |
| MayaviEngine.NatToStringValue | enthought/mayavi/core/engine.py:354 | the digits `%d` writes spell the number back |
| MayaviEngine.SceneTitleInjective | enthought/mayavi/core/engine.py:354 | two generated titles are equal exactly when their counter values are |
| MayaviEngine.WithViewersEntries | enthought/mayavi/core/engine.py:415-424 | recording new scenes' viewers adds exactly their TVTK numbers, each mapped to its own viewer, and keeps every other entry |
| MayaviEngine.IdGenerator.constructor | enthought/mayavi/core/engine.py:41-44 | the counter starts at 1 |
| MayaviEngine.IdGenerator.Next | enthought/mayavi/core/engine.py:45-47 | yields the counter and increments it |
| MayaviEngine.GeneratorSequence | enthought/mayavi/core/engine.py:41-48 | the first three values are 1, 2, 3 |
| MayaviEngine.Engine.constructor | enthought/mayavi/core/engine.py:126-134 | a valid engine with no scenes, no current scene, object or selection, and no viewers |
| MayaviEngine.Engine.CurrentScene | enthought/mayavi/core/engine.py:496-507 | none exactly when there are no scenes, and a managed scene in a valid engine |
| MayaviEngine.Engine.SetCurrentSelection | enthought/mayavi/core/engine.py:530-535 | the selection becomes the filtered object, nothing else changes, validity is kept |
| MayaviEngine.Engine.AddScene | enthought/mayavi/core/engine.py:330-363 | exactly one scene is appended and becomes current; its name is the given one, else the TVTK scene's own, else the next generated title (advancing the counter only then) |
| MayaviEngine.RemovedWithin | enthought/mayavi/core/engine.py:380-390 | removing a scene leaves only scenes that were managed before |
| MayaviEngine.Engine.RemoveSceneAsWritten | enthought/mayavi/core/engine.py:366-390 | the first scene wrapping the TVTK scene is removed and its viewer forgotten; the recorded current scene is kept as it was |
| MayaviEngine.Engine.RemoveScene | enthought/mayavi/core/engine.py:366-390 | the same removal, with the current scene cleared when it is no longer managed, so validity is kept |
| MayaviEngine.Engine.NewScene | enthought/mayavi/core/engine.py:393-440 | a scene around the factory's next TVTK scene, never one the engine has been given, with the next generated title is appended and current; its viewer is remembered; distinct scenes stay distinct; the current object, selection and pipeline are kept |
| MayaviEngine.Engine.CloseScene | enthought/mayavi/core/engine.py:444-462 | removes the scene it wraps and its viewer through the removal as written, so the recorded current scene is kept |
| MayaviEngine.Engine.CloseLastScene | enthought/mayavi/core/engine.py:150-151 | one scene fewer; with distinct scenes exactly the last one is gone; only the last scene's viewer is forgotten; the recorded current scene, current object, selection and pipeline are kept |
| MayaviEngine.Engine.CloseExtraScenes | enthought/mayavi/core/engine.py:149-151 | closes scenes from the end until the saved count remains; with distinct scenes the first ones are kept and exactly the closed scenes' viewers are forgotten, and in any case no viewer entry is added or changed; the recorded current scene, current object, selection and pipeline are kept |
| MayaviEngine.Engine.OpenMissingScenes | enthought/mayavi/core/engine.py:152-154 | from any state, makes new scenes until the saved count, keeping the old scenes as a prefix; the new scenes take the factory's next numbers in turn and their viewers are recorded; the title counter advances once per new scene; after at least one the last new scene is current; the current object, selection and pipeline are kept |
| MayaviEngine.Engine.SetPureState | enthought/mayavi/core/engine.py:144-156 | afterwards there are exactly as many scenes as saved; shrinking keeps the first ones and forgets exactly the closed viewers (distinct scenes) and keeps the recorded current scene and the counters; growing keeps all the old ones as a prefix, numbers and records the new ones, advances the title counter by their number and leaves the last new scene current; the current object, selection and pipeline are kept |
| MayaviEngine.ClosedNumberNotReused | enthought/mayavi/core/engine.py:186-195 | after a closed scene, a new scene wraps a TVTK scene of its own, so adding a source to the closed scene is refused as unmanaged |
| MayaviEngine.Engine.AddSource | enthought/mayavi/core/engine.py:183-204 | an unmanaged given scene fails and changes nothing; otherwise exactly one child is added under the chosen scene (a new one when there were none, whose viewer is recorded) and the source becomes the current object; from a state whose recorded current scene was removed, the source goes under that removed scene |
| MayaviEngine.Engine.AddFilter | enthought/mayavi/core/engine.py:207-232 | adds exactly one child under a running pipeline object (given or current) and makes the filter current; otherwise fails with the matching error and changes nothing |
| MayaviEngine.Engine.OnSelect | enthought/mayavi/core/engine.py:481-494 | the selection is filtered, the object (or `None`) becomes current, and the managed scene a selected node belongs to, if any, becomes the current scene; selecting `None` keeps the current scene |
| MayaviEngine.Engine.OnSceneActivated | enthought/mayavi/core/engine.py:540-544 | the managed scene wrapping the TVTK scene becomes current; otherwise nothing changes |
| MayaviEngine.Engine.OnSceneClosed | enthought/mayavi/core/engine.py:537-538 | the closing viewer's scene is removed through the removal as written, so the recorded current scene is kept |
| MayaviEngine.StaleCurrentScene | enthought/mayavi/core/engine.py:380-390 | after three scenes are added and the third removed as the source does it, `current_scene` answers an unmanaged scene |
| MayaviEngine.CurrentSceneAfterRemoval | enthought/mayavi/core/engine.py:496-507 | with the corrected removal the same steps make the remaining last scene current |
| MayaviEngine.PureStateCounts | enthought/mayavi/core/engine.py:144-154 | from two scenes, reconciling to 1 keeps the first, and then to 3 gives three |
| MayaviMetadata.CountZero | enthought/mayavi/core/metadata.py:75 | no occurrence counted exactly when the character is absent |
| MayaviMetadata.Split | enthought/mayavi/core/metadata.py:82 | `str.split` never yields an empty list |
| MayaviMetadata.SplitParts | enthought/mayavi/core/metadata.py:76 | one more piece than separators, and no piece holds a separator |
| MayaviMetadata.JoinSplit | enthought/mayavi/core/metadata.py:82-84 | joining the pieces of a split gives back the string |
| MayaviMetadata.SplitJoin | enthought/mayavi/core/metadata.py:108 | splitting a join of separator-free pieces gives back the pieces |
| MayaviMetadata.SplitSnoc | enthought/mayavi/core/metadata.py:82-85 | a separator-free last piece is split off as the last component |
| MayaviMetadata.ParseSymbolPath | enthought/mayavi/core/metadata.py:75-85 | an error exactly with two or more colons; one colon splits into module and expression that rejoin to the path; otherwise a dot-free last name whose module part rejoins to the path, or an empty module part without a dot |
| MayaviMetadata.DottedRoundTrip | enthought/mayavi/core/metadata.py:81-85 | a module and a dot-free name joined by a dot parse back into them |
| MayaviMetadata.ColonRoundTrip | enthought/mayavi/core/metadata.py:75-76 | a module and an expression joined by a colon parse back into them |
| MayaviMetadata.TwoColonsRefused | enthought/mayavi/core/metadata.py:76 | a path with two colons is refused |
| MayaviMetadata.WalkAppend | enthought/mayavi/core/metadata.py:108-110 | following two attribute lists in turn is following their concatenation |
| MayaviMetadata.WalkReachesModule | enthought/mayavi/core/metadata.py:106-110 | from a package, the attribute walk along consistent submodules reaches the full module |
| MayaviMetadata.ImportModuleFindsModule | enthought/mayavi/core/metadata.py:99-112 | when the packages along a name are consistent, `_import_module` returns the named module itself |
| MayaviMetadata.SymbolOf | enthought/mayavi/core/metadata.py:69-96 | a path with two colons is an error |
| MayaviMetadata.SymbolOfDotted | enthought/mayavi/core/metadata.py:81-91 | `module.Name` resolves to attribute `Name` of the importable module |
| MayaviMetadata.FactoryPath | enthought/mayavi/core/metadata.py:52-61 | no path exactly for a callable factory; a non-empty string factory is the path; otherwise `class_name` |
| MayaviMetadata.Metadata.constructor | enthought/mayavi/core/metadata.py:22-31 | the record holds its id, class name and factory, and nothing has been imported |
| MayaviMetadata.Metadata.ImportModule | enthought/mayavi/core/metadata.py:99-112 | the loop over the components computes `ModuleOf` |
| MayaviMetadata.Metadata.ImportSymbol | enthought/mayavi/core/metadata.py:69-96 | computes `SymbolOf`, and records the symbol exactly when one is found |
| MayaviMetadata.Metadata.GetCallable | enthought/mayavi/core/metadata.py:48-63 | a callable factory is returned unchanged and nothing is recorded; otherwise the chosen path is resolved and recorded |
| MayaviMetadata.DottedExample | enthought/mayavi/core/metadata.py:81-85 | `io.vtk.R` splits into `io.vtk` and `R` |
| MayaviMetadata.ColonExample | enthought/mayavi/core/metadata.py:75-76 | `io.vtk:f` splits into `io.vtk` and `f` |
| MayaviMetadata.TwoColonsExample | enthought/mayavi/core/metadata.py:76 | `a:b:c` is refused |
| MayaviMetadata.BareNameExample | enthought/mayavi/core/metadata.py:81-91 | a bare name has an empty module part, which never imports, whatever the environment |
| MayaviMetadata.ExampleEnvImports | enthought/mayavi/core/metadata.py:106-112 | `io.vtk` is imported through `io` and its attribute `vtk` |
| MayaviMetadata.ExampleColonSymbol | enthought/mayavi/core/metadata.py:75-79 | `io.vtk:f` resolves to the module's `f` |
| MayaviMetadata.ExampleDottedSymbol | enthought/mayavi/core/metadata.py:81-91 | `io.vtk.R` resolves to the module's `R` |
| MayaviMetadata.CallableExamples | enthought/mayavi/core/metadata.py:48-63 | a string factory resolves the factory, an empty one resolves the class name, and the symbol is recorded |
| ClassTree.MaxBaseLevelIsMax | enthought/tvtk/tests/test_class_tree.py:26 | `max` over the bases' levels bounds each of them and is reached by one |
| ClassTree.LevelOfBases | enthought/tvtk/tests/test_class_tree.py:21-26 | level 0 exactly without bases; every base is lower; some base is exactly one lower |
| ClassTree.Levels | enthought/tvtk/tests/test_class_tree.py:87-91 | one level per class |
| ClassTree.LevelsAgree | enthought/tvtk/tests/test_class_tree.py:87-91 | the tree's one-pass levels equal `get_level` |
| ClassTree.Height | enthought/tvtk/tests/test_class_tree.py:99-101 | every level is below the number of layers |
| ClassTree.Create | enthought/tvtk/tests/test_class_tree.py:93-97 | one node per class |
| ClassTree.NodeLevels | enthought/tvtk/tests/test_class_tree.py:87-91 | every node's level is `get_level` of its class |
| ClassTree.LayerMembers | enthought/tvtk/tests/test_class_tree.py:99-101 | a layer holds exactly the classes of its level |
| ClassTree.LayerSizesCount | enthought/tvtk/tests/test_class_tree.py:96-97 | the layer sizes add up to the number of classes |
| ClassTree.LayersPartition | enthought/tvtk/tests/test_class_tree.py:93-101 | the layer sizes add up to the node count, every node in layer k has level k, and every node lies in its level's layer |
| ClassTree.RootLayer | enthought/tvtk/tests/test_class_tree.py:39-40 | the first layer is exactly the classes without bases |
| ClassTree.ChildrenMembers | enthought/tvtk/tests/test_class_tree.py:82-85 | the children of a class are exactly the classes having it as a base |
| ClassTree.ParentChild | enthought/tvtk/tests/test_class_tree.py:70-85 | a node's parents are its class's bases, and c is a child of p exactly when p is a parent of c |
| ClassTree.Ancestors | enthought/tvtk/tests/test_class_tree.py:42-68 | every ancestor is defined before the class |
| ClassTree.AncestorsChain | enthought/tvtk/tests/test_class_tree.py:42-68 | on a single-inheritance chain: as many ancestors as the level, parent first, each the parent of the one before, a root last, exactly the classes reachable through bases, never the class itself |
| ClassTree.FindNode | enthought/tvtk/tests/test_class_tree.py:36 | the first class with that name, and none exactly when no class has it |
| ClassTree.Chain | enthought/tvtk/tests/test_class_tree.py:51-68 | a chain of names is a well-formed single-inheritance hierarchy, each class deriving from the one before |
| ClassTree.ChainAncestors | enthought/tvtk/tests/test_class_tree.py:51-68 | in a chain the ancestors are all earlier classes, nearest first |
| ClassTree.VtkArraysLevels | enthought/tvtk/tests/test_class_tree.py:87-91 | the VTK array chain has levels 0, 1, 2, 3 |
| ClassTree.VtkObjectNode | enthought/tvtk/tests/test_class_tree.py:36-38 | `vtkObject` is found, and its parent is `vtkObjectBase` |
| ClassTree.VtkRootLayer | enthought/tvtk/tests/test_class_tree.py:39-40 | layer 0 is `vtkObjectBase` alone |
| ClassTree.LayerOfLevels | enthought/tvtk/tests/test_class_tree.py:39 | levels 0, 1, 2, 3 put only the first class in layer 0 |
| ClassTree.HeightOfLevels | enthought/tvtk/tests/test_class_tree.py:99 | levels 0, 1, 2, 3 make four layers |
| ClassTree.VtkDataArrayAncestors | enthought/tvtk/tests/test_class_tree.py:51-54 | `vtkDataArray`'s ancestors are `vtkAbstractArray`, `vtkObject`, `vtkObjectBase` |
| ClassTree.TabErrorAncestors | enthought/tvtk/tests/test_class_tree.py:59-68 | `TabError`'s ancestors run from `IndentationError` up to `object` |
| ClassTree.TabErrorLevel | enthought/tvtk/tests/test_class_tree.py:103-113 | `TabError` is at level 6 |

## Left out

- `array_handler.py` is not part of this model; its operations are modelled from the assertions of its test suite.
- `class_tree.py` is not part of this model; the tree is modelled from the invariants its tests check.
- Reference counts (`GetReferenceCount() == 2`) and Python's garbage collector: releasing the numeric array (`del a`) is not an operation of the model, since the cache entry is what keeps the buffer alive, and the cache is unchanged by it.
- Floating-point element values and the float extremes: element values are integers, and the float types store every integer unchanged.
- The one-million-cell performance check: a statement about speed.
- The `GetTuple`/`GetComponent` readers beyond `DataArray.Component`; the tests' comparisons are stated on whole value sequences.
- The user interface in `enthought/mayavi/core/ui/engine_view.py`.
- Engine persistence (`__get_pure_state__`, `__getstate__`, `__setstate__`, `save_visualization`, `load_visualization`). `SetPureState` models only the scene-count reconciliation, not restoring each scene's state.
- `open`, with its reader registry, and `add_module`, which only forwards to `add_filter`.
- `start`, `stop`, `record`, `dialog_view`, the registry and the recorder.
- Trait notifications: `trait_property_changed`, `on_trait_change`, `sync_trait` and the viewer-title synchronisation.
- `preference_manager`: its `show_helper_nodes` flag is a parameter of `ChildrenUiListOf`.
- `scene_factory`, `GUI.process_events`, `get_args`, and the closing of windows in `close_scene`.
- `get_viewer`: it is used only to close the viewer window, which is outside the model.
- `MayaviEngine.Engine.NewScene`: the new TVTK scene number (the engine's `nextTvtk`) and its viewer are a model choice, since the scene factory is foreign.
- `MayaviEngine.Engine.NewScene`: only `new_scene()` without arguments is modelled; a caller-supplied `viewer` and the `name` given to the viewer (engine.py:393, :415-427) concern viewer objects, which are outside the model.
- The Numeric backend of `numerix` is the one modelled: character arrays exist only under it (`test_array_handler.py:52-53`), and `DataArrays.Toolkit.Destroy` removes the cache entry unconditionally, as the tests assert only for backends other than numpy (`test_array_handler.py:142-146`).
- `Dereference.Deref`: a chosen signature with fewer kinds than there are arguments is modelled as the error `MissingKind`; the tests do not pin that case.
- `MayaviMetadata.SymbolOf`: `eval` of the expression after a colon is modelled only for a plain attribute name. Python's `__import__` and `getattr` are the `Env` lookups.
- The subclasses `ModuleMetadata`, `FilterMetadata` and `SourceMetadata`, and the descriptive traits (`desc`, `help`, `menu_name`, `tooltip`): they add no behaviour.
- `ClassTree.Ancestors`: stated only for single inheritance, since the order `get_ancestors` uses under multiple inheritance comes from `class_tree.py`.
- Introspection of real Python and VTK modules: hierarchies are given as lists of classes, with the VTK array chain and the built-in exception chain written out.

## Findings

| source | as written | input that shows it | evidently intended | confidence | as-written member | corrected member |
|---|---|---|---|---|---|---|
| enthought/mayavi/core/engine.py:380-390 | `remove_scene` removes the scene from `scenes` but leaves `_current_scene` pointing at it; `close_scene` and `_on_scene_closed` inherit this | add scenes over TVTK scenes 1, 2 and 3 (the third becomes current), then `remove_scene` of TVTK scene 3: two scenes remain and `current_scene` returns the removed one | `current_scene` is always a managed scene; after removing the current scene it falls back to the last remaining one | not executed | MayaviEngine.Engine.RemoveSceneAsWritten, MayaviEngine.StaleCurrentScene | MayaviEngine.Engine.RemoveScene, MayaviEngine.CurrentSceneAfterRemoval |
