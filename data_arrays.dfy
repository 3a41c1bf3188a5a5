/**
 * Conversion between numeric arrays and VTK data arrays (`array2vtk`, `vtk2array`) and the
 * module-level array cache that keeps a numeric buffer alive for as long as a VTK array reads
 * its memory.
 *
 * Memory is modelled by Dafny arrays: a VTK array that shares memory with a numeric array has
 * the very same `array<int>` object as its storage, so a write through one is seen through the
 * other.  The native side is a `Toolkit` object that hands out array handles (the `__this__`
 * addresses), knows which arrays are alive, and holds the cache keyed by handle.
 */
module DataArrays {
  import opened ElementTypes

  lemma IndexBound(i: nat, j: nat, n: nat, c: nat)
    requires i < n && j < c
    ensures i * c + j < n * c
  {
    assert (i + 1) * c <= n * c by {
      assert i + 1 <= n;
    }
  }

  /** A VTK data array: its element type is fixed, its shape and storage are set by conversions. */
  class DataArray {
    const handle: nat
    const dataType: VtkType
    var components: nat
    var tuples: nat
    var store: array<int>

    ghost predicate Valid()
      reads this
    {
      components >= 1 && store.Length == tuples * components
    }

    constructor (h: nat, t: VtkType)
      ensures handle == h && dataType == t
      ensures components == 1 && tuples == 0 && fresh(store) && store.Length == 0
      ensures Valid()
    {
      handle, dataType := h, t;
      components, tuples := 1, 0;
      store := new int[0];
    }

    function Values(): seq<int>
      reads this, store
    {
      store[..]
    }

    /** `GetComponent(i, j)`: component j of tuple i. */
    function Component(i: nat, j: nat): int
      reads this, store
      requires Valid() && i < tuples && j < components
    {
      IndexBound(i, j, tuples, components);
      store[i * components + j]
    }
  }

  /** A numeric array of shape (rows,) or (rows, columns), stored flat in row-major order. */
  class NumArray {
    const kind: NumericType
    const twoD: bool
    const rows: nat
    const columns: nat
    const buf: array<int>

    ghost predicate Valid()
      reads this
    {
      columns >= 1 && (!twoD ==> columns == 1) && buf.Length == rows * columns
    }

    /** Every element is a value of the array's element type. */
    ghost predicate Typed()
      reads this, buf
    {
      forall i :: 0 <= i < buf.Length ==> FitsNumeric(kind, buf[i])
    }

    /** `numerix.array(values, kind)`: a new array whose elements are the values stored as `kind`. */
    constructor (k: NumericType, isTwoD: bool, nRows: nat, nColumns: nat, values: seq<int>)
      requires nColumns >= 1 && (!isTwoD ==> nColumns == 1) && |values| == nRows * nColumns
      ensures kind == k && twoD == isTwoD && rows == nRows && columns == nColumns
      ensures fresh(buf) && buf[..] == CastAll(VtkTypeOf(k), values)
      ensures Valid() && Typed()
    {
      kind, twoD, rows, columns := k, isTwoD, nRows, nColumns;
      buf := new int[|values|](i requires 0 <= i < |values| => Cast(VtkTypeOf(k), values[i]));
    }

    /** An array object that looks at an existing buffer (a reshaped view). */
    constructor View(k: NumericType, isTwoD: bool, nRows: nat, nColumns: nat, b: array<int>)
      requires nColumns >= 1 && (!isTwoD ==> nColumns == 1) && b.Length == nRows * nColumns
      ensures kind == k && twoD == isTwoD && rows == nRows && columns == nColumns && buf == b
      ensures Valid()
    {
      kind, twoD, rows, columns, buf := k, isTwoD, nRows, nColumns, b;
    }

    /** `a.flat[i] = x`: the value is stored as the array's element type. */
    method Set(i: nat, x: int)
      requires i < buf.Length
      modifies buf
      ensures buf[..] == old(buf[..])[i := Cast(VtkTypeOf(kind), x)]
    {
      buf[i] := Cast(VtkTypeOf(kind), x);
    }
  }

  /** Whether a numeric array of type `k` is bound without copying to a VTK array of type `t`. */
  predicate SharesMemory(k: NumericType, t: VtkType)
  {
    t != VtkBit && NumericTypeOf(t) == k
  }

  /** A fresh buffer holding the elements of `src` stored as type `t`, copied one by one. */
  method CopyCast(src: array<int>, t: VtkType) returns (dst: array<int>)
    ensures fresh(dst) && dst[..] == CastAll(t, src[..])
  {
    dst := new int[src.Length];
    var i := 0;
    while i < src.Length
      invariant 0 <= i <= src.Length
      invariant forall k :: 0 <= k < i ==> dst[k] == Cast(t, src[k])
    {
      dst[i] := Cast(t, src[i]);
      i := i + 1;
    }
  }

  /** A fresh buffer holding the elements of `src` followed by `x`. */
  method Append(src: array<int>, x: int) returns (dst: array<int>)
    ensures fresh(dst) && dst[..] == src[..] + [x]
  {
    dst := new int[src.Length + 1];
    var i := 0;
    while i < src.Length
      invariant 0 <= i <= src.Length
      invariant forall k :: 0 <= k < i ==> dst[k] == src[k]
    {
      dst[i] := src[i];
      i := i + 1;
    }
    dst[src.Length] := x;
  }

  /** A fresh buffer holding the elements of `src`, copied one by one. */
  method Copy(src: array<int>) returns (dst: array<int>)
    ensures fresh(dst) && dst[..] == src[..]
  {
    dst := new int[src.Length];
    var i := 0;
    while i < src.Length
      invariant 0 <= i <= src.Length
      invariant forall k :: 0 <= k < i ==> dst[k] == src[k]
    {
      dst[i] := src[i];
      i := i + 1;
    }
  }

  /**
   * The native toolkit as the conversions see it: the live VTK arrays by handle, the next
   * fresh handle, and `_array_cache`, mapping a handle to the numeric buffer its array reads.
   */
  class Toolkit {
    var cache: map<nat, array<int>>
    ghost var live: map<nat, DataArray>
    var nextHandle: nat

    /**
     * Handles are unique and below `nextHandle`; every cache entry belongs to a live array,
     * is exactly the memory that array reads, and is never a bit array's.
     */
    ghost predicate Valid()
      reads this, live.Values
    {
      && (forall h | h in live :: live[h].handle == h && h < nextHandle && live[h].Valid())
      && (forall h | h in cache :: h in live && live[h].store == cache[h] && live[h].dataType != VtkBit)
    }

    ghost predicate Live(a: DataArray)
      reads this
    {
      a.handle in live && live[a.handle] == a
    }

    constructor ()
      ensures Valid() && cache == map[] && live == map[]
    {
      cache, live, nextHandle := map[], map[], 0;
    }

    /** Creating an empty VTK array of type `t` (`vtk.vtkDoubleArray()` and the like). */
    method NewArray(t: VtkType) returns (a: DataArray)
      requires Valid()
      modifies this
      ensures Valid() && fresh(a) && Live(a)
      ensures a.dataType == t && a.tuples == 0 && a.components == 1
      ensures a.handle !in old(live) && live == old(live)[a.handle := a] && cache == old(cache)
    {
      a := new DataArray(nextHandle, t);
      live := live[nextHandle := a];
      nextHandle := nextHandle + 1;
    }

    /** `InsertNextValue(x)` on a one-component array that owns its storage. */
    method InsertNextValue(a: DataArray, x: int)
      requires Valid() && Live(a) && a.handle !in cache && a.components == 1
      modifies a
      ensures Valid()
      ensures a.components == 1 && a.tuples == old(a.tuples) + 1 && fresh(a.store)
      ensures a.Values() == old(a.Values()) + [Cast(a.dataType, x)]
    {
      var bigger := Append(a.store, Cast(a.dataType, x));
      a.store := bigger;
      a.tuples := a.tuples + 1;
    }

    /**
     * `array2vtk(z, target)`.  The result is `target` when one is given, else a new array of the
     * type matching `z`.  Its shape is that of `z` (one component for a 1-D array).  When the
     * element types agree the VTK array reads `z`'s own memory; otherwise it reads a converted
     * copy.  Either way the buffer is recorded in the cache under the array's handle, replacing
     * any earlier entry.  A bit-array target is filled by copying instead and gets no cache entry.
     */
    method Array2Vtk(z: NumArray, target: DataArray?) returns (r: DataArray)
      requires Valid() && z.Valid()
      requires target != null ==> Live(target)
      modifies this, target
      ensures Valid() && Live(r)
      ensures target != null ==> r == target && live == old(live)
      ensures target == null ==>
                fresh(r) && r.dataType == VtkTypeOf(z.kind) && live == old(live)[r.handle := r]
      ensures r.tuples == z.rows && r.components == z.columns
      ensures SharesMemory(z.kind, r.dataType) ==> r.store == z.buf
      ensures !SharesMemory(z.kind, r.dataType) ==> fresh(r.store) && r.Values() == CastAll(r.dataType, z.buf[..])
      ensures z.Typed() ==> r.Values() == CastAll(r.dataType, z.buf[..])
      ensures r.dataType == VtkBit ==> cache == old(cache)
      ensures r.dataType != VtkBit ==> cache == old(cache)[r.handle := r.store]
    {
      var t := if target == null then VtkTypeOf(z.kind) else target.dataType;
      var buffer: array<int>;
      if SharesMemory(z.kind, t) {
        buffer := z.buf;
      } else {
        buffer := CopyCast(z.buf, t);
      }
      if target == null {
        r := NewArray(t);
      } else {
        r := target;
      }
      Bind(r, z.rows, z.columns, buffer);
      if z.Typed() && SharesMemory(z.kind, t) {
        assert VtkTypeOf(z.kind) == t;
        CastAllFitting(t, z.buf[..]);
      }
    }

    /**
     * `SetVoidArray`: a live array now reads `buffer` with the given shape.  A non-bit array's
     * buffer is recorded in the cache under its handle, replacing any earlier entry.
     */
    method Bind(r: DataArray, rows: nat, columns: nat, buffer: array<int>)
      requires Valid() && Live(r) && columns >= 1 && buffer.Length == rows * columns
      modifies this, r
      ensures Valid() && live == old(live) && nextHandle == old(nextHandle)
      ensures r.components == columns && r.tuples == rows && r.store == buffer
      ensures cache == if r.dataType == VtkBit then old(cache) else old(cache)[r.handle := buffer]
    {
      r.components, r.tuples, r.store := columns, rows, buffer;
      if r.dataType != VtkBit {
        cache := cache[r.handle := buffer];
      }
    }

    /**
     * `vtk2array(a)`.  The result has the numeric type matching `a`'s and shape (tuples,) for one
     * component, else (tuples, components).  An array whose buffer is cached is read back as that
     * very buffer (no copy); any other array is copied element by element.
     */
    method Vtk2Array(a: DataArray) returns (z: NumArray)
      requires Valid() && Live(a)
      ensures z.Valid() && z.kind == NumericTypeOf(a.dataType)
      ensures z.rows == a.tuples && z.columns == a.components && z.twoD == (a.components != 1)
      ensures z.buf[..] == a.Values()
      ensures a.handle in cache ==> z.buf == cache[a.handle] && z.buf == a.store
      ensures a.handle !in cache ==> fresh(z.buf)
    {
      var b: array<int>;
      if a.handle in cache {
        b := cache[a.handle];
      } else {
        b := Copy(a.store);
      }
      z := new NumArray.View(NumericTypeOf(a.dataType), a.components != 1, a.tuples, a.components, b);
    }

    /** The native array is destroyed: its cache entry, if any, goes with it. */
    method Destroy(a: DataArray)
      requires Valid() && Live(a)
      modifies this
      ensures Valid()
      ensures live == old(live) - {a.handle} && cache == old(cache) - {a.handle}
      ensures a.handle !in cache
      ensures a.handle in old(cache) ==> |cache| == |old(cache)| - 1
      ensures a.handle !in old(cache) ==> |cache| == |old(cache)|
    {
      if a.handle in cache {
        assert (cache - {a.handle}).Keys == cache.Keys - {a.handle};
      } else {
        assert cache - {a.handle} == cache;
      }
      cache := cache - {a.handle};
      live := live - {a.handle};
    }

    /**
     * The conversion test's loop: convert a typed array and read it back.  The VTK array has the
     * array's tuple and component counts and values and is cached under its handle; the array
     * read back has the same values, and a 1-D array stays 1-D.  A character array is stored and
     * read back as UInt8 codes through a converted copy; for every other type both the VTK array
     * and the array read back use the original memory.
     */
    method RoundTrip(z: NumArray) returns (r: DataArray, z1: NumArray)
      requires Valid() && z.Valid() && z.Typed()
      modifies this
      ensures Valid() && fresh(r) && Live(r) && r.dataType == VtkTypeOf(z.kind)
      ensures r.tuples == z.rows && r.components == z.columns && r.Values() == z.buf[..]
      ensures live == old(live)[r.handle := r] && cache == old(cache)[r.handle := r.store]
      ensures z1.buf[..] == z.buf[..] && z1.rows == z.rows && z1.columns == z.columns
      ensures !z.twoD ==> !z1.twoD
      ensures z1.kind == (if z.kind == Character then UInt8 else z.kind)
      ensures z.kind != Character ==> z1.buf == z.buf && r.store == z.buf
    {
      r := Array2Vtk(z, null);
      CastAllFitting(r.dataType, z.buf[..]);
      TypeRoundTrip(z.kind, r.dataType);
      z1 := Vtk2Array(r);
    }
  }

  /** Converting an Int8 array into a given double array: same object, 3 tuples, values kept. */
  method ConvertIntoDoubleTarget() returns (same: bool, tuples: nat, values: seq<int>)
    ensures same && tuples == 3 && values == [-128, 0, 127]
  {
    var tk := new Toolkit();
    var z := new NumArray(Int8, false, 3, 1, [-128, 0, 127]);
    var target := tk.NewArray(VtkDouble);
    var r := tk.Array2Vtk(z, target);
    same, tuples, values := r == target, r.tuples, r.Values();
  }

  /** The bits 0 and 1 are stored unchanged in a bit array. */
  lemma BitValues()
    ensures Cast(VtkBit, 0) == 0 && Cast(VtkBit, 1) == 1
    ensures CastAll(VtkBit, [0, 1, 0, 1]) == [0, 1, 0, 1]
  {
    assert Fits(VtkBit, 0) && Fits(VtkBit, 1);
  }

  /** Appends the bits 0 and 1 to a live bit array that owns its storage. */
  method AppendBitPair(tk: Toolkit, b: DataArray)
    requires tk.Valid() && tk.Live(b) && b.handle !in tk.cache && b.components == 1 && b.dataType == VtkBit
    modifies b
    ensures tk.Valid() && b.components == 1 && b.Values() == old(b.Values()) + [0, 1]
  {
    BitValues();
    tk.InsertNextValue(b, 0);
    tk.InsertNextValue(b, 1);
  }

  /** A new bit array of the toolkit, filled with 0, 1, 0, 1 by `InsertNextValue`. */
  method FillBits(tk: Toolkit) returns (b: DataArray)
    requires tk.Valid()
    modifies tk
    ensures tk.Valid() && tk.Live(b) && b.dataType == VtkBit && b.Values() == [0, 1, 0, 1]
    ensures fresh(b)
  {
    b := tk.NewArray(VtkBit);
    AppendBitPair(tk, b);
    AppendBitPair(tk, b);
  }

  /** A bit array filled with 0, 1, 0, 1 reads back as those values and accepts them back. */
  method BitArrayRoundTrip() returns (readBack: seq<int>, written: seq<int>)
    ensures readBack == [0, 1, 0, 1] && written == [0, 1, 0, 1]
  {
    var tk := new Toolkit();
    var b := FillBits(tk);
    var arr := tk.Vtk2Array(b);
    readBack := arr.buf[..];
    assert !SharesMemory(arr.kind, b.dataType);
    var r := tk.Array2Vtk(arr, b);
    assert r.Values() == CastAll(VtkBit, readBack);
    assert CastAll(VtkBit, [0, 1, 0, 1]) == [0, 1, 0, 1];
    written := r.Values();
  }

  /**
   * A converted double array shares memory with its source: a write to the source's first row
   * is seen through the VTK array, the cache holds the source buffer under the handle, and
   * destroying the VTK array removes exactly that entry.
   */
  method SharedConversionLifetime() returns (row0: seq<int>, cachedIsSource: bool, before: nat, after: nat, keyGone: bool)
    ensures row0 == [10, 20, 30] && cachedIsSource
    ensures after == before - 1 && keyGone
  {
    var tk := new Toolkit();
    var a, r := ConvertDoubles(tk);
    WriteFirstRow(a);
    row0 := [r.Component(0, 0), r.Component(0, 1), r.Component(0, 2)];
    cachedIsSource := tk.cache[r.handle] == a.buf;
    before, after, keyGone := DestroyCached(tk, r);
  }

  /** Destroying an array that has a cache entry removes exactly that entry. */
  method DestroyCached(tk: Toolkit, r: DataArray) returns (before: nat, after: nat, keyGone: bool)
    requires tk.Valid() && tk.Live(r) && r.handle in tk.cache
    modifies tk
    ensures after == before - 1 && keyGone
  {
    before := |tk.cache|;
    tk.Destroy(r);
    after := |tk.cache|;
    keyGone := r.handle !in tk.cache;
  }

  /** A new 2 x 3 double array, converted without a target. */
  method ConvertDoubles(tk: Toolkit) returns (a: NumArray, r: DataArray)
    requires tk.Valid()
    modifies tk
    ensures tk.Valid() && tk.Live(r) && r.Valid() && a.kind == Float64 && a.buf.Length == 6
    ensures fresh(a) && fresh(a.buf)
    ensures r.store == a.buf && r.tuples == 2 && r.components == 3
    ensures r.handle in tk.cache && tk.cache[r.handle] == a.buf
  {
    a := new NumArray(Float64, true, 2, 3, [1, 2, 3, 4, 5, 6]);
    r := tk.Array2Vtk(a, null);
  }

  /** Writes 10, 20 and 30 into the first three elements of a double array. */
  method WriteFirstRow(a: NumArray)
    requires a.kind == Float64 && a.buf.Length >= 3
    modifies a.buf
    ensures a.buf[..3] == [10, 20, 30]
  {
    assert Fits(VtkDouble, 10) && Fits(VtkDouble, 20) && Fits(VtkDouble, 30);
    a.Set(0, 10);
    a.Set(1, 20);
    a.Set(2, 30);
  }

  /** Converting into a bit array copies: later writes to the source do not reach it, no cache entry. */
  method BitTargetIsCopied() returns (values: seq<int>, cacheGrew: bool)
    ensures values == [0, 1, 0, 1] && !cacheGrew
  {
    var tk := new Toolkit();
    var before := |tk.cache|;
    var a, r := ConvertIntoBits(tk);
    a.Set(0, 1);
    a.Set(1, 0);
    values := r.Values();
    cacheGrew := |tk.cache| != before;
  }

  /** A new int array `[0, 1, 0, 1]` converted into a new bit array: a copy, and no cache entry. */
  method ConvertIntoBits(tk: Toolkit) returns (a: NumArray, r: DataArray)
    requires tk.Valid()
    modifies tk
    ensures fresh(a) && fresh(a.buf) && a.buf.Length == 4 && r.store != a.buf
    ensures r.Values() == [0, 1, 0, 1] && tk.cache == old(tk.cache)
  {
    BitValues();
    var b := tk.NewArray(VtkBit);
    a := new NumArray(Int32, false, 4, 1, [0, 1, 0, 1]);
    assert CastAll(VtkTypeOf(Int32), [0, 1, 0, 1]) == [0, 1, 0, 1] by {
      assert Fits(VtkTypeOf(Int32), 0) && Fits(VtkTypeOf(Int32), 1);
    }
    r := tk.Array2Vtk(a, b);
  }
}
