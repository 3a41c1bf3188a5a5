/**
 * `deref_array(args, sigs)`: the argument list handed to a VTK method after array arguments
 * have been replaced by native objects.  Which converter applies is decided per position from
 * the chosen signature; the conversions themselves are the ones of the DataArrays and Geometry
 * modules, named here by the input they are applied to.
 */
module Dereference {
  import opened Common
  import opened CellEncoding
  import opened Geometry
  import opened Signatures

  /** What reaches VTK at one argument position. */
  datatype NativeArg =
    | Passed(arg: Arg)              // the argument itself
    | Unwrapped(obj: nat)           // the VTK object inside a TVTK wrapper
    | AsDataArray(data: ArrayLike)  // `array2vtk(data)`
    | AsCellArray(data: ArrayLike)  // `array2vtkCellArray(data)`
    | AsPoints(data: ArrayLike)     // `array2vtkPoints(data)`
    | AsIdList(data: ArrayLike)     // `array2vtkIdList(data)`

  datatype DerefError =
    | AmbiguousArity   // `get_correct_sig` raised TypeError
    | MissingKind      // the chosen signature has fewer kinds than there are arguments

  predicate IsConverted(n: NativeArg)
  {
    n.AsDataArray? || n.AsCellArray? || n.AsPoints? || n.AsIdList?
  }

  /** `convert_array(data, name)`: the geometry converters by exact name, any other array kind by `array2vtk`. */
  function ConvertArray(data: ArrayLike, name: string): (n: NativeArg)
    ensures IsConverted(n)
    ensures n.AsCellArray? <==> name == "vtkCellArray"
    ensures n.AsPoints? <==> name == "vtkPoints"
    ensures n.AsIdList? <==> name == "vtkIdList"
  {
    if name == "vtkCellArray" then AsCellArray(data)
    else if name == "vtkPoints" then AsPoints(data)
    else if name == "vtkIdList" then AsIdList(data)
    else AsDataArray(data)
  }

  /** One position: with a kind from a chosen signature, or with none. */
  function DerefOne(a: Arg, kind: Option<Kind>): NativeArg
  {
    match kind
    case Some(k) =>
      if IsArray(a) && IsArraySig(k) then ConvertArray(a.data, k.name)
      else if a.Wrapped? then Unwrapped(a.obj)
      else Passed(a)
    case None =>
      if IsArray(a) then AsDataArray(a.data)
      else if a.Wrapped? then Unwrapped(a.obj)
      else Passed(a)
  }

  /** The signature `deref_array` works with: one is looked for only when signatures are given. */
  function ChoiceFor(args: seq<Arg>, sigs: Option<seq<Signature>>): Choice
  {
    if sigs.Some? && sigs.value != [] then GetCorrectSig(args, sigs) else NoSig
  }

  /** A scalar, a string or a tuple: never converted. */
  predicate IsPlain(a: Arg)
  {
    a.Number? || a.Text? || a.Tuple?
  }

  /**
   * `deref_array(args, sigs)`: one native argument per argument.  Plain values pass through
   * and TVTK wrappers are unwrapped in every case.  With no signature every array goes through
   * `array2vtk`; with a chosen signature an array is converted exactly where the signature has
   * an array kind, by the converter that kind names, and passes through elsewhere.
   */
  function Deref(args: seq<Arg>, sigs: Option<seq<Signature>>): (r: Result<seq<NativeArg>, DerefError>)
    ensures r == Err(AmbiguousArity) <==> ChoiceFor(args, sigs) == ArityError
    ensures r == Err(MissingKind) <==> ChoiceFor(args, sigs).Chosen? && |ChoiceFor(args, sigs).sig| < |args|
    ensures r.Ok? ==> |r.value| == |args|
    ensures r.Ok? ==> forall i :: 0 <= i < |args| && IsPlain(args[i]) ==> r.value[i] == Passed(args[i])
    ensures r.Ok? ==> forall i :: 0 <= i < |args| && args[i].Wrapped? ==> r.value[i] == Unwrapped(args[i].obj)
    ensures r.Ok? && ChoiceFor(args, sigs) == NoSig ==>
              forall i :: 0 <= i < |args| && IsArray(args[i]) ==> r.value[i] == AsDataArray(args[i].data)
    ensures r.Ok? && ChoiceFor(args, sigs).Chosen? ==>
              forall i :: 0 <= i < |args| ==>
                (IsConverted(r.value[i]) <==> IsArray(args[i]) && IsArraySig(ChoiceFor(args, sigs).sig[i]))
    ensures r.Ok? && ChoiceFor(args, sigs).Chosen? ==>
              forall i :: 0 <= i < |args| && IsArray(args[i]) ==>
                r.value[i] == if IsArraySig(ChoiceFor(args, sigs).sig[i])
                              then ConvertArray(args[i].data, ChoiceFor(args, sigs).sig[i].name)
                              else Passed(args[i])
  {
    match ChoiceFor(args, sigs)
    case ArityError => Err(AmbiguousArity)
    case NoSig => Ok(seq(|args|, i requires 0 <= i < |args| => DerefOne(args[i], None)))
    case Chosen(sig) =>
      if |sig| < |args| then Err(MissingKind)
      else Ok(seq(|args|, i requires 0 <= i < |args| => DerefOne(args[i], Some(sig[i]))))
  }

  /** Without signatures, dereferencing is the same whatever signature list is absent or empty. */
  lemma DerefWithoutSignatures(args: seq<Arg>)
    ensures Deref(args, None) == Deref(args, Some([]))
    ensures Deref(args, None).Ok?
  {
  }

  /**
   * Dereferencing a list that holds no array and no wrapper hands every argument to VTK as it
   * is, whatever the signatures, unless resolution itself fails.
   */
  lemma DerefPlainIdentity(args: seq<Arg>, sigs: Option<seq<Signature>>)
    requires forall i :: 0 <= i < |args| ==> IsPlain(args[i])
    ensures Deref(args, sigs).Ok? ==> Deref(args, sigs).value == seq(|args|, i requires 0 <= i < |args| => Passed(args[i]))
  {
  }

  /** A single signature with a kind for every argument is used position by position. */
  lemma DerefBySignature(args: seq<Arg>, sig: Signature)
    requires |sig| >= |args|
    ensures Deref(args, Some([sig])) == Ok(seq(|args|, i requires 0 <= i < |args| => DerefOne(args[i], Some(sig[i]))))
  {
  }

  /** One array argument at an array kind goes to the converter the kind names. */
  lemma OneArrayArgument(x: Arg, k: Kind)
    requires IsArray(x) && IsArraySig(k)
    ensures Deref([x], Some([[k]])) == Ok([ConvertArray(x.data, k.name)])
  {
    DerefBySignature([x], [k]);
    var r := seq(1, i requires 0 <= i < 1 => DerefOne([x][i], Some([k][i])));
    assert r == [ConvertArray(x.data, k.name)] by {
      assert r[0] == DerefOne(x, Some(k));
    }
  }

  /** Two arguments under one signature of two kinds. */
  lemma TwoArguments(x: Arg, y: Arg, k1: Kind, k2: Kind)
    ensures Deref([x, y], Some([[k1, k2]])) == Ok([DerefOne(x, Some(k1)), DerefOne(y, Some(k2))])
  {
    DerefBySignature([x, y], [k1, k2]);
    var r := seq(2, i requires 0 <= i < 2 => DerefOne([x, y][i], Some([k1, k2][i])));
    assert r == [DerefOne(x, Some(k1)), DerefOne(y, Some(k2))] by {
      assert r[0] == DerefOne(x, Some(k1)) && r[1] == DerefOne(y, Some(k2));
    }
  }

  /** Three arguments under one signature of three kinds. */
  lemma ThreeArguments(x: Arg, y: Arg, z: Arg, k1: Kind, k2: Kind, k3: Kind)
    ensures Deref([x, y, z], Some([[k1, k2, k3]]))
            == Ok([DerefOne(x, Some(k1)), DerefOne(y, Some(k2)), DerefOne(z, Some(k3))])
  {
    DerefBySignature([x, y, z], [k1, k2, k3]);
    var r := seq(3, i requires 0 <= i < 3 => DerefOne([x, y, z][i], Some([k1, k2, k3][i])));
    assert r == [DerefOne(x, Some(k1)), DerefOne(y, Some(k2)), DerefOne(z, Some(k3))] by {
      assert r[0] == DerefOne(x, Some(k1)) && r[1] == DerefOne(y, Some(k2)) && r[2] == DerefOne(z, Some(k3));
    }
  }

  /** A plain value passes at any kind. */
  lemma PlainPasses(a: Arg, k: Kind)
    requires IsPlain(a)
    ensures DerefOne(a, Some(k)) == Passed(a)
  {
  }

  /** An array at the `vtkDataArray` kind goes through `array2vtk`. */
  lemma ToDataArray(x: Arg)
    requires IsArray(x)
    ensures DerefOne(x, Some(DataArrayKind)) == AsDataArray(x.data)
  {
    ArrayKindNames();
  }

  /** The dereferencing test, first four cases: one array argument and its signature's converter. */
  lemma DerefSingleArrays()
    ensures Deref([PyList(Flat([1, 2, 3]))], Some([[DataArrayKind]])) == Ok([AsDataArray(Flat([1, 2, 3]))])
    ensures Deref([PyList(Flat([0, 0, 0]))], Some([[Name("vtkFloatArray")]])) == Ok([AsDataArray(Flat([0, 0, 0]))])
    ensures Deref([PyList(Nested([[1, 2, 3], [4, 5, 6]]))], Some([[CellArrayKind]]))
            == Ok([AsCellArray(Nested([[1, 2, 3], [4, 5, 6]]))])
    ensures CellCount(Encode([[1, 2, 3], [4, 5, 6]])) == 2
    ensures Deref([PyList(Nested([[0, 0, 0], [1, 1, 1]]))], Some([[PointsKind]]))
            == Ok([AsPoints(Nested([[0, 0, 0], [1, 1, 1]]))])
  {
    ArrayKindNames();
    OneArrayArgument(PyList(Flat([1, 2, 3])), DataArrayKind);
    OneArrayArgument(PyList(Flat([0, 0, 0])), Name("vtkFloatArray"));
    OneArrayArgument(PyList(Nested([[1, 2, 3], [4, 5, 6]])), CellArrayKind);
    OneArrayArgument(PyList(Nested([[0, 0, 0], [1, 1, 1]])), PointsKind);
    DecodeEncode([[1, 2, 3], [4, 5, 6]]);
  }

  /** Case five: a scalar passes, a list at an id-list kind becomes an id list. */
  lemma DerefScalarAndIdList()
    ensures Deref([Number(1), PyList(Flat([1, 2, 3]))], Some([[IntKind, IdListKind]]))
            == Ok([Passed(Number(1)), AsIdList(Flat([1, 2, 3]))])
  {
    ArrayKindNames();
    ScalarKindNames();
    TwoArguments(Number(1), PyList(Flat([1, 2, 3])), IntKind, IdListKind);
  }

  /** Case six: a tuple passes unchanged beside a converted array. */
  lemma DerefTupleArgument()
    ensures Deref([Number(1), Tuple([0, 0]), PyList(Flat([1, 1, 1]))],
                  Some([[IntKind, TupleOf(["float", "float"]), DataArrayKind]]))
            == Ok([Passed(Number(1)), Passed(Tuple([0, 0])), AsDataArray(Flat([1, 1, 1]))])
  {
    ThreeArguments(Number(1), Tuple([0, 0]), PyList(Flat([1, 1, 1])), IntKind, TupleOf(["float", "float"]), DataArrayKind);
    PlainPasses(Number(1), IntKind);
    PlainPasses(Tuple([0, 0]), TupleOf(["float", "float"]));
    ToDataArray(PyList(Flat([1, 1, 1])));
  }

  const Prop := Wrapped(7, false)

  /** Case seven: a caller-defined wrapper is unwrapped, and a numeric array is converted. */
  lemma DerefWrappedArgument()
    ensures Deref([Prop, Number(1), NumPy(Flat([1, 1, 1]))],
                  Some([[Name("Prop"), IntKind, DataArrayKind]]))
            == Ok([Unwrapped(7), Passed(Number(1)), AsDataArray(Flat([1, 1, 1]))])
  {
    ThreeArguments(Prop, Number(1), NumPy(Flat([1, 1, 1])), Name("Prop"), IntKind, DataArrayKind);
    PlainPasses(Number(1), IntKind);
    ToDataArray(NumPy(Flat([1, 1, 1])));
  }

  /** Case eight: kinds that are not array kinds leave lists as they are. */
  lemma DerefNonArrayKinds()
    ensures Deref([PyList(Nested([[1, 2, 3]])), PyList(Flat([1, 2, 3]))],
                  Some([[Name("Points"), Float3Kind]]))
            == Ok([Passed(PyList(Nested([[1, 2, 3]]))), Passed(PyList(Flat([1, 2, 3])))])
  {
    ScalarKindNames();
    TwoArguments(PyList(Nested([[1, 2, 3]])), PyList(Flat([1, 2, 3])), Name("Points"), Float3Kind);
  }
}
