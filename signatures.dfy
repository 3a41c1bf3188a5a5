/**
 * Overload resolution for wrapped VTK methods (`get_correct_sig`) and the substitution of
 * native objects for array arguments (`deref_array`).  A signature is the list of parameter
 * kinds one overload declares; an argument is a Python value as far as these two functions
 * look at it.
 */
module Signatures {
  import opened Common
  import opened Geometry

  /** A parameter kind: a type name such as "int" or "vtkPoints", or a tuple of type names. */
  datatype Kind = Name(name: string) | TupleOf(names: seq<string>)

  type Signature = seq<Kind>

  /** An argument of a wrapped call. */
  datatype Arg =
    | Number(n: int)                      // an int or float scalar
    | Text(s: string)                     // a string
    | Tuple(items: seq<int>)              // a Python tuple
    | PyList(data: ArrayLike)             // a Python list, flat or nested
    | NumPy(data: ArrayLike)              // a numeric array
    | Wrapped(obj: nat, tuplesApi: bool)  // a TVTK object: its `_vtk_obj`, and whether that has GetNumberOfTuples

  /** `t` occurs in `s` as a contiguous piece. */
  predicate Occurs(t: string, s: string)
  {
    exists i :: 0 <= i <= |s| - |t| && OccursAt(t, s, i)
  }

  predicate OccursAt(t: string, s: string, i: nat)
    requires i <= |s| - |t|
  {
    s[i..i + |t|] == t
  }

  /** `is_array_sig`: a type name containing "Array", or "vtkPoints" or "vtkIdList"; never a tuple kind. */
  predicate IsArraySig(k: Kind)
  {
    k.Name? && (Occurs("Array", k.name) || k.name == "vtkPoints" || k.name == "vtkIdList")
  }

  /** `is_array`: a Python list or a numeric array. */
  predicate IsArray(a: Arg)
  {
    a.PyList? || a.NumPy?
  }

  /** `is_array_or_vtkarray`: an array, or a TVTK object wrapping a VTK data array. */
  predicate IsArrayOrVtkArray(a: Arg)
  {
    IsArray(a) || (a.Wrapped? && a.tuplesApi)
  }

  /** A signature fits the arguments exactly: same arity, array kinds at exactly the array arguments. */
  predicate Fits(args: seq<Arg>, sig: Signature)
  {
    |sig| == |args| && forall i :: 0 <= i < |args| ==> (IsArraySig(sig[i]) <==> IsArrayOrVtkArray(args[i]))
  }

  predicate HasArrayArg(args: seq<Arg>)
  {
    exists i :: 0 <= i < |args| && IsArrayOrVtkArray(args[i])
  }

  /** The signatures of the given arity, in declaration order. */
  function WithArity(sigs: seq<Signature>, n: nat): (r: seq<Signature>)
    ensures |r| <= |sigs|
    ensures forall s :: s in r <==> s in sigs && |s| == n
  {
    if sigs == [] then []
    else if |sigs[0]| == n then [sigs[0]] + WithArity(sigs[1..], n)
    else WithArity(sigs[1..], n)
  }

  /** The first signature, in declaration order, that fits the arguments. */
  function FirstFit(args: seq<Arg>, sigs: seq<Signature>): Option<Signature>
  {
    if sigs == [] then None
    else if Fits(args, sigs[0]) then Some(sigs[0])
    else FirstFit(args, sigs[1..])
  }

  datatype Choice = NoSig | Chosen(sig: Signature) | ArityError

  /**
   * `get_correct_sig(args, sigs)`: no signatures give no choice and a single signature is taken
   * as it is; among several, none of the right arity is a TypeError, exactly one is taken, and
   * otherwise the first that fits the array arguments is taken, none when there is no array
   * argument at all or no signature fits.
   */
  function GetCorrectSig(args: seq<Arg>, sigs: Option<seq<Signature>>): (r: Choice)
    ensures sigs == None || sigs == Some([]) ==> r == NoSig
    ensures sigs.Some? && |sigs.value| == 1 ==> r == Chosen(sigs.value[0])
    ensures r == ArityError <==>
              sigs.Some? && |sigs.value| >= 2 && forall s :: s in sigs.value ==> |s| != |args|
    ensures r.Chosen? ==> r.sig in sigs.value
    ensures r.Chosen? && |sigs.value| >= 2 ==> |r.sig| == |args|
    ensures r.Chosen? && |WithArity(sigs.value, |args|)| >= 2 ==> Fits(args, r.sig)
    ensures sigs.Some? && |sigs.value| >= 2 && |WithArity(sigs.value, |args|)| == 1 ==>
              r == Chosen(WithArity(sigs.value, |args|)[0])
  {
    match sigs
    case None => NoSig
    case Some(ss) =>
      if |ss| == 0 then NoSig
      else if |ss| == 1 then Chosen(ss[0])
      else
        var candidates := WithArity(ss, |args|);
        if |candidates| == 0 then
          assert forall s :: s in ss ==> |s| != |args|;
          ArityError
        else
          assert candidates[0] in candidates;
          if |candidates| == 1 then Chosen(candidates[0])
        else if !HasArrayArg(args) then NoSig
        else
          match FirstFit(args, candidates)
          case None => NoSig
          case Some(s) =>
            FirstFitFound(args, candidates);
            Chosen(s)
  }

  /** What FirstFit finds: a fitting signature preceded by none that fits, or nothing when none fits. */
  lemma {:induction false} FirstFitFound(args: seq<Arg>, sigs: seq<Signature>)
    ensures FirstFit(args, sigs).Some? ==>
              exists k :: 0 <= k < |sigs| && sigs[k] == FirstFit(args, sigs).value && Fits(args, sigs[k])
                          && forall j :: 0 <= j < k ==> !Fits(args, sigs[j])
    ensures FirstFit(args, sigs).None? ==> forall j :: 0 <= j < |sigs| ==> !Fits(args, sigs[j])
  {
    if sigs != [] && !Fits(args, sigs[0]) {
      FirstFitFound(args, sigs[1..]);
      if FirstFit(args, sigs[1..]).Some? {
        var k :| 0 <= k < |sigs[1..]| && sigs[1..][k] == FirstFit(args, sigs[1..]).value
                 && Fits(args, sigs[1..][k]) && forall j :: 0 <= j < k ==> !Fits(args, sigs[1..][j]);
        assert forall j :: 1 <= j < k + 1 ==> sigs[j] == sigs[1..][j - 1];
      } else {
        assert forall j :: 1 <= j < |sigs| ==> sigs[j] == sigs[1..][j - 1];
      }
    }
  }

  /** Dropping the signatures of another arity does not change the first fit. */
  lemma {:induction false} FirstFitWithArity(args: seq<Arg>, sigs: seq<Signature>)
    ensures FirstFit(args, WithArity(sigs, |args|)) == FirstFit(args, sigs)
  {
    if sigs != [] {
      FirstFitWithArity(args, sigs[1..]);
      if |sigs[0]| == |args| {
        assert WithArity(sigs, |args|)[1..] == WithArity(sigs[1..], |args|);
      }
    }
  }

  /**
   * With several signatures of the call's arity and an array argument, the choice is the first
   * declared signature that fits, and there is no choice exactly when none fits.
   */
  lemma GetCorrectSigFirstFit(args: seq<Arg>, sigs: seq<Signature>)
    requires |WithArity(sigs, |args|)| >= 2 && HasArrayArg(args)
    ensures GetCorrectSig(args, Some(sigs)) == NoSig <==> forall j :: 0 <= j < |sigs| ==> !Fits(args, sigs[j])
    ensures forall s :: GetCorrectSig(args, Some(sigs)) == Chosen(s) <==>
              exists k :: 0 <= k < |sigs| && sigs[k] == s && Fits(args, s)
                          && forall j :: 0 <= j < k ==> !Fits(args, sigs[j])
  {
    FirstFitWithArity(args, sigs);
    FirstFitFound(args, sigs);
    assert |sigs| >= 2;
    forall s | exists k :: 0 <= k < |sigs| && sigs[k] == s && Fits(args, s)
                           && forall j :: 0 <= j < k ==> !Fits(args, sigs[j])
      ensures GetCorrectSig(args, Some(sigs)) == Chosen(s)
    {
      var k :| 0 <= k < |sigs| && sigs[k] == s && Fits(args, s) && forall j :: 0 <= j < k ==> !Fits(args, sigs[j]);
      ChosenFirstFit(args, sigs, k);
    }
  }

  lemma {:induction false} FirstFitIs(args: seq<Arg>, sigs: seq<Signature>, k: nat)
    requires k < |sigs| && Fits(args, sigs[k]) && forall j :: 0 <= j < k ==> !Fits(args, sigs[j])
    ensures FirstFit(args, sigs) == Some(sigs[k])
  {
    if k > 0 {
      assert !Fits(args, sigs[0]);
      assert forall j :: 0 <= j < k - 1 ==> sigs[1..][j] == sigs[j + 1];
      FirstFitIs(args, sigs[1..], k - 1);
    }
  }

  /** The array kind names used by the tests. */
  lemma ArrayKindNames()
    ensures IsArraySig(Name("vtkDataArray")) && IsArraySig(Name("vtkIdTypeArray"))
    ensures IsArraySig(Name("vtkCellArray")) && IsArraySig(Name("vtkFloatArray"))
    ensures IsArraySig(Name("vtkPoints")) && IsArraySig(Name("vtkIdList"))
  {
    assert OccursAt("Array", "vtkDataArray", 7);
    assert OccursAt("Array", "vtkIdTypeArray", 9);
    assert OccursAt("Array", "vtkCellArray", 7);
    assert OccursAt("Array", "vtkFloatArray", 8);
  }

  /** The other kinds used by the tests: scalars, a caller-defined class, tuples. */
  lemma ScalarKindNames()
    ensures !IsArraySig(Name("int")) && !IsArraySig(Name("Prop")) && !IsArraySig(Name("Points"))
    ensures forall ns :: !IsArraySig(TupleOf(ns))
  {
    assert !Occurs("Array", "Points") by {
      forall i | 0 <= i <= 1 ensures !OccursAt("Array", "Points", i) {
        assert "Points"[i..i + 5][0] != 'A';
      }
    }
  }

  // The signatures and arguments of the overload-resolution test, row by row.
  const IntKind := Name("int")
  const DataArrayKind := Name("vtkDataArray")
  const IdListKind := Name("vtkIdList")
  const PointsKind := Name("vtkPoints")
  const CellArrayKind := Name("vtkCellArray")
  const IdTypeArrayKind := Name("vtkIdTypeArray")
  const Float3Kind := TupleOf(["float", "float", "float"])
  /** A TVTK wrapper of a vtkIdTypeArray. */
  const IdArrayObject := Wrapped(0, true)
  const List3 := PyList(Flat([1, 1, 1]))
  const List4 := PyList(Flat([2, 1, 2, 3]))

  /** Rows 1 to 5 of the overload-resolution test: no signatures, a single signature, the arity filter. */
  lemma SignatureTableArity()
    ensures GetCorrectSig([Number(1)], None) == NoSig
    ensures GetCorrectSig([Text("foo")], Some([[DataArrayKind]])) == Chosen([DataArrayKind])
    ensures GetCorrectSig([Number(1)], Some([[IntKind, IdListKind]])) == Chosen([IntKind, IdListKind])
    ensures GetCorrectSig([Number(1)], Some([[IntKind, PointsKind], [IntKind, IntKind]])) == ArityError
    ensures GetCorrectSig([Number(1)], Some([[IntKind, PointsKind], [IntKind]])) == Chosen([IntKind])
  {
    var s1: seq<Signature> := [[IntKind, PointsKind], [IntKind]];
    assert s1[1..] == [[IntKind]];
    assert WithArity(s1, 1) == [[IntKind]];
  }

  /** Several candidates and an array argument: the k-th signature is chosen when it is the first fit. */
  lemma ChosenFirstFit(args: seq<Arg>, sigs: seq<Signature>, k: nat)
    requires |WithArity(sigs, |args|)| >= 2 && HasArrayArg(args)
    requires k < |sigs| && Fits(args, sigs[k]) && forall j :: 0 <= j < k ==> !Fits(args, sigs[j])
    ensures GetCorrectSig(args, Some(sigs)) == Chosen(sigs[k])
  {
    FirstFitIs(args, sigs, k);
    FirstFitWithArity(args, sigs);
  }

  /** A two-parameter signature fits two arguments when each position agrees on being an array. */
  lemma FitsTwo(args: seq<Arg>, sig: Signature)
    requires |args| == 2 && |sig| == 2
    requires IsArraySig(sig[0]) <==> IsArrayOrVtkArray(args[0])
    requires IsArraySig(sig[1]) <==> IsArrayOrVtkArray(args[1])
    ensures Fits(args, sig)
  {
  }

  /** A signature does not fit when one position disagrees on being an array. */
  lemma MisfitAt(args: seq<Arg>, sig: Signature, i: nat)
    requires i < |args| && i < |sig|
    requires IsArraySig(sig[i]) != IsArrayOrVtkArray(args[i])
    ensures !Fits(args, sig)
  {
  }

  /** Three signatures of two kinds each all have arity 2. */
  lemma ArityTwo(sigs: seq<Signature>)
    requires |sigs| == 3 && |sigs[0]| == 2 && |sigs[1]| == 2 && |sigs[2]| == 2
    ensures WithArity(sigs, 2) == sigs
  {
    assert WithArity(sigs[2..], 2) == sigs[2..] by {
      assert sigs[2..][1..] == [];
    }
    assert sigs[1..][1..] == sigs[2..];
    assert sigs[1..] == [sigs[1]] + sigs[2..];
    assert sigs == [sigs[0]] + sigs[1..];
  }

  /** Row 6: of two signatures only one has the call's arity, and it is taken. */
  lemma SignatureRowOneCandidate()
    ensures GetCorrectSig([Number(1), List3], Some([[IntKind], [IntKind, PointsKind]])) == Chosen([IntKind, PointsKind])
  {
    var s6: seq<Signature> := [[IntKind], [IntKind, PointsKind]];
    assert s6[1..] == [[IntKind, PointsKind]];
    assert WithArity(s6, 2) == [[IntKind, PointsKind]];
  }

  /** Two two-parameter signatures and a scalar followed by an array: the one wanting an array second is taken. */
  lemma FirstOfTwoChosen(x: Arg, y: Arg, a: Kind, b: Kind, c: Kind, d: Kind)
    requires !IsArrayOrVtkArray(x) && IsArrayOrVtkArray(y)
    requires !IsArraySig(a) && IsArraySig(b)
    ensures GetCorrectSig([x, y], Some([[a, b], [c, d]])) == Chosen([a, b])
  {
    var args := [x, y];
    var sigs: seq<Signature> := [[a, b], [c, d]];
    assert sigs[1..] == [[c, d]];
    assert WithArity(sigs, 2) == sigs;
    FitsTwo(args, sigs[0]);
    assert IsArrayOrVtkArray(args[1]);
    ChosenFirstFit(args, sigs, 0);
  }

  /** Row 7: several candidates, the array argument picks the one with an array kind there. */
  lemma SignatureRowArrayFits()
    ensures GetCorrectSig([Number(1), List3], Some([[IntKind, DataArrayKind], [IntKind, IntKind]])) == Chosen([IntKind, DataArrayKind])
  {
    ArrayKindNames();
    ScalarKindNames();
    FirstOfTwoChosen(Number(1), List3, IntKind, DataArrayKind, IntKind, IntKind);
  }

  /** Several candidates of the call's arity but no array argument: nothing is chosen. */
  lemma NoArrayNoSig(args: seq<Arg>, sigs: seq<Signature>)
    requires |sigs| >= 2 && |WithArity(sigs, |args|)| >= 2 && !HasArrayArg(args)
    ensures GetCorrectSig(args, Some(sigs)) == NoSig
  {
  }

  /** Rows 8 and 9: with no array argument there is no choice, however many signatures fit the arity. */
  lemma SignatureRowsNoArrays()
    ensures GetCorrectSig([Number(1), Number(1)], Some([[IntKind, DataArrayKind], [IntKind, IntKind]])) == NoSig
    ensures GetCorrectSig([Number(1), Number(1)], Some([[IdListKind, CellArrayKind], [IntKind, PointsKind], [IntKind, DataArrayKind]])) == NoSig
  {
    var args := [Number(1), Number(1)];
    assert !HasArrayArg(args);
    var s7: seq<Signature> := [[IntKind, DataArrayKind], [IntKind, IntKind]];
    assert s7[1..] == [[IntKind, IntKind]];
    assert WithArity(s7, 2) == s7;
    NoArrayNoSig(args, s7);
    var s9: seq<Signature> := [[IdListKind, CellArrayKind], [IntKind, PointsKind], [IntKind, DataArrayKind]];
    ArityTwo(s9);
    NoArrayNoSig(args, s9);
  }

  /**
   * Three two-parameter signatures and a scalar followed by an array: when the first signature
   * wants an array first, the second one (scalar, then array) is the first fit.
   */
  lemma SecondOfThreeChosen(x: Arg, y: Arg, a: Kind, b: Kind, c: Kind, d: Kind, e: Kind)
    requires !IsArrayOrVtkArray(x) && IsArrayOrVtkArray(y)
    requires IsArraySig(a) && !IsArraySig(c) && IsArraySig(d)
    ensures GetCorrectSig([x, y], Some([[a, b], [c, d], [c, e]])) == Chosen([c, d])
  {
    var args := [x, y];
    var sigs: seq<Signature> := [[a, b], [c, d], [c, e]];
    ArityTwo(sigs);
    MisfitAt(args, sigs[0], 0);
    FitsTwo(args, sigs[1]);
    assert IsArrayOrVtkArray(args[1]);
    ChosenFirstFit(args, sigs, 1);
  }

  /** Row 10: an ambiguous call; the first declared signature that fits is taken. */
  lemma SignatureRowAmbiguous()
    ensures GetCorrectSig([Number(1), List3], Some([[IdListKind, CellArrayKind], [IntKind, PointsKind], [IntKind, DataArrayKind]]))
            == Chosen([IntKind, PointsKind])
  {
    ArrayKindNames();
    ScalarKindNames();
    SecondOfThreeChosen(Number(1), List3, IdListKind, CellArrayKind, IntKind, PointsKind, DataArrayKind);
  }

  /** Row 11: a numeric array and a list match the signature with two array kinds. */
  lemma SignatureRowNumericArray()
    ensures GetCorrectSig([NumPy(Flat([1, 1])), List3],
                          Some([[IdTypeArrayKind, CellArrayKind], [IntKind, PointsKind], [IntKind, DataArrayKind]]))
            == Chosen([IdTypeArrayKind, CellArrayKind])
  {
    ArrayKindNames();
    var args := [NumPy(Flat([1, 1])), List3];
    var s10: seq<Signature> := [[IdTypeArrayKind, CellArrayKind], [IntKind, PointsKind], [IntKind, DataArrayKind]];
    ArityTwo(s10);
    assert IsArrayOrVtkArray(args[0]) && IsArrayOrVtkArray(args[1]);
    FitsTwo(args, [IdTypeArrayKind, CellArrayKind]);
    assert HasArrayArg(args);
    ChosenFirstFit(args, s10, 0);
  }

  /** Row 12: a TVTK array object counts as an array argument. */
  lemma SignatureRowArrayObject()
    ensures GetCorrectSig([IdArrayObject, List4],
                          Some([[IdTypeArrayKind, CellArrayKind], [IntKind, PointsKind], [IntKind, DataArrayKind]]))
            == Chosen([IdTypeArrayKind, CellArrayKind])
  {
    ArrayKindNames();
    var args := [IdArrayObject, List4];
    var s10: seq<Signature> := [[IdTypeArrayKind, CellArrayKind], [IntKind, PointsKind], [IntKind, DataArrayKind]];
    ArityTwo(s10);
    assert IsArrayOrVtkArray(args[0]) && IsArrayOrVtkArray(args[1]);
    FitsTwo(args, [IdTypeArrayKind, CellArrayKind]);
    assert HasArrayArg(args);
    ChosenFirstFit(args, s10, 0);
  }

  /** Row 13: the same object in the other position still takes the first fit; VTK itself rejects the call. */
  lemma SignatureRowArrayObjectSecond()
    ensures GetCorrectSig([List4, IdArrayObject],
                          Some([[IdTypeArrayKind, CellArrayKind], [IntKind, PointsKind], [IntKind, Float3Kind]]))
            == Chosen([IdTypeArrayKind, CellArrayKind])
  {
    ArrayKindNames();
    var args := [List4, IdArrayObject];
    var s12: seq<Signature> := [[IdTypeArrayKind, CellArrayKind], [IntKind, PointsKind], [IntKind, Float3Kind]];
    ArityTwo(s12);
    assert IsArrayOrVtkArray(args[0]) && IsArrayOrVtkArray(args[1]);
    FitsTwo(args, [IdTypeArrayKind, CellArrayKind]);
    assert HasArrayArg(args);
    ChosenFirstFit(args, s12, 0);
  }
}
