/**
 * Element types of numeric arrays and of VTK data arrays, the correspondence between them,
 * and what storing an integer into an array of a given VTK type makes of it (two's-complement
 * wrap-around for the integer types, 0/1 for bit arrays).  Floating-point element values are
 * modelled by integers: the float types store every value unchanged.
 */
module ElementTypes {

  /** Element types of a numeric (numerix) array; `Character` holds one-byte character codes. */
  datatype NumericType = Int8 | Character | UInt8 | Int16 | UInt16 | Int32 | UInt32 | Int64 | Float32 | Float64

  /** Element types of a VTK data array. */
  datatype VtkType =
    | VtkChar | VtkUnsignedChar | VtkShort | VtkUnsignedShort | VtkInt | VtkUnsignedInt
    | VtkIdType | VtkFloat | VtkDouble | VtkBit

  /**
   * The VTK array type a numeric array of the given type converts to.  Characters go to VTK's
   * unsigned char type, so the array holds the character codes 0..255.
   */
  function VtkTypeOf(t: NumericType): (v: VtkType)
    ensures v != VtkBit
    ensures IsSigned(v) <==> t in {Int8, Int16, Int32, Int64}
    ensures IsFloat(v) <==> t in {Float32, Float64}
  {
    match t
    case Int8 => VtkChar
    case Character => VtkUnsignedChar
    case UInt8 => VtkUnsignedChar
    case Int16 => VtkShort
    case UInt16 => VtkUnsignedShort
    case Int32 => VtkInt
    case UInt32 => VtkUnsignedInt
    case Int64 => VtkIdType
    case Float32 => VtkFloat
    case Float64 => VtkDouble
  }

  /** The numeric type a VTK array of the given type reads back as; bits are read as Int8 values. */
  function NumericTypeOf(v: VtkType): NumericType
  {
    match v
    case VtkChar => Int8
    case VtkUnsignedChar => UInt8
    case VtkShort => Int16
    case VtkUnsignedShort => UInt16
    case VtkInt => Int32
    case VtkUnsignedInt => UInt32
    case VtkIdType => Int64
    case VtkFloat => Float32
    case VtkDouble => Float64
    case VtkBit => Int8
  }

  /**
   * Converting a numeric type to VTK and back gives the same type, except that a character
   * array comes back as UInt8 holding the character codes; every non-bit VTK type is hit.
   */
  lemma TypeRoundTrip(t: NumericType, v: VtkType)
    ensures NumericTypeOf(VtkTypeOf(t)) == (if t == Character then UInt8 else t)
    ensures v != VtkBit ==> VtkTypeOf(NumericTypeOf(v)) == v
  {
  }

  predicate IsFloat(v: VtkType)
  {
    v == VtkFloat || v == VtkDouble
  }

  /** Number of distinct values of an integer VTK type: 2 to the power of its width in bits. */
  function Modulus(v: VtkType): (m: int)
    requires !IsFloat(v) && v != VtkBit
    ensures m > 0
  {
    match v
    case VtkChar => 0x100
    case VtkUnsignedChar => 0x100
    case VtkShort => 0x1_0000
    case VtkUnsignedShort => 0x1_0000
    case VtkInt => 0x1_0000_0000
    case VtkUnsignedInt => 0x1_0000_0000
    case VtkIdType => 0x1_0000_0000_0000_0000
  }

  predicate IsSigned(v: VtkType)
  {
    v == VtkChar || v == VtkShort || v == VtkInt || v == VtkIdType
  }

  /** Smallest value of an integer VTK type: minus half the modulus when signed, else 0. */
  function Low(v: VtkType): int
    requires !IsFloat(v) && v != VtkBit
  {
    if IsSigned(v) then -(Modulus(v) / 2) else 0
  }

  /** Whether a value is representable in an array of the given type. */
  predicate Fits(v: VtkType, x: int)
  {
    if IsFloat(v) then true
    else if v == VtkBit then x == 0 || x == 1
    else Low(v) <= x < Low(v) + Modulus(v)
  }

  /** Whether a value is representable in a numeric array of the given type. */
  predicate FitsNumeric(t: NumericType, x: int)
  {
    Fits(VtkTypeOf(t), x)
  }

  /**
   * The value an array of type `v` holds after `x` is stored into it: integer types keep the
   * low bits (two's complement for the signed ones), a bit array stores whether `x` is non-zero.
   */
  function Cast(v: VtkType, x: int): (y: int)
    ensures Fits(v, y)
    ensures Fits(v, x) ==> y == x
  {
    if IsFloat(v) then x
    else if v == VtkBit then (if x == 0 then 0 else 1)
    else (x - Low(v)) % Modulus(v) + Low(v)
  }

  function CastAll(v: VtkType, xs: seq<int>): (ys: seq<int>)
    ensures |ys| == |xs|
    ensures forall i :: 0 <= i < |xs| ==> ys[i] == Cast(v, xs[i])
  {
    seq(|xs|, i requires 0 <= i < |xs| => Cast(v, xs[i]))
  }

  ghost predicate AllFit(v: VtkType, xs: seq<int>)
  {
    forall i :: 0 <= i < |xs| ==> Fits(v, xs[i])
  }

  /** Storing values that are already representable changes none of them. */
  lemma CastAllFitting(v: VtkType, xs: seq<int>)
    requires AllFit(v, xs)
    ensures CastAll(v, xs) == xs
  {
  }

  /** A value that fits a VTK array type fits the numeric type it is read back as. */
  lemma FitsReadBack(v: VtkType, x: int)
    requires Fits(v, x)
    ensures FitsNumeric(NumericTypeOf(v), x)
  {
  }

  /**
   * A character array holds the codes 0..255, which its VTK array reads back unchanged: the
   * test's characters made from -128, 0 and 127 are the codes 128, 0 and 127.
   */
  lemma CharacterCodes(x: int)
    ensures FitsNumeric(Character, x) <==> 0 <= x < 0x100
    ensures FitsNumeric(Character, x) ==> Cast(VtkTypeOf(Character), x) == x
    ensures CastAll(VtkTypeOf(Character), [-128, 0, 127]) == [128, 0, 127]
  {
  }

  /** Int8 values survive a double array: the type-converting conversion of the test keeps them. */
  lemma WideningKeepsValues(x: int)
    requires FitsNumeric(Int8, x)
    ensures Cast(VtkDouble, x) == x && Cast(VtkIdType, x) == x
  {
  }

  /** 128 does not fit a VTK char and wraps to -128; 4294967296 wraps to 0 in an unsigned int array. */
  lemma WrapExamples()
    ensures Cast(VtkChar, 128) == -128
    ensures Cast(VtkUnsignedInt, 4294967296) == 0
    ensures Cast(VtkBit, 5) == 1
  {
  }
}
