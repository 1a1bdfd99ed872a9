/**
 * The value encoder of `ZipkinApi`: `_binary_annotation_type` picks the Thrift
 * `AnnotationType` of a dynamically typed annotation value by an ordered chain of
 * `isinstance` tests, and `_format_binary_annotation_value` turns the value into the
 * bytes stored in a `BinaryAnnotation` according to that tag.
 */
module AnnotationValues {
  import opened Wrappers
  import opened Bytes
  import opened Text

  /**
   * The Python 2 values a caller may pass as an annotation value. `Str` is a byte
   * string (`str`), `Unicode` a text string (`unicode`), `Int` both `int` and `long`.
   * A `Float` is given by its IEEE-754 binary64 bit pattern and the text `str()` makes
   * of it; any other object by the text `str()` makes of it and its truth value.
   */
  datatype Value =
    | Str(bytes: seq<Byte>)
    | Unicode(text: string)
    | Float(bits: bv64, floatText: seq<Byte>)
    | Bool(b: bool)
    | Int(i: int)
    | Other(otherText: seq<Byte>, truthy: bool)

  /** The Thrift enum `AnnotationType` of the Zipkin core schema. */
  datatype AnnotationType = BoolType | BytesType | I16 | I32 | I64 | DoubleType | StringType

  /** The integer each `AnnotationType` member stands for in the generated Python code. */
  function TypeCode(t: AnnotationType): (code: nat)
    ensures code < 7
  {
    match t
    case BoolType => 0
    case BytesType => 1
    case I16 => 2
    case I32 => 3
    case I64 => 4
    case DoubleType => 5
    case StringType => 6
  }

  // ---------------------------------------------------------------- isinstance

  /** `isinstance(value, str) or isinstance(value, unicode)` */
  predicate IsText(v: Value) {
    v.Str? || v.Unicode?
  }

  /** `isinstance(value, float)` */
  predicate IsFloat(v: Value) {
    v.Float?
  }

  /** `isinstance(value, bool)` */
  predicate IsBool(v: Value) {
    v.Bool?
  }

  /** `isinstance(value, int) or isinstance(value, long)`: true of bools as well, since `bool` subclasses `int`. */
  predicate IsIntegral(v: Value) {
    v.Int? || v.Bool?
  }

  /** Python's truth value of `value`, as tested by `if value:`. */
  predicate Truthy(v: Value) {
    match v
    case Str(bs) => bs != []
    case Unicode(t) => t != []
    case Float(bits, _) => bits & 0x7FFF_FFFF_FFFF_FFFF != 0
    case Bool(b) => b
    case Int(i) => i != 0
    case Other(_, t) => t
  }

  /**
   * The bytes of the value's text: the UTF-8 encoding of a `unicode`, `str(value)` of
   * anything else (`'True'`/`'False'` for bools, the decimal digits for integers).
   */
  function TextBytes(v: Value): (r: seq<Byte>)
    ensures v.Str? ==> r == v.bytes
    ensures v.Unicode? ==> Utf8Decode(r) == Some(v.text)
  {
    match v
    case Str(bs) => bs
    case Unicode(t) => Utf8RoundTrip(t); Utf8Encode(t)
    case Float(_, text) => text
    case Bool(b) => Ascii(if b then "True" else "False")
    case Int(i) => Ascii(IntText(i))
    case Other(text, _) => text
  }

  // ---------------------------------------------------------------- classification

  /**
   * `_binary_annotation_type`: the first matching test wins; a value that passes none
   * of them gets no type (`None`), without an error.
   */
  function BinaryAnnotationType(v: Value): (r: Option<AnnotationType>)
    ensures r == Some(StringType) <==> v.Str? || v.Unicode?
    ensures r == Some(DoubleType) <==> v.Float?
    ensures r == Some(BoolType) <==> v.Bool?
    ensures r == Some(I64) <==> v.Int?
    ensures r.None? <==> v.Other?
    ensures r != Some(I16) && r != Some(I32) && r != Some(BytesType)
  {
    if IsText(v) then Some(StringType)
    else if IsFloat(v) then Some(DoubleType)
    else if IsBool(v) then Some(BoolType)
    else if IsIntegral(v) then Some(I64)
    else None
  }

  // ---------------------------------------------------------------- formatting

  /** The errors `struct.pack` raises for a value it cannot pack at the requested format. */
  datatype PackError =
    | OutOfRange          // an integer outside the signed range of the width
    | NotAnInteger        // a non-numeric value for `'h'`, `'i'` or `'q'`
    | NotAFloat           // a non-numeric value for `'d'`
    | ConversionLeftOut   // float-to-integer or integer-to-float coercion, not modelled

  /** The tags found in `number_formats`. */
  predicate IsNumberFormat(t: AnnotationType) {
    t.I16? || t.I32? || t.I64? || t.DoubleType?
  }

  predicate IsIntegerFormat(t: AnnotationType) {
    t.I16? || t.I32? || t.I64?
  }

  /** The byte width of `'h'`, `'i'`, `'q'` and `'d'`. */
  function Width(t: AnnotationType): (w: nat)
    requires IsNumberFormat(t)
    ensures w == 2 || w == 4 || w == 8
  {
    match t
    case I16 => 2
    case I32 => 4
    case I64 => 8
    case DoubleType => 8
  }

  /** `struct.pack('!' + number_formats[type], value)` */
  function PackNumber(v: Value, t: AnnotationType): (r: Result<seq<Byte>, PackError>)
    requires IsNumberFormat(t)
    ensures r.Ok? ==> |r.value| == Width(t)
    ensures IsIntegerFormat(t) && v.Int? ==> (r.Ok? <==> InSignedRange(v.i, Width(t)))
  {
    var w := Width(t);
    if t == DoubleType then
      match v
      case Float(bits, _) => Ok(ToBigEndian(bits as nat, w))
      case Int(_) => Err(ConversionLeftOut)
      case Bool(_) => Err(ConversionLeftOut)
      case _ => Err(NotAFloat)
    else
      match v
      case Int(i) => if InSignedRange(i, w) then Ok(PackSigned(i, w)) else Err(OutOfRange)
      case Bool(b) => Ok(PackSigned(if b then 1 else 0, w))
      case Float(_, _) => Err(ConversionLeftOut)
      case _ => Err(NotAnInteger)
  }

  const DIAGNOSTIC_PREFIX := "zipkin_cat failed to serialize type "

  /** `'zipkin_cat failed to serialize type %s value %s' % (type, value)` */
  function Diagnostic(tag: Option<AnnotationType>, v: Value): (r: seq<Byte>)
    ensures |r| > |DIAGNOSTIC_PREFIX| + |TextBytes(v)|
    ensures r[..|DIAGNOSTIC_PREFIX|] == Ascii(DIAGNOSTIC_PREFIX)
    ensures r[|r| - |TextBytes(v)|..] == TextBytes(v)
  {
    var typeText := match tag
      case None => "None"
      case Some(t) => IntText(TypeCode(t));
    var prefix, middle, text := Ascii(DIAGNOSTIC_PREFIX), Ascii(typeText) + Ascii(" value "), TextBytes(v);
    var r := prefix + middle + text;
    assert r[..|prefix|] == prefix && r[|r| - |text|..] == text;
    r
  }

  /**
   * `_format_binary_annotation_value`: text for STRING, the one-character flag `'1'` or
   * `'0'` for BOOL, fixed-width big-endian bytes for the numeric tags (or the error
   * `struct.pack` raises), and the diagnostic text for every other tag, `None` included.
   */
  function FormatBinaryAnnotationValue(v: Value, tag: Option<AnnotationType>): (r: Result<seq<Byte>, PackError>)
    ensures tag == Some(StringType) ==> r == Ok(TextBytes(v))
    ensures tag == Some(BoolType) ==> r == Ok(if Truthy(v) then [0x31] else [0x30])
    ensures tag.Some? && IsNumberFormat(tag.value) && r.Ok? ==> |r.value| == Width(tag.value)
    ensures tag.Some? && IsIntegerFormat(tag.value) && v.Int? ==>
              (r.Ok? <==> InSignedRange(v.i, Width(tag.value)))
    ensures tag.None? || tag == Some(BytesType) ==> r == Ok(Diagnostic(tag, v))
  {
    match tag
    case Some(StringType) =>
      if v.Unicode? then Ok(Utf8Encode(v.text)) else Ok(TextBytes(v))
    case Some(BoolType) =>
      if Truthy(v) then Ok([0x31]) else Ok([0x30])  // the characters '1' and '0'
    case Some(t) =>
      if IsNumberFormat(t) then PackNumber(v, t) else Ok(Diagnostic(tag, v))
    case None => Ok(Diagnostic(tag, v))
  }

  // ---------------------------------------------------------------- properties

  /**
   * An integer tagged I16, I32 or I64 packs exactly when it fits the width, and the
   * packed bytes unpack to the same integer.
   */
  lemma IntegerFormatRoundTrip(i: int, t: AnnotationType)
    requires IsIntegerFormat(t)
    ensures FormatBinaryAnnotationValue(Int(i), Some(t)).Ok? <==> InSignedRange(i, Width(t))
    ensures InSignedRange(i, Width(t)) ==>
              UnpackSigned(FormatBinaryAnnotationValue(Int(i), Some(t)).value) == i
  {
    if InSignedRange(i, Width(t)) {
      UnpackPackSigned(i, Width(t));
    }
  }

  /** Every byte string of an integer format's width is the packing of some integer. */
  lemma IntegerFormatOnto(bs: seq<Byte>, t: AnnotationType)
    requires IsIntegerFormat(t) && |bs| == Width(t)
    ensures FormatBinaryAnnotationValue(Int(UnpackSigned(bs)), Some(t)) == Ok(bs)
  {
    PackUnpackSigned(bs);
  }

  /** A bool tagged BOOL becomes the single character `'1'` or `'0'`, never a binary 0x01/0x00 byte. */
  lemma BoolFormat(b: bool)
    ensures FormatBinaryAnnotationValue(Bool(b), BinaryAnnotationType(Bool(b))) ==
              Ok(if b then ['1' as int] else ['0' as int])
  {
  }

  /**
   * What `_build_binary_annotation` stores for each supported kind of value: the bytes
   * of text (UTF-8 decoding back to the text), 8 bytes for a float, the `'1'`/`'0'` flag
   * for a bool, and 8 bytes that unpack to the integer, or the range error.
   */
  lemma ClassifyThenFormat(v: Value)
    ensures var r := FormatBinaryAnnotationValue(v, BinaryAnnotationType(v));
      && (v.Str? ==> r == Ok(v.bytes))
      && (v.Unicode? ==> r.Ok? && Utf8Decode(r.value) == Some(v.text))
      && (v.Float? ==> r.Ok? && |r.value| == 8)
      && (v.Bool? ==> r.Ok? && |r.value| == 1)
      && (v.Int? ==> (r.Ok? <==> InSignedRange(v.i, 8)))
      && (v.Int? && r.Ok? ==> |r.value| == 8 && UnpackSigned(r.value) == v.i)
      && (v.Other? ==> r == Ok(Diagnostic(None, v)))
  {
    if v.Int? {
      IntegerFormatRoundTrip(v.i, I64);
    }
  }

  /** The integer 42 is tagged I64, although it fits 16 bits, and packs to eight bytes. */
  lemma FortyTwoIsI64()
    ensures BinaryAnnotationType(Int(42)) == Some(I64)
    ensures FormatBinaryAnnotationValue(Int(42), Some(I64)) == Ok([0, 0, 0, 0, 0, 0, 0, 42])
  {
    assert InSignedRange(42, 8);
    assert PackSigned(42, 8) == ToBigEndian(42, 8);
    ToBigEndianSmall(42, 8);
    assert seq(7, _ => 0) + [42] == [0, 0, 0, 0, 0, 0, 0, 42];
  }
}
