/** The data frame's own type tags (include/dataframe/data_type.hpp).

    `DataType` is an enumeration over `std::uint32_t` whose high bits name a
    category: bit 8 for integers (and the integer-backed date and timestamp),
    bit 9 for reals, bit 10 for binary (string-like) data. The bitwise
    operators act on the underlying integer, so they can produce values that
    are no enumerator; `ToString` has no case for those. */
module DataTypes {
  import opened Wrappers
  import opened ArrowTypes

  datatype DataType = DataType(bits: bv32)

  const Unknown := DataType(0)
  const Bool := DataType(1)
  const UInt8 := DataType(0x101)
  const Int8 := DataType(0x102)
  const UInt16 := DataType(0x103)
  const Int16 := DataType(0x104)
  const UInt32 := DataType(0x105)
  const Int32 := DataType(0x106)
  const UInt64 := DataType(0x107)
  const Int64 := DataType(0x108)
  const Date := DataType(0x109)
  const Timestamp := DataType(0x10A)
  const Float := DataType(0x201)
  const Double := DataType(0x202)
  const String := DataType(0x401)
  const Categorical := DataType(0x402)

  /** The category constants. */
  const Integer := DataType(1 << 8)
  const Real := DataType(1 << 9)
  const Binary := DataType(1 << 10)

  /** The sixteen enumerators. */
  predicate IsEnumerator(d: DataType) {
    || d == Unknown || d == Bool
    || d == UInt8 || d == Int8 || d == UInt16 || d == Int16
    || d == UInt32 || d == Int32 || d == UInt64 || d == Int64
    || d == Date || d == Timestamp
    || d == Float || d == Double
    || d == String || d == Categorical
  }

  // ---------------------------------------------------------------------
  // Bitwise operators

  function Not(d: DataType): DataType {
    DataType(!d.bits)
  }

  function Or(d1: DataType, d2: DataType): DataType {
    DataType(d1.bits | d2.bits)
  }

  function And(d1: DataType, d2: DataType): DataType {
    DataType(d1.bits & d2.bits)
  }

  function Xor(d1: DataType, d2: DataType): DataType {
    DataType(d1.bits ^ d2.bits)
  }

  /** `d` carries every bit of the category `c`. */
  predicate HasCategory(d: DataType, c: DataType) {
    And(d, c) == c
  }

  /** `~` is an involution. */
  lemma NotNot(a: DataType)
    ensures Not(Not(a)) == a
  {
  }

  /** `^` with itself clears every bit, and toggling the same bits twice
      restores the value. */
  lemma XorLaws(a: DataType, b: DataType)
    ensures Xor(a, a) == Unknown
    ensures Xor(a, b) == Xor(b, a)
    ensures Xor(Xor(a, b), b) == a
  {
  }

  /** `|` and `&` commute. */
  lemma OrAndCommute(a: DataType, b: DataType)
    ensures Or(a, b) == Or(b, a) && And(a, b) == And(b, a)
  {
  }

  /** `Unknown` (zero) is the identity of `|` and absorbs `&`. */
  lemma UnknownLaws(a: DataType)
    ensures Or(a, Unknown) == a && And(a, Unknown) == Unknown
  {
  }

  /** Adding or masking the same bits a second time changes nothing. */
  lemma OrAndIdempotent(a: DataType, b: DataType)
    ensures Or(Or(a, b), b) == Or(a, b)
    ensures And(And(a, b), b) == And(a, b)
  {
  }

  lemma DeMorgan(a: DataType, b: DataType)
    ensures Not(Or(a, b)) == And(Not(a), Not(b))
  {
  }

  /** A `DataType` variable the compound assignments write through: the
      reference argument of `|=`, `&=` and `^=`. */
  class DataTypeRef {
    var value: DataType

    constructor (v: DataType)
      ensures value == v
    {
      value := v;
    }

    /** `dtype1 |= dtype2`: stores the union and returns the stored value. */
    method OrAssign(d: DataType) returns (r: DataType)
      modifies this
      ensures value == Or(old(value), d) && r == value
    {
      value := Or(value, d);
      r := value;
    }

    method AndAssign(d: DataType) returns (r: DataType)
      modifies this
      ensures value == And(old(value), d) && r == value
    {
      value := And(value, d);
      r := value;
    }

    method XorAssign(d: DataType) returns (r: DataType)
      modifies this
      ensures value == Xor(old(value), d) && r == value
    {
      value := Xor(value, d);
      r := value;
    }
  }

  /** Toggling the same bits twice restores the variable; adding the same
      bits twice is the same as adding them once. */
  method AssignTwice(v: DataType, d: DataType) returns (afterXor: DataType, afterOr: DataType, onceOr: DataType)
    ensures afterXor == v
    ensures afterOr == onceOr
  {
    var x := new DataTypeRef(v);
    var _ := x.XorAssign(d);
    afterXor := x.XorAssign(d);
    XorLaws(v, d);
    OrAndIdempotent(v, d);
    var y := new DataTypeRef(v);
    onceOr := y.OrAssign(d);
    afterOr := y.OrAssign(d);
  }

  // ---------------------------------------------------------------------
  // Categories

  predicate IsIntegerKind(d: DataType) {
    || d == UInt8 || d == Int8 || d == UInt16 || d == Int16
    || d == UInt32 || d == Int32 || d == UInt64 || d == Int64
    || d == Date || d == Timestamp
  }

  /** Each enumerator carries exactly the category bit of its kind: the
      integer-backed ones (including Date and Timestamp) carry `Integer`,
      Float and Double carry `Real`, String and Categorical carry `Binary`,
      and Unknown and Bool carry none. */
  lemma Categories(d: DataType)
    requires IsEnumerator(d)
    ensures HasCategory(d, Integer) <==> IsIntegerKind(d)
    ensures HasCategory(d, Real) <==> d == Float || d == Double
    ensures HasCategory(d, Binary) <==> d == String || d == Categorical
  {
  }

  // ---------------------------------------------------------------------
  // From the runtime type id

  /** `dtype(type id)`: the tag of an array of that type. */
  function Dtype(t: TypeId): (r: DataType)
    ensures IsEnumerator(r)
  {
    match t
    case NA => Unknown
    case BOOL => Bool
    case UINT8 => UInt8
    case INT8 => Int8
    case UINT16 => UInt16
    case INT16 => Int16
    case UINT32 => UInt32
    case INT32 => Int32
    case UINT64 => UInt64
    case INT64 => Int64
    case HALF_FLOAT => Unknown
    case FLOAT => Float
    case DOUBLE => Double
    case STRING => String
    case BINARY => Unknown
    case FIXED_SIZE_BINARY => Unknown
    case DATE32 => Date
    case DATE64 => Unknown
    case TIMESTAMP => Timestamp
    case TIME32 => Unknown
    case TIME64 => Unknown
    case INTERVAL => Unknown
    case DECIMAL => Unknown
    case LIST => Unknown
    case STRUCT => Unknown
    case UNION => Unknown
    case DICTIONARY => Categorical
    case MAP => Unknown
  }

  /** The type id each known tag comes from: the partner of `Dtype`. */
  function SourceId(d: DataType): Option<TypeId> {
    if d == Bool then Some(BOOL)
    else if d == UInt8 then Some(UINT8)
    else if d == Int8 then Some(INT8)
    else if d == UInt16 then Some(UINT16)
    else if d == Int16 then Some(INT16)
    else if d == UInt32 then Some(UINT32)
    else if d == Int32 then Some(INT32)
    else if d == UInt64 then Some(UINT64)
    else if d == Int64 then Some(INT64)
    else if d == Float then Some(FLOAT)
    else if d == Double then Some(DOUBLE)
    else if d == String then Some(STRING)
    else if d == Date then Some(DATE32)
    else if d == Timestamp then Some(TIMESTAMP)
    else if d == Categorical then Some(DICTIONARY)
    else None
  }

  /** `dtype` is injective away from Unknown: a known tag determines the type
      id it came from. */
  lemma DtypeInjective(t: TypeId)
    ensures Dtype(t) != Unknown ==> SourceId(Dtype(t)) == Some(t)
  {
    match t
    case NA =>
    case BOOL =>
    case UINT8 =>
    case INT8 =>
    case UINT16 =>
    case INT16 =>
    case UINT32 =>
    case INT32 =>
    case UINT64 =>
    case INT64 =>
    case HALF_FLOAT =>
    case FLOAT =>
    case DOUBLE =>
    case STRING =>
    case BINARY =>
    case FIXED_SIZE_BINARY =>
    case DATE32 =>
    case DATE64 =>
    case TIMESTAMP =>
    case TIME32 =>
    case TIME64 =>
    case INTERVAL =>
    case DECIMAL =>
    case LIST =>
    case STRUCT =>
    case UNION =>
    case DICTIONARY =>
    case MAP =>
  }

  /** A type id `SourceId` names is one `dtype` sends back to the tag. */
  lemma SourceIdDtype(d: DataType)
    ensures SourceId(d).Some? ==> Dtype(SourceId(d).value) == d
  {
  }

  /** Every enumerator but Unknown comes from some type id. */
  lemma EnumeratorSource(d: DataType)
    requires IsEnumerator(d) && d != Unknown
    ensures SourceId(d).Some?
  {
  }

  /** The type ids without a data frame tag. */
  lemma DtypeUnknown(t: TypeId)
    ensures Dtype(t) == Unknown <==>
              t in [NA, HALF_FLOAT, BINARY, FIXED_SIZE_BINARY, DATE64, TIME32, TIME64,
                    INTERVAL, DECIMAL, LIST, STRUCT, UNION, MAP]
  {
  }

  // ---------------------------------------------------------------------
  // Names

  /** `to_string(dtype)`. The switch has a case for each enumerator and no
      default, so a value built by the bitwise operators that is no
      enumerator has no name (`None`). */
  function ToString(d: DataType): Option<string> {
    if d == Unknown then Some("unknown")
    else if d == Bool then Some("bool")
    else if d == UInt8 then Some("uint8")
    else if d == Int8 then Some("int8")
    else if d == UInt16 then Some("uint16")
    else if d == Int16 then Some("int16")
    else if d == UInt32 then Some("uint32")
    else if d == Int32 then Some("int32")
    else if d == UInt64 then Some("uint64")
    else if d == Int64 then Some("int64")
    else if d == Date then Some("date")
    else if d == Timestamp then Some("timestamp")
    else if d == Float then Some("float")
    else if d == Double then Some("double")
    else if d == String then Some("string")
    else if d == Categorical then Some("categorical")
    else None
  }

  /** Reading a name back: the partner of `ToString`. */
  function FromString(s: string): Option<DataType> {
    if s == "unknown" then Some(Unknown)
    else if s == "bool" then Some(Bool)
    else if s == "uint8" then Some(UInt8)
    else if s == "int8" then Some(Int8)
    else if s == "uint16" then Some(UInt16)
    else if s == "int16" then Some(Int16)
    else if s == "uint32" then Some(UInt32)
    else if s == "int32" then Some(Int32)
    else if s == "uint64" then Some(UInt64)
    else if s == "int64" then Some(Int64)
    else if s == "date" then Some(Date)
    else if s == "timestamp" then Some(Timestamp)
    else if s == "float" then Some(Float)
    else if s == "double" then Some(Double)
    else if s == "string" then Some(String)
    else if s == "categorical" then Some(Categorical)
    else None
  }

  /** Every enumerator, and nothing else, has a name. */
  lemma ToStringDefined(d: DataType)
    ensures ToString(d).Some? <==> IsEnumerator(d)
  {
  }

  /** Reading a tag's name back gives the tag. */
  lemma ToStringRoundTrip(d: DataType)
    ensures ToString(d).Some? ==> FromString(ToString(d).value) == Some(d)
  {
    if d.bits < 0x107 {
      RoundTripLow(d);
    } else {
      RoundTripHigh(d);
    }
  }

  /** `ToStringRoundTrip` for the enumerators below UInt64. */
  lemma RoundTripLow(d: DataType)
    requires d.bits < 0x107
    ensures ToString(d).Some? ==> FromString(ToString(d).value) == Some(d)
  {
    if d == Unknown {
      assert FromString(ToString(d).value) == Some(d);
    } else if d == Bool {
      assert FromString(ToString(d).value) == Some(d);
    } else if d == UInt8 {
      assert FromString(ToString(d).value) == Some(d);
    } else if d == Int8 {
      assert FromString(ToString(d).value) == Some(d);
    } else if d == UInt16 {
      assert FromString(ToString(d).value) == Some(d);
    } else if d == Int16 {
      assert FromString(ToString(d).value) == Some(d);
    } else if d == UInt32 {
      assert FromString(ToString(d).value) == Some(d);
    } else if d == Int32 {
      assert FromString(ToString(d).value) == Some(d);
    }
  }

  /** `ToStringRoundTrip` for UInt64 and the enumerators above it. */
  lemma RoundTripHigh(d: DataType)
    requires d.bits >= 0x107
    ensures ToString(d).Some? ==> FromString(ToString(d).value) == Some(d)
  {
    if d == UInt64 {
      assert FromString(ToString(d).value) == Some(d);
    } else if d == Int64 {
      assert FromString(ToString(d).value) == Some(d);
    } else if d == Date {
      assert FromString(ToString(d).value) == Some(d);
    } else if d == Timestamp {
      assert FromString(ToString(d).value) == Some(d);
    } else if d == Float {
      assert FromString(ToString(d).value) == Some(d);
    } else if d == Double {
      assert FromString(ToString(d).value) == Some(d);
    } else if d == String {
      assert FromString(ToString(d).value) == Some(d);
    } else if d == Categorical {
      assert FromString(ToString(d).value) == Some(d);
    }
  }

  /** The name determines the tag: distinct tags have distinct names. */
  lemma ToStringInjective(d1: DataType, d2: DataType)
    requires ToString(d1).Some? && ToString(d1) == ToString(d2)
    ensures d1 == d2
  {
    ToStringRoundTrip(d1);
    ToStringRoundTrip(d2);
  }
}
