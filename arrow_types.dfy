/** The vocabulary of the columnar runtime (Apache Arrow) that the data frame
    library works on: time units, type ids and logical types. Only what the
    modelled code inspects is represented. */
module ArrowTypes {

  /** `arrow::TimeUnit::type` */
  datatype TimeUnit = Second | Milli | Micro | Nano

  /** The type tags that have a primitive (non-nested) array layout. The first
      sixteen are fixed width; Boolean, Binary, String, FixedSizeBinary and
      Decimal128 are read element by element. */
  datatype PrimTag =
    | Int8 | Int16 | Int32 | Int64
    | UInt8 | UInt16 | UInt32 | UInt64
    | HalfFloat | Float | Double
    | Date32 | Date64
    | Timestamp(tsUnit: TimeUnit)
    | Time32(t32Unit: TimeUnit)
    | Time64(t64Unit: TimeUnit)
    | Boolean | Binary | String
    | FixedSizeBinary(width: nat)
    | Decimal128(precision: nat, scale: int)

  /** Tags whose values are copied as a raw block of fixed-width elements. */
  predicate IsFixedWidth(t: PrimTag) {
    !(t.Boolean? || t.Binary? || t.String? || t.FixedSizeBinary? || t.Decimal128?)
  }

  /** A logical type. Two types are equal exactly when their tags and all
      nested parameters are equal (datatype equality). */
  datatype LogicalType =
    | NullType
    | PrimType(tag: PrimTag)
    | ListType(elem: LogicalType)
    | StructType(fields: seq<Field>)
    | DictionaryType(index: PrimTag, value: LogicalType, ordered: bool)
    | UnionType(members: seq<Field>)
    | IntervalType
    | MapType(key: LogicalType, item: LogicalType)

  datatype Field = Field(name: string, ty: LogicalType)

  /** `arrow::Type::type`, the runtime type id, with Arrow's own spelling. */
  datatype TypeId =
    | NA | BOOL
    | UINT8 | INT8 | UINT16 | INT16 | UINT32 | INT32 | UINT64 | INT64
    | HALF_FLOAT | FLOAT | DOUBLE
    | STRING | BINARY | FIXED_SIZE_BINARY
    | DATE32 | DATE64 | TIMESTAMP | TIME32 | TIME64
    | INTERVAL | DECIMAL | LIST | STRUCT | UNION | DICTIONARY | MAP

  /** `DataType::id()`: the id of a logical type. */
  function Id(t: LogicalType): TypeId {
    match t
    case NullType => NA
    case PrimType(tag) =>
      (match tag
       case Int8 => INT8
       case Int16 => INT16
       case Int32 => INT32
       case Int64 => INT64
       case UInt8 => UINT8
       case UInt16 => UINT16
       case UInt32 => UINT32
       case UInt64 => UINT64
       case HalfFloat => HALF_FLOAT
       case Float => FLOAT
       case Double => DOUBLE
       case Date32 => DATE32
       case Date64 => DATE64
       case Timestamp(_) => TIMESTAMP
       case Time32(_) => TIME32
       case Time64(_) => TIME64
       case Boolean => BOOL
       case Binary => BINARY
       case String => STRING
       case FixedSizeBinary(_) => FIXED_SIZE_BINARY
       case Decimal128(_, _) => DECIMAL)
    case ListType(_) => LIST
    case StructType(_) => STRUCT
    case DictionaryType(_, _, _) => DICTIONARY
    case UnionType(_) => UNION
    case IntervalType => INTERVAL
    case MapType(_, _) => MAP
  }
}
