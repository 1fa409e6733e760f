/** Date and time value types (include/dataframe/array/traits.hpp).

    `TimeType<ArrowType>` wraps the integer the Arrow type stores: a 32-bit
    count for Date32 and Time32, a 64-bit count for Date64, Timestamp and
    Time64. `Timestamp`, `Time32` and `Time64` additionally carry their time
    unit as a compile-time parameter. The comparison operators are defined
    on the wrapper, so they read only the stored count. */
module TimeTraits {
  import opened ArrowTypes

  /** `time_unit_nanos(unit)`: nanoseconds per tick of the unit. */
  function TimeUnitNanos(u: TimeUnit): (r: int)
    ensures r > 0
  {
    match u
    case Second => 1_000_000_000
    case Milli => 1_000_000
    case Micro => 1_000
    case Nano => 1
  }

  /** The next finer unit. */
  function Finer(u: TimeUnit): TimeUnit
    requires u != Nano
  {
    match u
    case Second => Milli
    case Milli => Micro
    case Micro => Nano
  }

  /** How many steps `u` is above nanoseconds. */
  function Rank(u: TimeUnit): nat {
    match u
    case Second => 3
    case Milli => 2
    case Micro => 1
    case Nano => 0
  }

  function Pow1000(n: nat): int {
    if n == 0 then 1 else 1000 * Pow1000(n - 1)
  }

  /** Each unit is a thousand ticks of the next finer one, so the factor is
      `1000` to the power of the unit's distance from nanoseconds. */
  lemma TimeUnitScale(u: TimeUnit)
    ensures u != Nano ==> TimeUnitNanos(u) == 1000 * TimeUnitNanos(Finer(u))
    ensures TimeUnitNanos(u) == Pow1000(Rank(u))
  {
    assert Pow1000(1) == 1000 && Pow1000(2) == 1000 * 1000;
    assert Pow1000(3) == 1000 * Pow1000(2);
  }

  // ---------------------------------------------------------------------
  // Value types

  /** The Arrow type a `TimeType` wraps. */
  datatype TimeBase = Date32Base | Date64Base | TimestampBase | Time32Base | Time64Base

  /** The data frame's value type: `Date32`, `Date64`, or a `Timestamp`,
      `Time32` or `Time64` with its unit. */
  datatype TimeKind =
    | Date32Kind
    | Date64Kind
    | TimestampKind(unit: TimeUnit)
    | Time32Kind(unit: TimeUnit)
    | Time64Kind(unit: TimeUnit)

  function Base(k: TimeKind): TimeBase {
    match k
    case Date32Kind => Date32Base
    case Date64Kind => Date64Base
    case TimestampKind(_) => TimestampBase
    case Time32Kind(_) => Time32Base
    case Time64Kind(_) => Time64Base
  }

  /** `2^(w-1)` for the width `w` of the signed count `ArrowType::c_type`:
      `int32_t` for Date32 and Time32, `int64_t` for the others. */
  function CountBound(b: TimeBase): nat {
    match b
    case Date32Base => 0x8000_0000
    case Time32Base => 0x8000_0000
    case _ => 0x8000_0000_0000_0000
  }

  /** The counts the signed `c_type` can hold. */
  predicate InRange(b: TimeBase, v: int) {
    -(CountBound(b) as int) <= v < CountBound(b)
  }

  datatype TimeValue = TimeValue(kind: TimeKind, value: int)

  /** `explicit TimeType(value_type v)`. */
  function Make(k: TimeKind, v: int): (r: TimeValue)
    requires InRange(Base(k), v)
  {
    TimeValue(k, v)
  }

  /** `explicit operator value_type()`. */
  function Count(t: TimeValue): int {
    t.value
  }

  /** Constructing from a count and converting back gives the count; two
      values of one kind are equal exactly when their counts are. */
  lemma MakeCount(k: TimeKind, v: int, t: TimeValue)
    requires InRange(Base(k), v)
    ensures Count(Make(k, v)) == v
    ensures t.kind == k ==> (t == Make(k, v) <==> Count(t) == v)
  {
  }

  /** The arrow type the data frame type stores, with the unit fixed by its
      parameter (`TypeTraits<...>::data_type()`). */
  function ArrowTag(k: TimeKind): (r: PrimTag)
  {
    match k
    case Date32Kind => Date32
    case Date64Kind => Date64
    case TimestampKind(u) => Timestamp(u)
    case Time32Kind(u) => Time32(u)
    case Time64Kind(u) => Time64(u)
  }

  /** The data type of a `Timestamp<U>`, `Time32<U>` or `Time64<U>` carries
      exactly the unit `U`, and distinct kinds have distinct data types. */
  lemma ArrowTagUnit(k: TimeKind, k': TimeKind)
    ensures (k.TimestampKind? ==> ArrowTag(k) == Timestamp(k.unit))
    ensures (k.Time32Kind? ==> ArrowTag(k) == Time32(k.unit))
    ensures (k.Time64Kind? ==> ArrowTag(k) == Time64(k.unit))
    ensures ArrowTag(k) == ArrowTag(k') ==> k == k'
  {
  }

  // ---------------------------------------------------------------------
  // Comparisons: templates over the wrapped Arrow type, so both operands
  // share a base (but not necessarily a unit).

  predicate Comparable(a: TimeValue, b: TimeValue) {
    Base(a.kind) == Base(b.kind)
  }

  predicate Eq(a: TimeValue, b: TimeValue) requires Comparable(a, b) { a.value == b.value }
  predicate Ne(a: TimeValue, b: TimeValue) requires Comparable(a, b) { a.value != b.value }
  predicate Lt(a: TimeValue, b: TimeValue) requires Comparable(a, b) { a.value < b.value }
  predicate Gt(a: TimeValue, b: TimeValue) requires Comparable(a, b) { a.value > b.value }
  predicate Le(a: TimeValue, b: TimeValue) requires Comparable(a, b) { a.value <= b.value }
  predicate Ge(a: TimeValue, b: TimeValue) requires Comparable(a, b) { a.value >= b.value }

  /** `==` and `!=` are mutual negations, and `==` on values of one kind is
      equality of the values. */
  lemma EqNe(a: TimeValue, b: TimeValue)
    requires Comparable(a, b)
    ensures Ne(a, b) == !Eq(a, b)
    ensures a.kind == b.kind ==> (Eq(a, b) <==> a == b)
  {
  }

  /** The orderings agree with each other: `<` and `>=` are complementary,
      as are `>` and `<=`; `>` is `<` with the operands swapped; `<=` is `<`
      or `==`; exactly one of `<`, `==`, `>` holds. */
  lemma OrderConsistent(a: TimeValue, b: TimeValue)
    requires Comparable(a, b)
    ensures Lt(a, b) == !Ge(a, b) && Gt(a, b) == !Le(a, b)
    ensures Gt(a, b) == Lt(b, a) && Ge(a, b) == Le(b, a)
    ensures Le(a, b) == (Lt(a, b) || Eq(a, b))
    ensures (Lt(a, b) && !Eq(a, b) && !Gt(a, b))
         || (!Lt(a, b) && Eq(a, b) && !Gt(a, b))
         || (!Lt(a, b) && !Eq(a, b) && Gt(a, b))
  {
  }

  /** `<` is a strict order and `<=` a total order. */
  lemma OrderLaws(a: TimeValue, b: TimeValue, c: TimeValue)
    requires Comparable(a, b) && Comparable(b, c)
    ensures Comparable(a, c)
    ensures !Lt(a, a)
    ensures Lt(a, b) && Lt(b, c) ==> Lt(a, c)
    ensures Le(a, b) && Le(b, c) ==> Le(a, c)
    ensures Le(a, b) || Le(b, a)
    ensures Le(a, b) && Le(b, a) ==> Eq(a, b)
  {
  }

  /** The operators read only the count: a timestamp in seconds and one in
      milliseconds with the same count compare equal, though they denote
      instants a thousandfold apart. */
  lemma CompareIgnoresUnit(v: int)
    requires InRange(TimestampBase, v) && v != 0
    ensures var a, b := Make(TimestampKind(Second), v), Make(TimestampKind(Milli), v);
            Comparable(a, b) && Eq(a, b)
            && v * TimeUnitNanos(a.kind.unit) != v * TimeUnitNanos(b.kind.unit)
  {
  }
}
